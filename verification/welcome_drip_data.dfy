/**
 * The welcome-drip campaign table of
 * worker/cron-jobs/welcome-drip/data/welcome-drip-data.js: keyed by the
 * number of days since sign-up on which the campaign's e-mail is sent.
 */
module WelcomeDripData {
  import opened Wrappers
  import opened Js

  datatype Campaign = Campaign(
    day: int,
    name: string,
    template_name: string,
    template_slug: string,
    ga_campaign: string,
    tags: seq<string>)

  const CampaignTag: string := "welcome-drip-campaign"

  /** The sending days, in increasing order. */
  const DripDays: seq<int> := [3, 8, 12, 17]

  const Table: map<int, Campaign> := map[
    3 := Campaign(3, "welcome_drip_2", "Drip 2 - Your friends are here", "drip-2-your-friends-are-here",
                  "drip-2-your-friends-are-here", ["drip-2-your-friends-are-here", CampaignTag]),
    8 := Campaign(8, "welcome_drip_3", "Drip 3 - see how you stack up", "drip-3-see-how-you-stack-up",
                  "drip-3-see-how-you-stack-up", ["drip-3-see-how-you-stack-up", CampaignTag]),
    12 := Campaign(12, "welcome_drip_4", "Drip 4 - The shop at Wheelwell", "drip-4-the-shop-at-wheelwell",
                   "drip-4-the-shop-at-wheelwell", ["drip-4-the-shop-at-wheelwell", CampaignTag]),
    17 := Campaign(17, "welcome_drip_5", "Drip 5 - learn to tag", "drip-5-learn-to-tag",
                   "drip-5-learn-to-tag", ["drip-5-learn-to-tag", CampaignTag])
  ]

  /** `WELCOME_DRIP_DATA.hasOwnProperty(days)` and the entry it selects. */
  function CampaignFor(days: int): (c: Option<Campaign>)
    ensures c.Some? <==> days in DripDays
    ensures c.Some? ==> c.value.day == days
    ensures c.Some? ==> c.value.template_slug == c.value.ga_campaign
    ensures c.Some? ==> c.value.tags == [c.value.template_slug, CampaignTag]
  {
    if days in Table then Some(Table[days]) else None
  }

  /** The i-th sending day carries the name `welcome_drip_{i+2}`, so the names follow the days. */
  lemma NamesFollowDays()
    ensures forall i :: 0 <= i < |DripDays| ==> CampaignFor(DripDays[i]).value.name == "welcome_drip_" + NatToString(i + 2)
  {
    assert NatToString(2) == "2" && NatToString(3) == "3" && NatToString(4) == "4" && NatToString(5) == "5";
  }

  /** Different days send different templates. */
  lemma SlugsDistinct(d1: int, d2: int)
    requires d1 in DripDays && d2 in DripDays && d1 != d2
    ensures CampaignFor(d1).value.template_slug != CampaignFor(d2).value.template_slug
  {
  }
}
