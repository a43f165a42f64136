/**
 * `generateNotificationDetails`
 * (worker/cron-jobs/weekly-digest/weekly-digest-utility.js): the decision table
 * that turns one notification into its texts, URL, photos, mail flags, tags
 * and subject line, and the filter that drops the notifications it rejects.
 *
 * The renderer calls `striptags`, which the file never imports, in the
 * V2_Comment and Connection action-type branches and in the Post target
 * branch, so those throw a ReferenceError; a read of a field of a missing
 * (`null`) owner throws a TypeError. Both end the whole batch.
 */
module NotificationRender {
  import opened Wrappers
  import opened Js
  import opened ImageModel
  import opened StockVehicleModel
  import opened NotificationData

  const NoPhoto: string := "https://d3c8j4mxmubrpz.cloudfront.net/email-welcome/welcome-user-no-photo.jpg"
  const VehiclePlaceholder: string := "https://d1oglr07rm6q0i.cloudfront.net/c39a38b2-f459-40ef-945e-b69936484a98.thumb.jpg"
  const GraphPrefix: string := "https://graph.facebook.com/v2.9/"
  const BuildGuideUrl: string := "/build-guides/the-ultimate-canyon-carver-1997-2004-chevrolet-corvette"

  /** Why rendering threw. */
  datatype Throw = StriptagsUndefined | OwnerIsNull

  /** One subject-line variant of the copy test and the tag that records it. */
  datatype Candidate = Candidate(text: string, tag: string)

  /** The fields the renderer adds to a notification. */
  datatype Rendered = Rendered(
    owner: Option<Profile>,
    action: string,
    action_type: string,
    target_type: string,
    actions: seq<Action>,
    target: Target,
    action_object: ActionObject,
    tags: seq<string>,
    send_email: bool,
    send_apn: bool,
    subject: string,
    text: string,
    actor_text: string,
    action_text: string,
    target_text: string,
    actor_photo: string,
    target_photo: Option<string>,
    target_url: string,
    owner_photo: string,
    template_slug: string,
    template_name: string,
    target_make: Option<string>,
    target_model: Option<string>)

  /** A rendered notification keeps at least one action, and only actions whose actor was found. */
  predicate HasActors(r: Rendered) {
    r.actions != [] && forall a :: a in r.actions ==> a.actor.Some?
  }

  /** What happens to one notification. */
  datatype Outcome = Dropped | Untouched(n: Notification) | Done(r: Rendered) | Threw(reason: Throw)

  // ---------------------------------------------------------------- actors

  /** The actions whose actor was found, in order. */
  function WithActor(actions: seq<Action>): (r: seq<Action>)
    ensures |r| <= |actions|
    ensures forall a :: a in r <==> a in actions && a.actor.Some?
  {
    if actions == [] then []
    else if actions[0].actor.Some? then [actions[0]] + WithActor(actions[1..])
    else WithActor(actions[1..])
  }

  function FacebookPhoto(id: Option<string>): string {
    GraphPrefix + Show(id) + "/picture?type=normal"
  }

  /** One user's photo: the thumb of the primary image, else the Facebook picture, else none. */
  function PhotoOf(p: Profile): (url: Option<string>)
    ensures p.primary_image.Some? ==> url == Some(Thumb(p.primary_image.value))
    ensures p.primary_image.None? && p.facebook.Some? ==> url == Some(FacebookPhoto(p.facebook.value.id))
    ensures url.None? <==> p.primary_image.None? && p.facebook.None?
  {
    if p.primary_image.Some? then Some(Thumb(p.primary_image.value))
    else if p.facebook.Some? then Some(FacebookPhoto(p.facebook.value.id))
    else None
  }

  /** `actor_photo`: the first actor's photo, else the second's, else the no-photo image. */
  function ActorPhoto(kept: seq<Action>): (url: string)
    requires |kept| >= 1 && forall a :: a in kept ==> a.actor.Some?
    ensures PhotoOf(kept[0].actor.value).Some? ==> url == PhotoOf(kept[0].actor.value).value
    ensures PhotoOf(kept[0].actor.value).None? && |kept| >= 2 && PhotoOf(kept[1].actor.value).Some? ==>
              url == PhotoOf(kept[1].actor.value).value
    ensures PhotoOf(kept[0].actor.value).None? && (|kept| < 2 || PhotoOf(kept[1].actor.value).None?) ==>
              url == NoPhoto
  {
    var p0 := PhotoOf(kept[0].actor.value);
    if p0.Some? then p0.value
    else if |kept| >= 2 && PhotoOf(kept[1].actor.value).Some? then PhotoOf(kept[1].actor.value).value
    else NoPhoto
  }

  /** The owner photo: the same chain for the notification's owner. */
  function OwnerPhoto(owner: Profile): (url: string)
    ensures PhotoOf(owner).Some? ==> url == PhotoOf(owner).value
    ensures PhotoOf(owner).None? ==> url == NoPhoto
  {
    PhotoOf(owner).GetOr(NoPhoto)
  }

  function FullName(p: Profile): string {
    Show(p.first_name) + " " + Show(p.last_name)
  }

  /**
   * `actor_text` for `n` actors whose first two full names are given, built
   * up piece by piece as the renderer does.
   */
  function ActorTextOf(n: nat, first: string, second: string): string {
    var joiner := if n == 2 then " and" else if n > 2 then "," else "";
    var tail := if n >= 2 then " " + second else "";
    var others := if n > 2 then ", and " + NatToString(n - 2) + " other " + (if n == 3 then "person" else "people") else "";
    first + joiner + tail + others
  }

  function ActorText(kept: seq<Action>): string
    requires |kept| >= 1 && forall a :: a in kept ==> a.actor.Some?
  {
    ActorTextOf(|kept|, FullName(kept[0].actor.value), if |kept| >= 2 then FullName(kept[1].actor.value) else "")
  }

  /** The three forms of `actor_text`. */
  lemma ActorTextForms(n: nat, first: string, second: string)
    requires n >= 1
    ensures n == 1 ==> ActorTextOf(n, first, second) == first
    ensures n == 2 ==> ActorTextOf(n, first, second) == first + " and " + second
    ensures n > 2 ==>
              ActorTextOf(n, first, second) == first + ", " + second + ", and " + NatToString(n - 2) + " other "
                                               + (if n == 3 then "person" else "people")
  {
    if n == 1 {
      assert ActorTextOf(n, first, second) == first + "" + "" + "";
    } else if n == 2 {
      assert ActorTextOf(n, first, second) == first + " and " + second by {
        assert ActorTextOf(n, first, second) == first + " and" + (" " + second) + "";
        JoinWithSpace(first, " and", second, "");
      }
    } else {
      var others := ", and " + NatToString(n - 2) + " other " + (if n == 3 then "person" else "people");
      assert ActorTextOf(n, first, second) == first + ", " + second + others by {
        assert ActorTextOf(n, first, second) == first + "," + (" " + second) + others;
        JoinWithSpace(first, ",", second, others);
      }
    }
  }

  lemma JoinWithSpace(a: string, j: string, b: string, c: string)
    ensures a + j + (" " + b) + c == a + (j + " ") + b + c
  {
    assert a + j + (" " + b) == a + (j + " ") + b;
  }

  // ---------------------------------------------------------------- action and target

  /** `action_text` by action type; V2_Comment and Connection reach `striptags` and throw. */
  function ActionText(action_type: string): (r: Result<string, Throw>)
    ensures r.Failure? <==> action_type == "V2_Comment" || action_type == "Connection"
    ensures r.Success? && r.value != "" <==>
              action_type in {"V2_Thread", "Activity", "Post", "Image", "Vehicle", "Part"}
  {
    match action_type
    case "V2_Comment" => Failure(StriptagsUndefined)
    case "V2_Thread" => Success(" posted a new topic in")
    case "Activity" => Success(" made a post")
    case "Post" => Success(" made a post")
    case "Image" => Success(" added a new photo")
    case "Vehicle" => Success(" added a new ride")
    case "Part" => Success(" installed the")
    case "Connection" => Failure(StriptagsUndefined)
    case _ => Success("")
  }

  /**
   * The vehicle photo: the primary image's medium URL, else the stock
   * vehicle's default medium URL, else the placeholder.
   */
  function VehiclePhoto(t: Target): (url: string)
    ensures t.primary_image.Some? ==> url == Medium(t.primary_image.value)
    ensures t.primary_image.None? && t.stock.Some? && Truthy(t.stock.value.default_image.medium_key) ==>
              url == S3 + t.stock.value.default_image.medium_key.value
    ensures t.primary_image.None? && (t.stock.None? || !Truthy(t.stock.value.default_image.medium_key)) ==>
              url == VehiclePlaceholder
    ensures url != ""
  {
    var photo :=
      if t.primary_image.Some? then Some(Medium(t.primary_image.value))
      else if t.stock.Some? && Truthy(DefaultMedium(t.stock.value)) then DefaultMedium(t.stock.value)
      else Some("");
    if Truthy(photo) then photo.value else VehiclePlaceholder
  }

  /** What the target section computes. */
  datatype TargetInfo = TargetInfo(
    text: string,
    url: string,
    photo: Option<string>,
    make: Option<string>,
    model: Option<string>,
    sends: bool,
    template_slug: string,
    template_name: string)

  function Info(text: string, url: string, photo: Option<string>): TargetInfo {
    TargetInfo(text, url, photo, Some(""), Some(""), false, "", "")
  }

  function ImageThumbOr(img: Option<Image>, default: string): string {
    if img.Some? then Thumb(img.value) else default
  }

  function YearMakeModel(t: Target): string {
    Show(t.year) + " " + Show(t.make) + " " + Show(t.model)
  }

  function VehiclePath(actor: Profile, t: Target): string {
    "/" + Show(actor.profile_name) + "/" + Show(t.vehicle_url_id) + "/" + Show(t.slug)
  }

  /** The Vehicle-target branch, by action. */
  function VehicleInfo(n: Notification, actor: Profile, t: Target, ao: ActionObject): (r: Result<TargetInfo, Throw>)
    ensures r.Failure? <==> n.action !in {"VEHICLE_ADD", "PHOTO_POST", "PART_ADD"} && n.owner.None?
    ensures r.Success? ==> r.value.make == t.make && r.value.model == t.model
    ensures r.Success? ==> (r.value.sends <==> n.action !in {"VEHICLE_ADD", "PHOTO_POST", "PART_ADD"})
  {
    var base :=
      if n.action == "VEHICLE_ADD" then
        Success(Info(" " + YearMakeModel(t) + ".", VehiclePath(actor, t), Some(VehiclePhoto(t))))
      else if n.action == "PHOTO_POST" then
        Success(Info(" to the " + YearMakeModel(t) + ".", VehiclePath(actor, t) + "?photo_id=" + ao.id,
                     if Truthy(ao.thumb) then ao.thumb else ao.medium))
      else if n.action == "PART_ADD" then
        Success(Info(" " + Show(ao.brand) + " " + Show(ao.name) + " on the " + YearMakeModel(t) + ".",
                     VehiclePath(actor, t) + "/" + Show(ao.part_url_id) + "/" + Show(ao.slug), Some("")))
      else if n.owner.None? then
        Failure(OwnerIsNull)
      else
        Success(TargetInfo(" your " + Show(t.year) + " " + Show(t.model) + ".", VehiclePath(n.owner.value, t),
                           Some(VehiclePhoto(t)), Some(""), Some(""), true, "", ""));
    if base.Failure? then base else Success(base.value.(make := t.make, model := t.model))
  }

  /** The V2_Comment target URL, by the root document's type. */
  function CommentRootUrl(n: Notification, kept0: Action, t: Target): Result<string, Throw> {
    if t.root_type == Some("Activity") then Success("/post/" + Show(t.root_id))
    else if t.root_type == Some("V2_Thread") then Success("/forum/thread/" + Show(t.root_id) + "/reply/" + kept0.action_id)
    else if t.root_type == Some("Post") then Success("?pid=" + Show(t.root_id))
    else if t.root_type == Some("Vehicle") then
      (if n.owner.None? then Failure(OwnerIsNull) else Success("/profile/" + n.owner.value.id + "/vehicles/" + Show(t.root_id)))
    else Success("")
  }

  /** The User-target branch, by action type. */
  function UserInfo(n: Notification, kept: seq<Action>, ao: ActionObject): (info: TargetInfo)
    requires |kept| >= 1 && forall a :: a in kept ==> a.actor.Some?
  {
    var last := kept[|kept| - 1];
    if n.action_type == "Activity" then Info(".", "/post/" + last.action_id, Some(""))
    else if n.action_type == "Post" then
      var text :=
        if n.action == "WALL_POST" then (if Truthy(ao.title) then ": " + ao.title.value + "." else "")
        else if n.action == "VEHICLE_POST" then " on their vehicle: " + Show(ao.title) + "."
        else "";
      Info(text, "?pid=" + last.action_id, Some(""))
    else
      TargetInfo(" you.", "/" + Show(kept[0].actor.value.profile_name), Some(""), Some(""), Some(""), false,
                 "you-have-a-new-follower", "You Have a New Follower")
  }

  /** The target section of the renderer. */
  function TargetSection(n: Notification, kept: seq<Action>, t: Target, ao: ActionObject): (r: Result<TargetInfo, Throw>)
    requires |kept| >= 1 && forall a :: a in kept ==> a.actor.Some?
    ensures r.Failure? <==>
              n.target_type == "Post"
              || (n.target_type == "Vehicle" && n.action !in {"VEHICLE_ADD", "PHOTO_POST", "PART_ADD"} && n.owner.None?)
              || (n.target_type == "V2_Comment" && t.root_type == Some("Vehicle") && n.owner.None?)
    ensures r.Success? ==> (r.value.sends <==> n.target_type == "Vehicle" && n.action !in {"VEHICLE_ADD", "PHOTO_POST", "PART_ADD"})
    ensures r.Success? && n.target_type != "Vehicle" ==> r.value.make == Some("") && r.value.model == Some("")
  {
    var actor := kept[0].actor.value;
    match n.target_type
    case "Album" =>
      Success(Info(" your album, " + Show(t.name) + ".", "/profile/" + Show(t.owner) + "/garage/albums/" + t.id,
                   Some(ImageThumbOr(t.primary_image, ""))))
    case "Image" => Success(Info(" your photo.", "", t.thumb))
    case "Vehicle" => VehicleInfo(n, actor, t, ao)
    case "Part" =>
      var owner0 := if |t.owners| > 0 then Some(t.owners[0]) else None;
      Success(Info(" your " + Show(t.brand) + " " + Show(t.name) + ".",
                   "/profile/" + Show(owner0) + "/vehicles/" + Show(t.vehicle) + "/parts/" + t.id,
                   Some(ImageThumbOr(t.primary_image, ""))))
    case "Activity" => Success(Info(" your post.", "/post/" + t.id, Some("")))
    case "OwnersClub" =>
      Success(Info(" your " + Show(t.name) + " forum.", "/owners_club/" + t.id, Some(ImageThumbOr(t.primary_image, ""))))
    case "Post" => Failure(StriptagsUndefined)
    case "V2_Thread" => Success(Info(" your forum post.", "/forum/thread/" + t.id + "/reply/" + kept[0].action_id, Some("")))
    case _ =>
      if t.root_type == Some("BuildGuide") then Success(Info("", BuildGuideUrl, Some("")))
      else if n.target_type == "V2_Comment" then
        var url := CommentRootUrl(n, kept[0], t);
        if url.Failure? then Failure(url.error) else Success(Info(" your comment.", url.value, Some("")))
      else if n.target_type == "User" then Success(UserInfo(n, kept, ao))
      else Success(Info("", "", Some("")))
  }

  // ---------------------------------------------------------------- copy test

  /** The tag every rendered notification starts with. */
  function FirstTag(action: string, target_type: string): string {
    action + "-" + target_type
  }

  /**
   * The subject-line variants of the copy test for an (action, target type)
   * pair; empty when the pair is not under test.
   */
  function Candidates(action: string, target_type: string, tag0: string, text: string, target_text: string,
                      target_make: Option<string>, target_model: Option<string>): (cs: seq<Candidate>)
    ensures |cs| <= 2
    ensures cs != [] <==> action in {"FOLLOW", "LIKE"} && target_type in {"User", "Vehicle"}
                          && !(action == "LIKE" && target_type == "User")
  {
    if action == "FOLLOW" && target_type == "User" then
      [Candidate("Your Garage is popular", "Exp-" + tag0 + "-17-4-13-popular")]
    else if action == "FOLLOW" && target_type == "Vehicle" then
      [Candidate("Lucky you! You have a new follower for" + target_text, "Exp-" + tag0 + "-17-4-13-lucky-you"),
       Candidate(text, "Exp-" + tag0 + "-17-4-13-original")]
    else if action == "LIKE" && target_type == "Vehicle" then
      [Candidate("Your " + Show(target_make) + " " + Show(target_model) + " is popular! " + "" + " just liked your ride",
                 "Exp-" + tag0 + "-17-4-13-popular")]
    else []
  }

  /** The one-line subject and tags, given the chosen variant index. */
  function Subject(cs: seq<Candidate>, text: string, pick: nat): (st: (string, seq<string>))
    ensures cs == [] ==> st == (text, [])
    ensures cs != [] ==> |st.1| == 1 && Candidate(st.0, st.1[0]) in cs
  {
    if cs == [] then (text, [])
    else
      var c := cs[pick % |cs|];
      (c.text, [c.tag])
  }

  // ---------------------------------------------------------------- one notification

  /**
   * Renders one notification; `pick` is the random draw of the copy test
   * (only its value modulo the number of variants matters).
   */
  function Render(n: Notification, pick: nat): (o: Outcome)
    ensures o.Dropped? <==>
              n.target.None? || n.action_object.None? || (n.target_type != "" && WithActor(n.actions) == [])
    ensures o.Untouched? <==> n.target.Some? && n.action_object.Some? && n.target_type == ""
    ensures o.Untouched? ==> o.n == n
    ensures o.Done? ==> o.r.actions == WithActor(n.actions) && HasActors(o.r)
  {
    if n.target.None? || n.action_object.None? then Dropped
    else if n.target_type == "" then Untouched(n)
    else
      var kept := WithActor(n.actions);
      if kept == [] then Dropped
      else
        var t := n.target.value;
        var ao := n.action_object.value;
        var tag0 := FirstTag(n.action, n.target_type);
        var actorText := ActorText(kept);
        var actionText := ActionText(n.action_type);
        if actionText.Failure? then Threw(actionText.error)
        else
          var info := TargetSection(n, kept, t, ao);
          if info.Failure? then Threw(info.error)
          else
            var ti := info.value;
            var text := actorText + actionText.value + ti.text;
            if n.action == "FOLLOW" && n.target_type == "Vehicle" && n.owner.None? then Threw(OwnerIsNull)
            else
              var cs := Candidates(n.action, n.target_type, tag0, text, ti.text, ti.make, ti.model);
              var st := Subject(cs, text, pick);
              var targetPhoto :=
                if n.action == "FOLLOW" && n.target_type == "User" then Some(ImageThumbOr(t.primary_image, NoPhoto))
                else ti.photo;
              var ownerPhoto := if n.action == "FOLLOW" && n.target_type == "Vehicle" then OwnerPhoto(n.owner.value) else "";
              var slug :=
                if n.action == "FOLLOW" && n.target_type == "Vehicle" then ("someone-followed-your-build", "Someone Followed Your Build")
                else if n.action == "LIKE" && n.target_type == "Vehicle" then ("someone-liked-your-vehicle", "Someone Liked Your Vehicle")
                else (ti.template_slug, ti.template_name);
              Done(Rendered(n.owner, n.action, n.action_type, n.target_type, kept, t, ao,
                            [tag0] + st.1, ti.sends, ti.sends, st.0, text,
                            actorText, actionText.value, ti.text, ActorPhoto(kept), targetPhoto, ti.url,
                            ownerPhoto, slug.0, slug.1, ti.make, ti.model))
  }

  /** The conditions under which rendering throws, for a notification it neither drops nor leaves untouched. */
  lemma RenderThrows(n: Notification, pick: nat)
    requires n.target.Some? && n.action_object.Some? && n.target_type != "" && WithActor(n.actions) != []
    ensures Render(n, pick).Threw? <==>
              n.action_type == "V2_Comment" || n.action_type == "Connection" || n.target_type == "Post"
              || (n.owner.None? &&
                    ((n.target_type == "Vehicle" && (n.action == "FOLLOW" || n.action !in {"VEHICLE_ADD", "PHOTO_POST", "PART_ADD"}))
                     || (n.target_type == "V2_Comment" && n.target.value.root_type == Some("Vehicle"))))
  {
  }

  /** Both mail flags agree, and are set exactly for a Vehicle target under an action other than the three add actions. */
  lemma RenderSendFlags(n: Notification, pick: nat)
    requires Render(n, pick).Done?
    ensures Render(n, pick).r.send_email == Render(n, pick).r.send_apn
    ensures Render(n, pick).r.send_email <==>
              n.target_type == "Vehicle" && n.action !in {"VEHICLE_ADD", "PHOTO_POST", "PART_ADD"}
  {
  }

  /**
   * Tags and subject: the first tag is `action-target_type`; a pair under
   * copy test gets the subject of one variant and exactly that variant's tag;
   * any other pair keeps one tag and uses the full text as subject.
   */
  lemma RenderTagsAndSubject(n: Notification, pick: nat)
    requires Render(n, pick).Done?
    ensures var r := Render(n, pick).r;
      var cs := Candidates(r.action, r.target_type, r.tags[0], r.text, r.target_text, r.target_make, r.target_model);
      && r.tags[0] == n.action + "-" + n.target_type
      && (cs == [] ==> r.tags == [r.tags[0]] && r.subject == r.text)
      && (cs != [] ==> |r.tags| == 2 && Candidate(r.subject, r.tags[1]) in cs)
  {
    var r := Render(n, pick).r;
    var cs := RenderedSubject(n, pick);
    assert r.tags[0] == FirstTag(n.action, n.target_type);
  }

  /** The tags and subject of a rendered notification are its first tag followed by the subject drawn from its candidates. */
  lemma RenderedSubject(n: Notification, pick: nat) returns (cs: seq<Candidate>)
    requires Render(n, pick).Done?
    ensures var r := Render(n, pick).r;
      && cs == Candidates(r.action, r.target_type, FirstTag(n.action, n.target_type), r.text, r.target_text, r.target_make, r.target_model)
      && r.tags == [FirstTag(n.action, n.target_type)] + Subject(cs, r.text, pick).1
      && r.subject == Subject(cs, r.text, pick).0
  {
    var r := Render(n, pick).r;
    var kept := WithActor(n.actions);
    var actionText := ActionText(n.action_type);
    var info := TargetSection(n, kept, n.target.value, n.action_object.value);
    assert actionText.Success? && info.Success?;
    var text := ActorText(kept) + actionText.value + info.value.text;
    cs := Candidates(n.action, n.target_type, FirstTag(n.action, n.target_type), text,
                     info.value.text, info.value.make, info.value.model);
    assert r.text == text && r.action == n.action && r.target_type == n.target_type;
    assert r.target_text == info.value.text && r.target_make == info.value.make && r.target_model == info.value.model;
  }

  /** The target section a rendered notification came from. */
  lemma RenderedFromTarget(n: Notification, pick: nat)
    requires Render(n, pick).Done?
    ensures var r := Render(n, pick).r;
      var info := TargetSection(n, r.actions, r.target, r.action_object);
      && r.actions == WithActor(n.actions) && r.target == n.target.value && r.action_object == n.action_object.value
      && info.Success?
      && r.target_text == info.value.text && r.target_url == info.value.url
      && r.target_make == info.value.make && r.target_model == info.value.model
      && (!(n.action == "FOLLOW" && n.target_type == "User") ==> r.target_photo == info.value.photo)
  {
  }

  /** A rendered Vehicle notification carries the Vehicle branch of the target section, with the vehicle's make and model. */
  lemma RenderVehicleTarget(n: Notification, pick: nat)
    requires Render(n, pick).Done? && n.target_type == "Vehicle"
    ensures var r := Render(n, pick).r;
      var info := VehicleInfo(n, r.actions[0].actor.value, r.target, r.action_object);
      && info.Success?
      && r.target_text == info.value.text && r.target_url == info.value.url && r.target_photo == info.value.photo
      && r.target_make == r.target.make && r.target_model == r.target.model
  {
    RenderedFromTarget(n, pick);
    var r := Render(n, pick).r;
    assert TargetSection(n, r.actions, r.target, r.action_object)
        == VehicleInfo(n, r.actions[0].actor.value, r.target, r.action_object);
  }

  /**
   * The Vehicle branch by action: the three add actions link under the
   * actor's profile, any other action under the owner's and reads
   * "your <year> <model>"; the vehicle photo is shown for VEHICLE_ADD and
   * the other actions, none for PART_ADD.
   */
  lemma VehicleInfoByAction(n: Notification, actor: Profile, t: Target, ao: ActionObject)
    requires VehicleInfo(n, actor, t, ao).Success?
    ensures var i := VehicleInfo(n, actor, t, ao).value;
      && (n.action in {"VEHICLE_ADD", "PHOTO_POST", "PART_ADD"} ==> VehiclePath(actor, t) <= i.url)
      && (n.action == "VEHICLE_ADD" ==> i.text == " " + YearMakeModel(t) + "." && i.photo == Some(VehiclePhoto(t)))
      && (n.action == "PART_ADD" ==> i.photo == Some("") && YearMakeModel(t) + "." <= i.text[|i.text| - |YearMakeModel(t) + "."|..])
      && (n.action !in {"VEHICLE_ADD", "PHOTO_POST", "PART_ADD"} ==>
            i.url == VehiclePath(n.owner.value, t) && i.photo == Some(VehiclePhoto(t))
            && i.text == " your " + Show(t.year) + " " + Show(t.model) + ".")
  {
  }

  // ---------------------------------------------------------------- the batch

  /** What survives of the batch: rendered notifications and untouched ones. */
  datatype Item = RenderedItem(r: Rendered) | UntouchedItem(n: Notification)

  function ItemOf(o: Outcome): Item
    requires o.Done? || o.Untouched?
  {
    if o.Done? then RenderedItem(o.r) else UntouchedItem(o.n)
  }

  /** The `map` step: every notification rendered with its own draw. */
  function Outcomes(ns: seq<Notification>, picks: seq<nat>): (os: seq<Outcome>)
    requires |picks| == |ns|
    ensures |os| == |ns| && forall i :: 0 <= i < |ns| ==> os[i] == Render(ns[i], picks[i])
  {
    seq(|ns|, i requires 0 <= i < |ns| => Render(ns[i], picks[i]))
  }

  /** The `filter` step on outcomes none of which threw: the surviving items, in batch order. */
  function Kept(os: seq<Outcome>): seq<Item>
    requires forall i :: 0 <= i < |os| ==> !os[i].Threw?
  {
    if os == [] then []
    else if os[0].Dropped? then Kept(os[1..])
    else [ItemOf(os[0])] + Kept(os[1..])
  }

  /**
   * The whole batch: renders each notification with its own draw, fails when
   * one throws, and filters out the dropped ones.
   */
  function GenerateDetails(ns: seq<Notification>, picks: seq<nat>): (r: Result<seq<Item>, Throw>)
    requires |picks| == |ns|
    ensures r.Failure? <==> exists i :: 0 <= i < |ns| && Render(ns[i], picks[i]).Threw?
    ensures r.Success? ==> r.value == Kept(Outcomes(ns, picks))
    ensures r.Success? ==> |r.value| <= |ns|
    ensures r.Success? ==> forall i :: 0 <= i < |ns| && !Render(ns[i], picks[i]).Dropped? ==>
              ItemOf(Render(ns[i], picks[i])) in r.value
    ensures r.Success? ==> forall item :: item in r.value ==>
              exists i :: 0 <= i < |ns| && !Render(ns[i], picks[i]).Dropped? && item == ItemOf(Render(ns[i], picks[i]))
    decreases |ns|
  {
    if ns == [] then Success([])
    else
      var o := Render(ns[0], picks[0]);
      var rest := GenerateDetails(ns[1..], picks[1..]);
      assert Outcomes(ns, picks)[1..] == Outcomes(ns[1..], picks[1..]);
      if o.Threw? then Failure(o.reason)
      else if rest.Failure? then rest
      else if o.Dropped? then rest
      else Success([ItemOf(o)] + rest.value)
  }

  /** A batch none of whose notifications is left untouched yields only rendered items with actors. */
  lemma {:induction false} DetailsAllRendered(ns: seq<Notification>, picks: seq<nat>)
    requires |picks| == |ns|
    requires forall i :: 0 <= i < |ns| ==> !Render(ns[i], picks[i]).Untouched?
    ensures var r := GenerateDetails(ns, picks);
      r.Success? ==> forall item :: item in r.value ==> item.RenderedItem? && HasActors(item.r)
  {
    if ns != [] {
      DetailsAllRendered(ns[1..], picks[1..]);
    }
  }
}
