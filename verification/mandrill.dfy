/**
 * The shared Mandrill helpers of worker/common/mandrill-utility/mandrill-utility.js:
 * the `user_info` merge variable built from a user document, and the
 * validation and message/template construction done before a template
 * send. The send itself is the transport's answer, an input.
 */
module Mandrill {
  import opened Wrappers
  import opened Js
  import opened UserData

  /** `config.env`: only `production` selects the production site. */
  datatype Env = Production | Other

  function SiteUrl(env: Env): (url: string)
    ensures env.Production? ==> url == "https://www.wheelwell.com"
    ensures env.Other? ==> url == "https://staging.wheelwell.com"
  {
    if env.Production? then "https://www.wheelwell.com" else "https://staging.wheelwell.com"
  }

  const SenderEmail: string := "info@wheelwell.com"
  const SenderName: string := "Wheelwell"
  const TrackingDomain: string := "mandrill.wheelwell.com"
  const SigningDomain: string := "wheelwell.com"
  const DefaultCampaign: string := "transactional-email"
  const AnalyticsDomains: seq<string> := ["wheelwell.com", "www.wheelwell.com"]

  /** The `user_info` object: `{}` for a missing user, the populated record otherwise. */
  datatype UserInfo =
    | NoUserInfo
    | UserInfo(
        account_url: string,
        alias_name: string,
        email: Option<string>,
        first_name: Option<string>,
        last_name: Option<string>,
        mod_score: Option<int>,
        name: Option<string>,
        profile_name: Option<string>,
        url: string)

  /**
   * `user.local.username || (user.facebook ? user.facebook.email : '')`.
   * The schema's default for `local.verified` makes `local` always present,
   * so `local == None` reads as a sub-document without a username.
   */
  function InfoEmail(u: User): (e: Option<string>)
    ensures u.local.Some? && Truthy(u.local.value.username) ==> e == u.local.value.username
    ensures !(u.local.Some? && Truthy(u.local.value.username)) && u.facebook.Some? ==> e == u.facebook.value.email
    ensures !(u.local.Some? && Truthy(u.local.value.username)) && u.facebook.None? ==> e == Some("")
    ensures Truthy(e) ==> e == (if u.local.Some? && Truthy(u.local.value.username) then u.local.value.username else u.facebook.value.email)
  {
    var username := if u.local.Some? then u.local.value.username else None;
    Or(username, if u.facebook.Some? then u.facebook.value.email else Some(""))
  }

  /** `populateUserInfo` */
  function PopulateUserInfo(env: Env, user: Option<User>): (info: UserInfo)
    ensures user.None? <==> info.NoUserInfo?
    ensures info.UserInfo? ==> info.account_url == SiteUrl(env) + "/profile/" + user.value.id + "/account"
    ensures info.UserInfo? ==> info.url == SiteUrl(env) + "/" + Show(user.value.profile_name)
    ensures info.UserInfo? ==> info.email == InfoEmail(user.value)
    ensures info.UserInfo? ==> (info.alias_name == "" <==> !Truthy(user.value.alias_name))
    ensures info.UserInfo? && Truthy(user.value.alias_name) ==> info.alias_name == user.value.alias_name.value
    ensures info.UserInfo? ==> info.first_name == user.value.first_name && info.last_name == user.value.last_name
    ensures info.UserInfo? ==> info.mod_score == user.value.mod_score
    ensures info.UserInfo? ==> info.name == user.value.name && info.profile_name == user.value.profile_name
  {
    if user.None? then NoUserInfo
    else
      var u := user.value;
      UserInfo(
        SiteUrl(env) + "/profile/" + u.id + "/account",
        if Truthy(u.alias_name) then u.alias_name.value else "",
        InfoEmail(u),
        u.first_name, u.last_name, u.mod_score, u.name, u.profile_name,
        SiteUrl(env) + "/" + Show(u.profile_name))
  }

  /** One global merge variable as the drips pass it. */
  datatype MergeVar = MergeVar(name: string, content: UserInfo)

  /** The `email_data` argument; absent fields are `None`. */
  datatype EmailData = EmailData(
    to: Option<string>,
    template_slug: Option<string>,
    template_name: Option<string>,
    subject: Option<string>,
    tags: Option<seq<string>>,
    ga_campaign: Option<string>,
    global_merge_vars: Option<seq<MergeVar>>,
    send_at: Option<string>)

  /** The `message` object; the fixed flags (tracking, inline CSS, handlebars merging) are implied. */
  datatype Message = Message(
    from_email: string,
    from_name: string,
    to_email: string,
    reply_to: string,
    tracking_domain: string,
    signing_domain: string,
    global_merge_vars: seq<MergeVar>,
    analytics_domains: seq<string>,
    subject: Option<string>,
    tags: seq<string>,
    ga_campaign: string)

  /** The `template` argument of `sendTemplate`. */
  datatype Template = Template(
    template_slug: string,
    template_name: Option<string>,
    message: Message,
    send_at: Option<string>)

  /** Validation and construction in `sendMandrillEmail`; a `Failure` is the rejection reason. */
  function BuildTemplate(d: EmailData): (r: Result<Template, string>)
    ensures !Truthy(d.to) ==> r == Failure("No email")
    ensures Truthy(d.to) && !Truthy(d.template_slug) ==> r == Failure("Missing Template Slug")
    ensures r.Success? <==> Truthy(d.to) && Truthy(d.template_slug)
    ensures r.Success? ==> var m := r.value.message;
      && m.to_email == d.to.value && r.value.template_slug == d.template_slug.value
      && r.value.template_name == d.template_name
      && m.from_email == SenderEmail && m.reply_to == SenderEmail
      && (m.subject.Some? <==> Truthy(d.subject)) && (m.subject.Some? ==> m.subject == d.subject)
      && (r.value.send_at.Some? <==> Truthy(d.send_at)) && (r.value.send_at.Some? ==> r.value.send_at == d.send_at)
      && m.tags == (if d.tags.Some? then d.tags.value else [])
      && m.global_merge_vars == (if d.global_merge_vars.Some? then d.global_merge_vars.value else [])
      && m.ga_campaign == (if Truthy(d.ga_campaign) then d.ga_campaign.value else DefaultCampaign)
  {
    if !Truthy(d.to) then Failure("No email")
    else if !Truthy(d.template_slug) then Failure("Missing Template Slug")
    else
      var message := Message(
        SenderEmail, SenderName, d.to.value, SenderEmail, TrackingDomain, SigningDomain,
        if d.global_merge_vars.Some? then d.global_merge_vars.value else [],
        AnalyticsDomains,
        if Truthy(d.subject) then d.subject else None,
        if d.tags.Some? then d.tags.value else [],
        if Truthy(d.ga_campaign) then d.ga_campaign.value else DefaultCampaign);
      Success(Template(d.template_slug.value, d.template_name, message,
                       if Truthy(d.send_at) then d.send_at else None))
  }

  /** What the transport's callback reports. */
  datatype Transport = Accepted | TransportError

  /**
   * How the promise of a template send settles: with Mandrill's answer,
   * with the `EMAIL_ERROR` object after a transport error, or rejected.
   */
  datatype SendOutcome = Delivered | EmailError | Rejected(reason: string)

  /** The resolved value after a transport error. */
  const EmailErrorMessage: string := "Error sending email."
  const EmailErrorKey: string := "EMAIL_ERROR"
  const EmailErrorCode: int := 500

  /** `sendMandrillEmail` */
  function SendMandrillEmail(d: EmailData, transport: Transport): (o: SendOutcome)
    ensures o.Rejected? <==> BuildTemplate(d).Failure?
    ensures o.Rejected? ==> o.reason == BuildTemplate(d).error
    ensures o.EmailError? <==> BuildTemplate(d).Success? && transport.TransportError?
  {
    match BuildTemplate(d)
    case Failure(reason) => Rejected(reason)
    case Success(_) => if transport.Accepted? then Delivered else EmailError
  }

  /** A valid send never rejects, whatever the transport does; only a missing recipient or slug does. */
  lemma TransportNeverRejects(d: EmailData, transport: Transport)
    requires Truthy(d.to) && Truthy(d.template_slug)
    ensures !SendMandrillEmail(d, transport).Rejected?
  {
  }
}
