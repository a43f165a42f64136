/**
 * The shapes of a notification as the weekly-digest renderer sees it, after
 * the actor population and the target / action-object lookups of
 * `findNotifications` (worker/cron-jobs/weekly-digest/weekly-digest-utility.js).
 * Every field a document may lack is an `Option`; `None` is JavaScript's
 * `undefined`/`null`.
 */
module NotificationData {
  import opened Wrappers
  import opened ImageModel
  import opened StockVehicleModel
  import opened UserData

  /** A populated user (owner or actor), reduced to the fields the renderer reads. */
  datatype Profile = Profile(
    id: string,
    first_name: Option<string>,
    last_name: Option<string>,
    profile_name: Option<string>,
    primary_image: Option<Image>,
    facebook: Option<Facebook>)

  /**
   * An actor that was not populated (only the first two are): a bare id, on
   * which every field reads as `undefined`.
   */
  function BareProfile(id: string): (p: Profile)
    ensures p.id == id && p.first_name.None? && p.last_name.None? && p.profile_name.None?
    ensures p.primary_image.None? && p.facebook.None?
  {
    Profile(id, None, None, None, None, None)
  }

  /** One entry of `actions` after population; `actor` is `None` when the user was not found. */
  datatype Action = Action(action_id: string, actor: Option<Profile>)

  /**
   * The target document, reduced to the fields `findNotifications` selects.
   * `thumb` is the Image virtual when the target is an Image; `stock` is the
   * populated stock vehicle. Activity and V2_Thread targets are stubs holding
   * only the id.
   */
  datatype Target = Target(
    id: string,
    primary_image: Option<Image>,
    year: Option<string>,
    make: Option<string>,
    model: Option<string>,
    brand: Option<string>,
    name: Option<string>,
    title: Option<string>,
    slug: Option<string>,
    vehicle_url_id: Option<string>,
    root_type: Option<string>,
    root_id: Option<string>,
    owner: Option<string>,
    vehicle: Option<string>,
    owners: seq<string>,
    thumb: Option<string>,
    stock: Option<StockVehicle>)

  /** The stub `{_id}` used for Activity and V2_Thread targets. */
  function StubTarget(id: string): (t: Target)
    ensures t.id == id && t.primary_image.None? && t.root_type.None? && t.owners == [] && t.stock.None?
  {
    Target(id, None, None, None, None, None, None, None, None, None, None, None, None, None, [], None, None)
  }

  /**
   * The action document (a post, image, part, vehicle, …), reduced to the
   * fields read. `created` is its creation date already formatted for the
   * locale. It is fetched without population, so a post's `photos` are bare
   * ids.
   */
  datatype ActionObject = ActionObject(
    id: string,
    year: Option<string>,
    make: Option<string>,
    model: Option<string>,
    brand: Option<string>,
    name: Option<string>,
    part_url_id: Option<string>,
    slug: Option<string>,
    title: Option<string>,
    preview_text: Option<string>,
    thumb: Option<string>,
    medium: Option<string>,
    created: string)

  /** A notification ready to be rendered. */
  datatype Notification = Notification(
    owner: Option<Profile>,
    action: string,
    action_type: string,
    target_type: string,
    actions: seq<Action>,
    target: Option<Target>,
    action_object: Option<ActionObject>)
}
