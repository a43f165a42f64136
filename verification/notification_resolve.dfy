/**
 * The resolution half of `findNotifications`
 * (worker/cron-jobs/weekly-digest/weekly-digest-utility.js): the query
 * limit, actor de-duplication, population of the owner and of the first two
 * actors, the target and action-object lookups, and the hand-off to the
 * renderer. The database is a `Store` of lookup functions.
 */
module NotificationResolve {
  import opened Wrappers
  import opened Js
  import opened StockVehicleModel
  import opened NotificationData
  import opened ActorDedup
  import opened NotificationRender

  /** A notification document as stored: references are ids. */
  datatype RawNotification = RawNotification(
    owner_id: string,
    action: string,
    action_type: string,
    target_type: string,
    target_id: string,
    actions: seq<ActionEntry>)

  /**
   * The collections, as lookups by id: users, and any other document by its
   * model name and id (the target as selected, the action document whole).
   */
  datatype Store = Store(
    users: string -> Option<Profile>,
    targets: (string, string) -> Option<Target>,
    objects: (string, string) -> Option<ActionObject>)

  /** `limit || 99`. */
  function EffectiveLimit(limit: nat): (n: nat)
    ensures n > 0
    ensures limit > 0 ==> n == limit
    ensures limit == 0 ==> n == 99
  {
    if limit == 0 then 99 else limit
  }

  /** The query excludes BuildGuide targets and keeps the first `limit || 99` of the rest, in the store's sort order. */
  function Query(raws: seq<RawNotification>, limit: nat): (r: seq<RawNotification>)
    ensures var kept := NotBuildGuide(raws);
      |r| == (if |kept| <= EffectiveLimit(limit) then |kept| else EffectiveLimit(limit)) && r == kept[..|r|]
    ensures forall x :: x in r ==> x in raws && x.target_type != "BuildGuide"
  {
    var kept := NotBuildGuide(raws);
    if |kept| <= EffectiveLimit(limit) then kept else kept[..EffectiveLimit(limit)]
  }

  function NotBuildGuide(raws: seq<RawNotification>): (r: seq<RawNotification>)
    ensures forall x :: x in r <==> x in raws && x.target_type != "BuildGuide"
  {
    if raws == [] then []
    else if raws[0].target_type != "BuildGuide" then [raws[0]] + NotBuildGuide(raws[1..])
    else NotBuildGuide(raws[1..])
  }

  /** The filter keeps the store's order: filtering a concatenation concatenates the filtered parts. */
  lemma {:induction false} NotBuildGuideAppend(a: seq<RawNotification>, b: seq<RawNotification>)
    ensures NotBuildGuide(a + b) == NotBuildGuide(a) + NotBuildGuide(b)
    decreases |a|
  {
    if a != [] {
      assert (a + b)[0] == a[0] && (a + b)[1..] == a[1..] + b;
      NotBuildGuideAppend(a[1..], b);
    } else {
      assert a + b == b;
    }
  }

  /**
   * Population of `actions`: the first two actors are looked up (and become
   * `None` when the user is gone); the others stay bare ids.
   */
  function PopulateActors(entries: seq<ActionEntry>, from: nat, users: string -> Option<Profile>): (r: seq<Action>)
    ensures |r| == |entries|
    ensures forall k :: 0 <= k < |r| ==> r[k].action_id == entries[k].action_id
    ensures forall k :: 0 <= k < |r| && from + k < 2 ==> r[k].actor == users(entries[k].actor)
    ensures forall k :: 0 <= k < |r| && from + k >= 2 ==> r[k].actor == Some(BareProfile(entries[k].actor))
    decreases |entries|
  {
    if entries == [] then []
    else
      var e := entries[0];
      var actor := if from < 2 then users(e.actor) else Some(BareProfile(e.actor));
      [Action(e.action_id, actor)] + PopulateActors(entries[1..], from + 1, users)
  }

  /**
   * The stock vehicle as populated for a target: the selection names only
   * `default_image.thumb_key` (and the `thumb` virtual), so the large and
   * medium keys are not loaded.
   */
  function SelectStockAsWritten(sv: StockVehicle): (r: StockVehicle)
    ensures r.default_image.thumb_key == sv.default_image.thumb_key
    ensures r.default_image.medium_key.None? && r.default_image.large_key.None?
  {
    sv.(default_image := DefaultImage(None, None, sv.default_image.thumb_key))
  }

  /** The selection the renderer needs: the medium key as well, which the vehicle photo reads. */
  function SelectStock(sv: StockVehicle): (r: StockVehicle)
    ensures r.default_image.thumb_key == sv.default_image.thumb_key
    ensures r.default_image.medium_key == sv.default_image.medium_key
    ensures DefaultMedium(r) == DefaultMedium(sv)
  {
    sv.(default_image := DefaultImage(None, sv.default_image.medium_key, sv.default_image.thumb_key))
  }

  function WithStock(t: Option<Target>, select: StockVehicle -> StockVehicle): (r: Option<Target>)
    ensures r.None? <==> t.None?
    ensures r.Some? ==> r.value.id == t.value.id && r.value.primary_image == t.value.primary_image
    ensures r.Some? ==> (r.value.stock.Some? <==> t.value.stock.Some?)
    ensures r.Some? && r.value.stock.Some? ==> r.value.stock.value == select(t.value.stock.value)
  {
    if t.None? || t.value.stock.None? then t
    else Some(t.value.(stock := Some(select(t.value.stock.value))))
  }

  /**
   * The target: none without a target type, a stub `{_id}` for Activity and
   * V2_Thread, otherwise the stored document.
   */
  function ResolveTarget(raw: RawNotification, store: Store, select: StockVehicle -> StockVehicle): (t: Option<Target>)
    ensures raw.target_type == "" ==> t.None?
    ensures raw.target_type in {"Activity", "V2_Thread"} ==> t == Some(StubTarget(raw.target_id))
    ensures raw.target_type !in {"", "Activity", "V2_Thread"} ==> t == WithStock(store.targets(raw.target_type, raw.target_id), select)
  {
    if raw.target_type == "" then None
    else if raw.target_type in {"Activity", "V2_Thread"} then Some(StubTarget(raw.target_id))
    else WithStock(store.targets(raw.target_type, raw.target_id), select)
  }

  /**
   * One notification after de-duplication, population and lookups, with the
   * stock vehicle selected by `select`. The action object is looked up from
   * the newest action, which de-duplication always keeps last.
   */
  function ResolveWith(raw: RawNotification, store: Store, select: StockVehicle -> StockVehicle): (n: Notification)
    ensures n.owner == store.users(raw.owner_id)
    ensures n.action == raw.action && n.action_type == raw.action_type && n.target_type == raw.target_type
    ensures |n.actions| == |KeepLast(raw.actions)|
    ensures forall k :: 0 <= k < |n.actions| ==> n.actions[k].action_id == KeepLast(raw.actions)[k].action_id
    ensures forall k :: 0 <= k < |n.actions| && k < 2 ==> n.actions[k].actor == store.users(KeepLast(raw.actions)[k].actor)
    ensures n.target == ResolveTarget(raw, store, select)
    ensures n.action_object == if raw.actions == [] then None else store.objects(raw.action_type, raw.actions[|raw.actions| - 1].action_id)
  {
    var kept := KeepLast(raw.actions);
    var actionObject :=
      if raw.actions == [] then None
      else (KeepLastEndsWithLast(raw.actions); store.objects(raw.action_type, kept[|kept| - 1].action_id));
    Notification(store.users(raw.owner_id), raw.action, raw.action_type, raw.target_type,
                 PopulateActors(kept, 0, store.users), ResolveTarget(raw, store, select), actionObject)
  }

  /** The resolution as written: the stock vehicle is populated with line 273's selection. */
  function Resolve(raw: RawNotification, store: Store): (n: Notification)
    ensures n.target == ResolveTarget(raw, store, SelectStockAsWritten)
    ensures n.target.Some? && n.target.value.stock.Some? ==> DefaultMedium(n.target.value.stock.value).None?
  {
    ResolveWith(raw, store, SelectStockAsWritten)
  }

  /** The resolution with the corrected selection, which loads the medium key the vehicle photo reads. */
  function ResolveCorrected(raw: RawNotification, store: Store): (n: Notification)
    ensures n.target == ResolveTarget(raw, store, SelectStock)
  {
    ResolveWith(raw, store, SelectStock)
  }

  /** A resolved notification is never passed through untouched: without a target type it has no target and is dropped. */
  lemma ResolvedNeverUntouched(raw: RawNotification, store: Store, pick: nat)
    ensures !Render(Resolve(raw, store), pick).Untouched?
    ensures raw.target_type == "" ==> Render(Resolve(raw, store), pick).Dropped?
  {
  }

  /** At most two actors carry a name or a photo: the others were never populated. */
  lemma OnlyTwoActorsPopulated(raw: RawNotification, store: Store)
    ensures forall k :: 2 <= k < |Resolve(raw, store).actions| ==>
              Resolve(raw, store).actions[k].actor.Some?
              && Resolve(raw, store).actions[k].actor.value.first_name.None?
              && Resolve(raw, store).actions[k].actor.value.primary_image.None?
  {
  }

  /**
   * As written, the stock-vehicle fallback of the vehicle photo never fires:
   * a resolved Vehicle target without a primary image always shows the
   * placeholder, whatever its stock vehicle's default image is.
   */
  lemma StockFallbackUnusedAsWritten(raw: RawNotification, store: Store)
    requires raw.target_type == "Vehicle"
    requires Resolve(raw, store).target.Some?
    requires Resolve(raw, store).target.value.primary_image.None?
    ensures VehiclePhoto(Resolve(raw, store).target.value) == VehiclePlaceholder
  {
  }

  /** A concrete case: a stock vehicle with a medium key still yields the placeholder as written. */
  lemma StockFallbackCounterexample(t: Target, sv: StockVehicle, store: Store)
    requires t.primary_image.None? && t.stock == Some(sv) && sv.default_image.medium_key == Some("m.jpg")
    requires store.targets("Vehicle", t.id) == Some(t)
    ensures var raw := RawNotification("o", "VEHICLE_ADD", "Vehicle", "Vehicle", t.id, []);
      VehiclePhoto(ResolveTarget(raw, store, SelectStockAsWritten).value) == VehiclePlaceholder
      && VehiclePhoto(ResolveTarget(raw, store, SelectStock).value) == S3 + "m.jpg"
  {
  }

  /**
   * With the medium key selected, a resolved Vehicle target without a
   * primary image shows its stock vehicle's default medium photo whenever
   * that key is set.
   */
  lemma StockFallbackUsed(raw: RawNotification, store: Store)
    requires raw.target_type == "Vehicle"
    requires store.targets(raw.target_type, raw.target_id).Some?
    requires var t := store.targets(raw.target_type, raw.target_id).value;
      t.primary_image.None? && t.stock.Some? && Truthy(t.stock.value.default_image.medium_key)
    ensures var t := store.targets(raw.target_type, raw.target_id).value;
      VehiclePhoto(ResolveCorrected(raw, store).target.value) == S3 + t.stock.value.default_image.medium_key.value
  {
  }

  /** Each queried notification resolved, in query order. */
  function ResolveAll(found: seq<RawNotification>, store: Store): (ns: seq<Notification>)
    ensures |ns| == |found| && forall i :: 0 <= i < |found| ==> ns[i] == Resolve(found[i], store)
  {
    seq(|found|, i requires 0 <= i < |found| => Resolve(found[i], store))
  }

  /**
   * `findNotifications`: query, resolve each notification as written, render
   * the batch with one draw each and keep the survivors in query order.
   */
  function FindNotifications(raws: seq<RawNotification>, limit: nat, store: Store, picks: seq<nat>): (r: Result<seq<Item>, Throw>)
    requires |picks| == |Query(raws, limit)|
    ensures var ns := ResolveAll(Query(raws, limit), store);
      && (r.Failure? <==> exists i :: 0 <= i < |ns| && Render(ns[i], picks[i]).Threw?)
      && (r.Success? ==> r.value == Kept(Outcomes(ns, picks)))
    ensures r.Success? ==> |r.value| <= EffectiveLimit(limit)
    ensures r.Success? ==> forall item :: item in r.value ==> item.RenderedItem? && HasActors(item.r)
  {
    var found := Query(raws, limit);
    ResolvedAllTouched(found, store, picks);
    DetailsAllRendered(ResolveAll(found, store), picks);
    GenerateDetails(ResolveAll(found, store), picks)
  }

  /** No notification of a resolved batch is passed through untouched. */
  lemma ResolvedAllTouched(found: seq<RawNotification>, store: Store, picks: seq<nat>)
    requires |picks| == |found|
    ensures forall i :: 0 <= i < |found| ==> !Render(ResolveAll(found, store)[i], picks[i]).Untouched?
  {
    forall i | 0 <= i < |found|
      ensures !Render(ResolveAll(found, store)[i], picks[i]).Untouched?
    {
      ResolvedNeverUntouched(found[i], store, picks[i]);
    }
  }
}
