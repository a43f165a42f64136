/**
 * The argument checking and request construction of
 * worker/common/autoengagement-utility/autoengagement-utility.js: the
 * follow/like request `createConnection` posts, the match query and
 * projection of `getRandomVehicles`, and the dead-user cache filled by
 * `getDeadUsers`. The HTTP client, the database and the random sample are
 * inputs.
 */
module AutoEngagement {
  import opened Wrappers
  import opened Js

  datatype Env = Production | Other

  function ApiBase(env: Env): (url: string)
    ensures env.Production? ==> url == "https://api.wheelwell.com"
    ensures env.Other? ==> url == "https://api-dev.wheelwell.com"
  {
    if env.Production? then "https://api.wheelwell.com" else "https://api-dev.wheelwell.com"
  }

  // ---------------------------------------------------------------- createConnection

  /**
   * `toLowerCase` on one character, exact for ASCII and for the Kelvin sign,
   * the one non-ASCII character whose lower case is an ASCII letter; other
   * characters are kept, which cannot make a string equal to a connection type.
   */
  function LowerChar(c: char): (l: char)
    ensures 'A' <= c <= 'Z' ==> l as int == c as int + 32
    ensures c == '\U{212A}' ==> l == 'k'
  {
    if 'A' <= c <= 'Z' then (c as int + 32) as char
    else if c == '\U{212A}' then 'k'
    else c
  }

  function Lower(s: string): (r: string)
    ensures |r| == |s|
    ensures forall i :: 0 <= i < |s| ==> r[i] == LowerChar(s[i])
  {
    if s == [] then [] else [LowerChar(s[0])] + Lower(s[1..])
  }

  /** The keys of `VALID_TYPES`. */
  predicate ValidType(t: string) {
    t == "follow" || t == "like" || t == "like_silent"
  }

  /** The request `createConnection` hands to the HTTP client; a like is always sent with `toggle: false`. */
  datatype Request =
    | FollowRequest(url: string, receiver_id: string, receiver_type: Option<string>, requestor_id: string)
    | LikeRequest(url: string, object_id: string, object_type: Option<string>, user_id: string, no_email: bool)

  /**
   * `createConnection`'s checks and options: the same-id check first (two
   * missing ids are the same), then the type, then the ids. A `Failure` is
   * the message of the thrown error.
   */
  function CreateConnection(env: Env, kind: Option<string>, receiver_type: Option<string>,
                            receiver_id: Option<string>, requestor_id: Option<string>): (r: Result<Request, string>)
    ensures receiver_id == requestor_id ==> r == Failure("Invalid Paramaters: Same receiver and requestor")
    ensures receiver_id != requestor_id && !(kind.Some? && ValidType(Lower(kind.value))) ==>
              r == Failure("Invalid type: Must provide valid connection type")
    ensures r.Success? <==> receiver_id != requestor_id && kind.Some? && ValidType(Lower(kind.value))
                            && Truthy(receiver_id) && Truthy(requestor_id)
    ensures r.Success? && r.value.FollowRequest? ==>
              && Lower(kind.value) == "follow" && r.value.url == ApiBase(env) + "/v1/connections"
              && r.value.receiver_id == receiver_id.value && r.value.requestor_id == requestor_id.value
              && r.value.receiver_type == receiver_type
    ensures r.Success? && r.value.LikeRequest? ==>
              && Lower(kind.value) != "follow" && r.value.url == ApiBase(env) + "/v1/likes"
              && r.value.object_id == receiver_id.value && r.value.user_id == requestor_id.value
              && r.value.object_type == receiver_type
              && (r.value.no_email <==> Lower(kind.value) == "like_silent")
  {
    if receiver_id == requestor_id then Failure("Invalid Paramaters: Same receiver and requestor")
    else if kind.None? || !ValidType(Lower(kind.value)) then Failure("Invalid type: Must provide valid connection type")
    else if !Truthy(receiver_id) || !Truthy(requestor_id) then Failure("Missing ids: Must provide receiver and requestor id")
    else
      var t := Lower(kind.value);
      if t == "follow" then
        Success(FollowRequest(ApiBase(env) + "/v1/connections", receiver_id.value, receiver_type, requestor_id.value))
      else
        Success(LikeRequest(ApiBase(env) + "/v1/likes", receiver_id.value, receiver_type, requestor_id.value, t == "like_silent"))
  }

  /** Type matching ignores case: an upper-case spelling builds the same request as the lower-case one. */
  lemma {:induction false} TypeCaseInsensitive(env: Env, kind: string, receiver_type: Option<string>,
                                               receiver_id: Option<string>, requestor_id: Option<string>)
    ensures CreateConnection(env, Some(kind), receiver_type, receiver_id, requestor_id)
         == CreateConnection(env, Some(Lower(kind)), receiver_type, receiver_id, requestor_id)
  {
    LowerIdempotent(kind);
  }

  lemma {:induction false} LowerIdempotent(s: string)
    ensures Lower(Lower(s)) == Lower(s)
  {
    forall i | 0 <= i < |s|
      ensures Lower(Lower(s))[i] == Lower(s)[i]
    {
    }
  }

  /** The view-count increment drawn after a connection to a vehicle; `draw` stands for `Math.random()`'s bucket. */
  function ViewIncrement(draw: nat): (n: nat)
    ensures 1 <= n <= 3
  {
    draw % 3 + 1
  }

  // ---------------------------------------------------------------- getRandomVehicles

  /** The `size` argument: a number (`NaN` aside), `NaN`, or a value of another type. */
  datatype SizeArg = NumberSize(n: int) | NaNSize | NotANumber

  /** The `$match` stage: a field is present exactly when its argument is truthy. */
  datatype MatchQuery = MatchQuery(make: Option<string>, model: Option<string>, poster_not: Option<string>)

  function Keep(s: Option<string>): (r: Option<string>)
    ensures r.Some? <==> Truthy(s)
    ensures r.Some? ==> r == s
  {
    if Truthy(s) then s else None
  }

  /** A sampled vehicle document. */
  datatype VehicleDoc = VehicleDoc(
    id: string, owner_name: Option<string>, owners: seq<string>, make: Option<string>, model: Option<string>,
    year: Option<string>, freshness_score_v1: Option<int>, last_modified_timestamp: Option<int>, poster: Option<string>)

  /** The projected vehicle. */
  datatype RandomVehicle = RandomVehicle(
    id: string, owner_name: Option<string>, owner_id: Option<string>, make: Option<string>, model: Option<string>,
    year: Option<string>, freshness_score_v1: Option<int>, last_updated: Option<int>, poster: Option<string>)

  /** The aggregation `getRandomVehicles` runs: its match stage and sample size. */
  datatype Sample = Sample(query: MatchQuery, size: int)

  /** The argument check, `Number(size) || 100`, and the match query. */
  function RandomVehiclesQuery(requestor_id: Option<string>, size: SizeArg, make: Option<string>, model: Option<string>)
    : (r: Result<Sample, string>)
    ensures r.Failure? <==> !(size.NumberSize? && size.n != 0)
    ensures r.Success? ==> r.value.size == size.n
    ensures r.Success? ==> r.value.query == MatchQuery(Keep(make), Keep(model), Keep(requestor_id))
  {
    if !(size.NumberSize? && size.n != 0) then Failure("Invalid parameter: Size must be a number")
    else Success(Sample(MatchQuery(Keep(make), Keep(model), Keep(requestor_id)), size.n))
  }

  /** Whether a vehicle satisfies the match stage. */
  predicate Matches(q: MatchQuery, v: VehicleDoc) {
    (q.make.Some? ==> v.make == q.make) && (q.model.Some? ==> v.model == q.model)
    && (q.poster_not.Some? ==> v.poster != q.poster_not)
  }

  /** A requestor never samples its own vehicles; without make, model or requestor every vehicle matches. */
  lemma MatchQueryMeaning(requestor_id: Option<string>, make: Option<string>, model: Option<string>, v: VehicleDoc)
    ensures var q := MatchQuery(Keep(make), Keep(model), Keep(requestor_id));
      && (Truthy(requestor_id) && Matches(q, v) ==> v.poster != requestor_id)
      && (!Truthy(make) && !Truthy(model) && !Truthy(requestor_id) ==> Matches(q, v))
  {
  }

  /** The projection of one sampled vehicle; its owner is the first of `owners`. */
  function Project(v: VehicleDoc): (r: RandomVehicle)
    ensures r.owner_id.Some? <==> v.owners != []
    ensures r.owner_id.Some? ==> r.owner_id.value == v.owners[0]
    ensures r.id == v.id && r.last_updated == v.last_modified_timestamp && r.poster == v.poster
  {
    RandomVehicle(v.id, v.owner_name, if v.owners != [] then Some(v.owners[0]) else None,
                  v.make, v.model, v.year, v.freshness_score_v1, v.last_modified_timestamp, v.poster)
  }

  /** `getRandomVehicles`, given what the `$sample` returned. */
  function RandomVehicles(requestor_id: Option<string>, size: SizeArg, make: Option<string>, model: Option<string>,
                          sampled: seq<VehicleDoc>): (r: Result<seq<RandomVehicle>, string>)
    ensures r.Failure? <==> RandomVehiclesQuery(requestor_id, size, make, model).Failure?
    ensures r.Success? ==> |r.value| == |sampled| && forall i :: 0 <= i < |sampled| ==> r.value[i] == Project(sampled[i])
  {
    match RandomVehiclesQuery(requestor_id, size, make, model)
    case Failure(e) => Failure(e)
    case Success(_) => Success(seq(|sampled|, i requires 0 <= i < |sampled| => Project(sampled[i])))
  }

  // ---------------------------------------------------------------- getDeadUsers

  datatype DeadVehicle = DeadVehicle(images: Option<seq<string>>)

  /** A user who has not logged in for a year, with its populated vehicles. */
  datatype DeadUser = DeadUser(id: string, profile_name: Option<string>, vehicles: seq<DeadVehicle>)

  /** `vehicle.images && vehicle.images.length > 0` for some vehicle. */
  predicate HasImage(u: DeadUser) {
    exists i :: 0 <= i < |u.vehicles| && u.vehicles[i].images.Some? && u.vehicles[i].images.value != []
  }

  /** The users kept by the filter, in order. */
  function WithImages(users: seq<DeadUser>): (r: seq<DeadUser>)
    ensures |r| <= |users|
    ensures forall u :: u in r <==> u in users && HasImage(u)
  {
    if users == [] then []
    else if HasImage(users[0]) then [users[0]] + WithImages(users[1..])
    else WithImages(users[1..])
  }

  /** The `DEAD_USERS` entry of `DATA_CACHE`; `last_update` is the misspelt field the refresh writes. */
  class DeadUserCache {
    var data: seq<DeadUser>
    var count: int
    var last_updated: int
    var last_update: Option<int>

    /** Outside production the cache starts empty; in production it holds the bundled list. */
    constructor (env: Env, bundled: seq<DeadUser>, now: int)
      ensures env.Production? ==> data == bundled && count == |bundled|
      ensures env.Other? ==> data == [] && count == 0
      ensures last_updated == now && last_update.None?
    {
      data := if env.Production? then bundled else [];
      count := if env.Production? then |bundled| else 0;
      last_updated := now;
      last_update := None;
    }

    /** The `forEach` over a user's vehicles. */
    static method UserHasImage(u: DeadUser) returns (has_image: bool)
      ensures has_image <==> HasImage(u)
    {
      has_image := false;
      var i := 0;
      while i < |u.vehicles|
        invariant 0 <= i <= |u.vehicles|
        invariant has_image <==> exists k :: 0 <= k < i && u.vehicles[k].images.Some? && u.vehicles[k].images.value != []
      {
        if u.vehicles[i].images.Some? && u.vehicles[i].images.value != [] {
          has_image := true;
        }
        i := i + 1;
      }
    }

    /**
     * `getDeadUsers`: the query runs only when the cached count is 0; its
     * users are filtered to those with a vehicle image, the count becomes
     * the kept length and `lastUpdated` is left as it was. A failed query
     * rejects and changes nothing.
     */
    method GetDeadUsers(queried: Result<seq<DeadUser>, string>, now: int) returns (r: Result<seq<DeadUser>, string>)
      modifies this
      ensures old(count) != 0 ==> r == Success(old(data)) && unchanged(this)
      ensures old(count) == 0 && queried.Failure? ==> r == Failure(queried.error) && unchanged(this)
      ensures old(count) == 0 && queried.Success? ==>
                && data == WithImages(queried.value) && count == |data| && r == Success(data)
                && last_update == Some(now) && last_updated == old(last_updated)
    {
      if count != 0 {
        return Success(data);
      }
      if queried.Failure? {
        return Failure(queried.error);
      }
      var users := queried.value;
      var kept: seq<DeadUser> := [];
      var i := 0;
      while i < |users|
        invariant 0 <= i <= |users|
        invariant kept == WithImages(users[..i])
        invariant count == i
        invariant last_updated == old(last_updated) && last_update == old(last_update)
      {
        count := count + 1;
        var has_image := UserHasImage(users[i]);
        FilterStep(users, i);
        if has_image {
          kept := kept + [users[i]];
        }
        i := i + 1;
      }
      assert users[..i] == users;
      data := kept;
      count := |kept|;
      last_update := Some(now);
      r := Success(data);
    }
  }

  /** Extending the filtered prefix by one user. */
  lemma {:induction false} FilterStep(users: seq<DeadUser>, i: nat)
    requires i < |users|
    ensures WithImages(users[..i + 1]) == WithImages(users[..i]) + (if HasImage(users[i]) then [users[i]] else [])
    decreases i
  {
    if i > 0 {
      assert users[..i + 1][1..] == users[1..][..i];
      assert users[..i][1..] == users[1..][..i - 1];
      FilterStep(users[1..], i - 1);
    } else {
      assert users[..1] == [users[0]];
      assert users[..0] == [];
    }
  }

  /** A refresh that keeps nobody leaves the count at 0, so the next call queries again. */
  lemma EmptyRefreshRequeries(users: seq<DeadUser>)
    requires forall u :: u in users ==> !HasImage(u)
    ensures |WithImages(users)| == 0
  {
    if |WithImages(users)| != 0 {
      assert WithImages(users)[0] in WithImages(users);
    }
  }
}
