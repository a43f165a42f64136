/**
 * Actor de-duplication inside `findNotifications`
 * (worker/cron-jobs/weekly-digest/weekly-digest-utility.js): every
 * notification's `actions` list is scanned from the back, and whenever an
 * earlier entry has the same actor as the current one, the earlier entry is
 * spliced out. The net effect is that each actor keeps only its last entry.
 */
module ActorDedup {
  import opened Wrappers
  import opened Js

  /** One entry of a notification's `actions`, before population: the actor is an id. */
  datatype ActionEntry = ActionEntry(timestamp: int, action_id: string, actor: string)

  /** The actors appearing in a list of entries (compared by their id string). */
  function Actors(s: seq<ActionEntry>): set<string> {
    set e | e in s :: e.actor
  }

  /** Entry `k` is the last one of its actor. */
  predicate LastOfItsActor(s: seq<ActionEntry>, k: nat)
    requires k < |s|
  {
    s[k].actor !in Actors(s[k + 1..])
  }

  /** No actor appears twice. */
  predicate DistinctActors(s: seq<ActionEntry>) {
    forall i, j :: 0 <= i < j < |s| ==> s[i].actor != s[j].actor
  }

  /** `r` is `s` with some entries left out, the others in their original order. */
  predicate Subsequence(r: seq<ActionEntry>, s: seq<ActionEntry>)
    decreases |s|
  {
    if r == [] then true
    else if s == [] then false
    else (r[0] == s[0] && Subsequence(r[1..], s[1..])) || Subsequence(r, s[1..])
  }

  /** The specification: keep exactly the entries that are the last of their actor. */
  function KeepLast(s: seq<ActionEntry>): (r: seq<ActionEntry>)
    decreases |s|
  {
    if s == [] then []
    else if s[0].actor in Actors(s[1..]) then KeepLast(s[1..])
    else [s[0]] + KeepLast(s[1..])
  }

  lemma ActorsCons(s: seq<ActionEntry>)
    requires s != []
    ensures Actors(s) == {s[0].actor} + Actors(s[1..])
  {
    assert s == [s[0]] + s[1..];
    forall a | a in Actors(s) ensures a in {s[0].actor} + Actors(s[1..]) {
      var e :| e in s && e.actor == a;
      if e != s[0] {
        var k :| 0 <= k < |s| && s[k] == e;
        assert s[1..][k - 1] == e;
      }
    }
  }

  /** KeepLast keeps the same actors, each once, as a subsequence of its input. */
  lemma {:induction false} KeepLastShape(s: seq<ActionEntry>)
    ensures Actors(KeepLast(s)) == Actors(s)
    ensures DistinctActors(KeepLast(s))
    ensures Subsequence(KeepLast(s), s)
    ensures |KeepLast(s)| <= |s|
    decreases |s|
  {
    if s != [] {
      KeepLastShape(s[1..]);
      ActorsCons(s);
      var t := KeepLast(s[1..]);
      if s[0].actor !in Actors(s[1..]) {
        var r := [s[0]] + t;
        ActorsCons(r);
        assert r[1..] == t;
        forall i, j | 0 <= i < j < |r| ensures r[i].actor != r[j].actor {
          if i == 0 {
            assert r[j] in t;
          } else {
            assert r[i] == t[i - 1] && r[j] == t[j - 1];
          }
        }
      } else {
        SubsequenceSkip(t, s);
      }
    }
  }

  lemma SubsequenceSkip(r: seq<ActionEntry>, s: seq<ActionEntry>)
    requires s != [] && Subsequence(r, s[1..])
    ensures Subsequence(r, s)
  {
  }

  /** A list whose actors are already distinct is left as it is. */
  lemma {:induction false} KeepLastOfDistinct(s: seq<ActionEntry>)
    requires DistinctActors(s)
    ensures KeepLast(s) == s
    decreases |s|
  {
    if s != [] {
      forall e | e in s[1..] ensures e.actor != s[0].actor {
        var k :| 0 <= k < |s[1..]| && s[1..][k] == e;
        assert s[k + 1] == e;
      }
      assert DistinctActors(s[1..]) by {
        forall i, j | 0 <= i < j < |s[1..]| ensures s[1..][i].actor != s[1..][j].actor {
          assert s[1..][i] == s[i + 1] && s[1..][j] == s[j + 1];
        }
      }
      KeepLastOfDistinct(s[1..]);
      assert s == [s[0]] + s[1..];
    }
  }

  /** The newest entry always survives, and it stays last: the action object is looked up from it. */
  lemma {:induction false} KeepLastEndsWithLast(s: seq<ActionEntry>)
    requires s != []
    ensures KeepLast(s) != [] && KeepLast(s)[|KeepLast(s)| - 1] == s[|s| - 1]
    decreases |s|
  {
    if |s| == 1 {
      assert s[1..] == [];
    } else {
      KeepLastEndsWithLast(s[1..]);
      assert s[1..][|s[1..]| - 1] == s[|s| - 1];
    }
  }

  /** De-duplicating twice gives the same result as de-duplicating once. */
  lemma KeepLastIdempotent(s: seq<ActionEntry>)
    ensures KeepLast(KeepLast(s)) == KeepLast(s)
  {
    KeepLastShape(s);
    KeepLastOfDistinct(KeepLast(s));
  }

  /**
   * Exactly the entries that are the last of their actor survive: every such
   * entry is in the result, and every entry of the result is such an entry.
   */
  lemma {:induction false} KeepLastMembers(s: seq<ActionEntry>)
    ensures forall k :: 0 <= k < |s| && LastOfItsActor(s, k) ==> s[k] in KeepLast(s)
    ensures forall e :: e in KeepLast(s) ==> exists k :: 0 <= k < |s| && s[k] == e && LastOfItsActor(s, k)
    decreases |s|
  {
    if s != [] {
      KeepLastMembers(s[1..]);
      var t := KeepLast(s[1..]);
      forall k | 0 <= k < |s| && LastOfItsActor(s, k) ensures s[k] in KeepLast(s) {
        if k > 0 {
          assert s[1..][k - 1] == s[k];
          assert s[1..][k - 1 + 1..] == s[k + 1..];
          assert LastOfItsActor(s[1..], k - 1);
        }
      }
      forall e | e in KeepLast(s) ensures exists k :: 0 <= k < |s| && s[k] == e && LastOfItsActor(s, k) {
        if e in t {
          var k :| 0 <= k < |s[1..]| && s[1..][k] == e && LastOfItsActor(s[1..], k);
          assert s[1..][k + 1..] == s[k + 2..];
          assert s[k + 1] == e && LastOfItsActor(s, k + 1);
        } else {
          assert e == s[0] && s[0].actor !in Actors(s[1..]);
          assert LastOfItsActor(s, 0);
        }
      }
    }
  }

  /** Removing an entry whose actor reappears later keeps the set of actors. */
  lemma ActorsRemoveDuplicate(s: seq<ActionEntry>, j: nat, i: nat)
    requires j < i < |s| && s[j].actor == s[i].actor
    ensures Actors(s[..j] + s[j + 1..]) == Actors(s)
  {
    var r := s[..j] + s[j + 1..];
    forall a | a in Actors(s) ensures a in Actors(r) {
      var e :| e in s && e.actor == a;
      var k :| 0 <= k < |s| && s[k] == e;
      if k < j {
        assert r[k] == e;
      } else if k == j {
        assert r[i - 1] == s[i];
      } else {
        assert r[k - 1] == e;
      }
    }
    forall a | a in Actors(r) ensures a in Actors(s) {
      var e :| e in r && e.actor == a;
      var k :| 0 <= k < |r| && r[k] == e;
      if k < j { assert s[k] == e; } else { assert s[k + 1] == e; }
    }
  }

  /** Removing an entry whose actor reappears later does not change KeepLast. */
  lemma {:induction false} RemoveEarlierDuplicate(s: seq<ActionEntry>, j: nat, i: nat)
    requires j < i < |s| && s[j].actor == s[i].actor
    ensures KeepLast(s[..j] + s[j + 1..]) == KeepLast(s)
    decreases j
  {
    var r := s[..j] + s[j + 1..];
    if j == 0 {
      assert r == s[1..];
      assert s[1..][i - 1] == s[i];
      assert s[0].actor in Actors(s[1..]);
    } else {
      var s' := s[1..];
      assert s'[j - 1] == s[j] && s'[i - 1] == s[i];
      RemoveEarlierDuplicate(s', j - 1, i - 1);
      ActorsRemoveDuplicate(s', j - 1, i - 1);
      var r' := s'[..j - 1] + s'[j..];
      RemoveAtTail(s, j);
      assert r == [s[0]] + r';
    }
  }

  /** Removing entry `j > 0` keeps the head in front of the tail with its entry `j - 1` removed. */
  lemma RemoveAtTail<T>(s: seq<T>, j: nat)
    requires 0 < j < |s|
    ensures s[..j] + s[j + 1..] == [s[0]] + (s[1..][..j - 1] + s[1..][j..])
  {
    assert s[..j] == [s[0]] + s[1..][..j - 1];
    assert s[j + 1..] == s[1..][j..];
    AppendAssoc([s[0]], s[1..][..j - 1], s[1..][j..]);
  }

  /** When no entry has an earlier entry with the same actor, the actors are distinct. */
  lemma NoEarlierDuplicates(s: seq<ActionEntry>)
    requires forall k :: 0 < k < |s| ==> s[k].actor !in Actors(s[..k])
    ensures DistinctActors(s)
  {
    forall i, j | 0 <= i < j < |s| ensures s[i].actor != s[j].actor {
      assert s[i] in s[..j];
    }
  }

  /** Entries after `i` have no earlier entry with the same actor. */
  predicate TailUnique(r: seq<ActionEntry>, i: int) {
    forall k :: 0 <= k < |r| && i < k ==> r[k].actor !in Actors(r[..k])
  }

  /** When no entry before `i` has its actor, the actor is not among the earlier ones. */
  lemma NoEarlierMatch(r: seq<ActionEntry>, i: nat)
    requires i < |r|
    requires forall m :: 0 <= m < i ==> r[m].actor != r[i].actor
    ensures r[i].actor !in Actors(r[..i])
  {
    forall e | e in r[..i] ensures e.actor != r[i].actor {
      var m :| 0 <= m < i && r[..i][m] == e;
    }
  }

  /** Splicing out entry `j < i` keeps the entries after `i` free of earlier duplicates. */
  lemma SpliceKeepsTailUnique(r0: seq<ActionEntry>, j: nat, i: nat)
    requires j < i < |r0| && TailUnique(r0, i)
    ensures TailUnique(r0[..j] + r0[j + 1..], i - 1)
  {
    var r := r0[..j] + r0[j + 1..];
    forall k | i - 1 < k < |r| ensures r[k].actor !in Actors(r[..k]) {
      assert r[k] == r0[k + 1];
      assert r0[k + 1].actor !in Actors(r0[..k + 1]);
      forall e | e in r[..k] ensures e in r0[..k + 1] {
        var m :| 0 <= m < k && r[..k][m] == e;
        if m < j { assert r0[m] == e; } else { assert r0[m + 1] == e; }
      }
    }
  }

  /** The inner loop: the nearest index before `i` with the same actor, or -1. */
  method NearestEarlier(r: seq<ActionEntry>, i: nat) returns (j: int)
    requires i < |r|
    ensures -1 <= j < i
    ensures j >= 0 ==> r[j].actor == r[i].actor
    ensures forall m :: j < m < i ==> r[m].actor != r[i].actor
  {
    j := i - 1;
    while j >= 0 && r[j].actor != r[i].actor
      invariant -1 <= j < i
      invariant forall m :: j < m < i ==> r[m].actor != r[i].actor
      decreases j + 1
    {
      j := j - 1;
    }
  }

  /** Once no entry has an earlier duplicate, the list is the specification's result for the original list. */
  lemma DedupDone(r: seq<ActionEntry>, actions: seq<ActionEntry>)
    requires TailUnique(r, 0) && KeepLast(r) == KeepLast(actions)
    ensures r == KeepLast(actions)
    ensures DistinctActors(r) && Actors(r) == Actors(actions) && |r| <= |actions|
  {
    NoEarlierDuplicates(r);
    KeepLastOfDistinct(r);
    KeepLastShape(actions);
  }

  /** One pass of the outer loop at index `i`: splice out the nearest earlier entry with the same actor, if any. */
  method SpliceNearest(r: seq<ActionEntry>, i: nat) returns (r': seq<ActionEntry>)
    requires 1 <= i < |r| && TailUnique(r, i)
    ensures |r'| <= |r| && i - 1 < |r'|
    ensures KeepLast(r') == KeepLast(r)
    ensures TailUnique(r', i - 1)
  {
    var j := NearestEarlier(r, i);
    if j >= 0 {
      RemoveEarlierDuplicate(r, j, i);
      SpliceKeepsTailUnique(r, j, i);
      r' := r[..j] + r[j + 1..];
    } else {
      NoEarlierMatch(r, i);
      r' := r;
    }
  }

  /**
   * The nested loops of `findNotifications`: for `i` from the last index down
   * to 1, look for the nearest earlier entry `j` with the same actor and
   * splice it out. The result is the specification `KeepLast`.
   */
  method DedupActions(actions: seq<ActionEntry>) returns (r: seq<ActionEntry>)
    ensures r == KeepLast(actions)
    ensures DistinctActors(r) && Actors(r) == Actors(actions) && |r| <= |actions|
  {
    r := actions;
    var i := |r| - 1;
    while i >= 1
      invariant -1 <= i < |r|
      invariant KeepLast(r) == KeepLast(actions)
      invariant TailUnique(r, i)
      decreases i + 1
    {
      r := SpliceNearest(r, i);
      i := i - 1;
    }
    DedupDone(r, actions);
  }

  /**
   * The per-notification step: a notification without an `actions` list is
   * returned unchanged, otherwise its list is de-duplicated.
   */
  method DedupNotificationActions(actions: Option<seq<ActionEntry>>) returns (r: Option<seq<ActionEntry>>)
    ensures actions.None? ==> r.None?
    ensures actions.Some? ==> r == Some(KeepLast(actions.value))
  {
    if actions.None? {
      return None;
    }
    var deduped := DedupActions(actions.value);
    r := Some(deduped);
  }

  /** The worked example: `[A@t1, B@t2, A@t3]` becomes `[B@t2, A@t3]`. */
  lemma ExampleKeepsLastA(a1: ActionEntry, b: ActionEntry, a3: ActionEntry)
    requires a1.actor == a3.actor && a1.actor != b.actor
    ensures KeepLast([a1, b, a3]) == [b, a3]
  {
    assert [a1, b, a3][1..] == [b, a3];
    assert [b, a3][1..] == [a3];
    assert [a3][1..] == [];
    assert a3 in [b, a3];
    assert Actors([a3]) == {a3.actor};
    assert KeepLast([a3]) == [a3];
    assert KeepLast([b, a3]) == [b, a3];
  }
}
