/** Sequences of identifiers without repetition. */
module Ids {
  import opened Events

  /** The ids of some records, in their order. */
  function IdsOf<T>(xs: seq<T>, idOf: T -> Id): (ids: seq<Id>)
    ensures |ids| == |xs| && forall i :: 0 <= i < |xs| ==> ids[i] == idOf(xs[i])
  {
    if xs == [] then [] else IdsOf(xs[..|xs| - 1], idOf) + [idOf(xs[|xs| - 1])]
  }

  function IdSet(ids: seq<Id>): set<Id> {
    set i | 0 <= i < |ids| :: ids[i]
  }

  ghost predicate NoRepeats(ids: seq<Id>) {
    forall i, j :: 0 <= i < j < |ids| ==> ids[i] != ids[j]
  }

  lemma {:induction false} AppendId(ids: seq<Id>, id: Id)
    ensures IdSet(ids + [id]) == IdSet(ids) + {id}
  {
    forall x | x in IdSet(ids) + {id}
      ensures x in IdSet(ids + [id])
    {
      if x in IdSet(ids) {
        var i :| 0 <= i < |ids| && ids[i] == x;
        assert (ids + [id])[i] == x;
      } else {
        assert (ids + [id])[|ids|] == x;
      }
    }
  }

  lemma {:induction false} SizeOfIds(ids: seq<Id>)
    requires NoRepeats(ids)
    ensures |IdSet(ids)| == |ids|
  {
    if ids != [] {
      var front, last := ids[..|ids| - 1], ids[|ids| - 1];
      SizeOfIds(front);
      assert ids == front + [last];
      AppendId(front, last);
    }
  }

  /** n increasing positions below n are 0, 1, ..., n - 1. */
  lemma {:induction false} IncreasingIsIdentity(f: seq<nat>, n: nat, i: nat)
    requires |f| == n && i < n
    requires forall j :: 0 <= j < n ==> f[j] < n
    requires forall j, k :: 0 <= j < k < n ==> f[j] < f[k]
    ensures f[i] == i
  {
    AtLeast(f, i);
    AtMost(f, n, i);
  }

  lemma {:induction false} AtLeast(f: seq<nat>, i: nat)
    requires i < |f|
    requires forall j, k :: 0 <= j < k < |f| ==> f[j] < f[k]
    ensures f[i] >= i
  {
    if i > 0 { AtLeast(f, i - 1); }
  }

  lemma {:induction false} AtMost(f: seq<nat>, n: nat, i: nat)
    requires |f| == n && i < n
    requires forall j :: 0 <= j < n ==> f[j] < n
    requires forall j, k :: 0 <= j < k < n ==> f[j] < f[k]
    ensures f[i] <= i
    decreases n - i
  {
    if i + 1 < n { AtMost(f, n, i + 1); }
  }
}
