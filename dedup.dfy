/**
  The per-stage deduplication loop that both list-processing nodes run
  (src/nodes.py:186-204 over listings, src/nodes.py:236-264 over
  summaries): walk the items in order; for an item whose id is not in the
  visited set, add the id to the set, then call the agent on the item and
  append the result. If the agent call raises, the loop stops there; the
  id stays in the visited set, because that set is mutated in place.

  DedupPass is the specification of that loop; Fresh is an independent
  reference definition (the first occurrence of every id not seen
  before) that the lemmas connect it to.
 */
module Dedup {
  import opened Wrappers

  type Id = string

  /** The visited-id set a node takes from the state and updates in place. */
  class VisitedSet {
    var ids: set<Id>

    constructor (seed: set<Id>)
      ensures ids == seed
    {
      ids := seed;
    }

    /**
      The membership test followed by `visited_set.add(id)`: reports whether
      the id was new, and records it either way.
     */
    method TestAndSet(id: Id) returns (isNew: bool)
      modifies this
      ensures isNew <==> id !in old(ids)
      ensures ids == old(ids) + {id}
    {
      isNew := id !in ids;
      if isNew {
        Add(id);
      }
    }

    /** `visited_set.add(id)`. */
    method Add(id: Id)
      modifies this
      ensures ids == old(ids) + {id}
    {
      ids := ids + {id};
    }
  }

  /** The ids of a list of items. */
  function KeysOf<T>(items: seq<T>, key: T -> Id): (ks: set<Id>)
    ensures forall i :: 0 <= i < |items| ==> key(items[i]) in ks
    ensures forall k :: k in ks ==> exists i :: 0 <= i < |items| && key(items[i]) == k
  {
    if items == [] then {}
    else
      var init := items[..|items| - 1];
      var ks := KeysOf(init, key) + {key(items[|items| - 1])};
      assert forall k :: k in ks ==> exists i :: 0 <= i < |items| && key(items[i]) == k by {
        forall k | k in ks
          ensures exists i :: 0 <= i < |items| && key(items[i]) == k
        {
          if k != key(items[|items| - 1]) {
            var i :| 0 <= i < |init| && key(init[i]) == k;
            assert items[i] == init[i];
          }
        }
      }
      ks
  }

  /** Item i is the first item with its id, and that id was not seen before. */
  predicate FirstNew<T>(items: seq<T>, key: T -> Id, seen: set<Id>, i: nat)
    requires i < |items|
  {
    key(items[i]) !in seen && forall j :: 0 <= j < i ==> key(items[j]) != key(items[i])
  }

  /** Reference definition: the items that are the first new occurrence of their id, in order. */
  function Fresh<T>(items: seq<T>, key: T -> Id, seen: set<Id>): (f: seq<T>)
    ensures |f| <= |items|
  {
    if items == [] then []
    else Fresh(items[..|items| - 1], key, seen) + (if FirstNew(items, key, seen, |items| - 1) then [items[|items| - 1]] else [])
  }

  /** The state of the loop: the results so far, the visited set, and the id whose agent call raised. */
  datatype Pass<U> = Pass(out: seq<U>, seen: set<Id>, failed: Option<Id>)

  /**
    The loop over `items` with visited set `seen`. `work(ctx, x)` is the
    agent call on item x (None when it raises); `ctx` is what every call
    shares (the agent, and for feedback the resume).
   */
  function DedupPass<C, T, U>(ctx: C, items: seq<T>, key: T -> Id, work: (C, T) -> Option<U>, seen: set<Id>): (p: Pass<U>)
    decreases |items|
  {
    if items == [] then Pass([], seen, None)
    else
      var init := items[..|items| - 1];
      var x := items[|items| - 1];
      var p := DedupPass(ctx, init, key, work, seen);
      if p.failed.Some? || key(x) in p.seen then p
      else match work(ctx, x)
        case None => Pass(p.out, p.seen + {key(x)}, Some(key(x)))
        case Some(u) => Pass(p.out + [u], p.seen + {key(x)}, None)
  }

  /**
    The visited set grows by ids of the list only; a pass that succeeds
    has visited every id of the list, and one that fails reports an id it
    newly visited. There is at most one result per item.
   */
  lemma {:induction false} PassSeen<C, T, U>(ctx: C, items: seq<T>, key: T -> Id, work: (C, T) -> Option<U>, seen: set<Id>)
    ensures var p := DedupPass(ctx, items, key, work, seen);
      && seen <= p.seen <= seen + KeysOf(items, key)
      && (p.failed.None? ==> p.seen == seen + KeysOf(items, key))
      && (p.failed.Some? ==> p.failed.value in p.seen && p.failed.value !in seen)
      && |p.out| <= |items|
  {
    if items != [] {
      var init := items[..|items| - 1];
      PassSeen(ctx, init, key, work, seen);
      assert KeysOf(items, key) == KeysOf(init, key) + {key(items[|items| - 1])};
    }
  }

  /** The last item is a first new occurrence exactly when its id is neither seen nor earlier. */
  lemma FirstNewLast<T>(items: seq<T>, key: T -> Id, seen: set<Id>)
    requires items != []
    ensures FirstNew(items, key, seen, |items| - 1) <==> key(items[|items| - 1]) !in seen + KeysOf(items[..|items| - 1], key)
  {
    var init := items[..|items| - 1];
    var k := key(items[|items| - 1]);
    if k in KeysOf(init, key) {
      var j :| 0 <= j < |init| && key(init[j]) == k;
      assert items[j] == init[j];
    }
  }

  /** FirstNew of an earlier item does not depend on later items. */
  lemma FirstNewPrefix<T>(items: seq<T>, key: T -> Id, seen: set<Id>, n: nat, i: nat)
    requires i < n <= |items|
    ensures FirstNew(items[..n], key, seen, i) <==> FirstNew(items, key, seen, i)
  {
    assert forall j :: 0 <= j <= i ==> items[..n][j] == items[j];
  }

  /**
    Without a failed agent call, the pass produces exactly one result per
    fresh item, in the items' order: result k is the agent's answer for
    the k-th first new occurrence.
   */
  lemma {:induction false} PassMatchesFresh<C, T, U>(ctx: C, items: seq<T>, key: T -> Id, work: (C, T) -> Option<U>, seen: set<Id>)
    requires DedupPass(ctx, items, key, work, seen).failed.None?
    ensures var p := DedupPass(ctx, items, key, work, seen);
      var f := Fresh(items, key, seen);
      |p.out| == |f| && forall k :: 0 <= k < |f| ==> work(ctx, f[k]) == Some(p.out[k])
  {
    if items != [] {
      var init := items[..|items| - 1];
      var x := items[|items| - 1];
      var p0 := DedupPass(ctx, init, key, work, seen);
      var p := DedupPass(ctx, items, key, work, seen);
      assert p0.failed.None?;
      PassSeen(ctx, init, key, work, seen);
      PassMatchesFresh(ctx, init, key, work, seen);
      FirstNewLast(items, key, seen);
      var f0 := Fresh(init, key, seen);
      var f := Fresh(items, key, seen);
      if key(x) in p0.seen {
        assert f == f0 + [];
      } else {
        assert f == f0 + [x];
        assert p.out == p0.out + [work(ctx, x).value];
      }
    }
  }

  /** No two items share an id. */
  predicate DistinctKeys<T>(s: seq<T>, key: T -> Id) {
    forall a, b :: 0 <= a < b < |s| ==> key(s[a]) != key(s[b])
  }

  /** A list with distinct ids has as many ids as items. */
  lemma {:induction false} DistinctKeysCount<T>(s: seq<T>, key: T -> Id)
    requires DistinctKeys(s, key)
    ensures |KeysOf(s, key)| == |s|
  {
    if s != [] {
      var init := s[..|s| - 1];
      var x := s[|s| - 1];
      assert DistinctKeys(init, key) by {
        forall a, b | 0 <= a < b < |init| ensures key(init[a]) != key(init[b]) {
          assert init[a] == s[a] && init[b] == s[b];
        }
      }
      DistinctKeysCount(init, key);
      forall j | 0 <= j < |init| ensures key(init[j]) != key(x) {
        assert init[j] == s[j];
      }
      assert key(x) !in KeysOf(init, key);
      assert KeysOf(s, key) == KeysOf(init, key) + {key(x)};
    }
  }

  /** The fresh items have pairwise distinct ids, none of which was seen before. */
  lemma {:induction false} FreshDistinctUnseen<T>(items: seq<T>, key: T -> Id, seen: set<Id>)
    ensures DistinctKeys(Fresh(items, key, seen), key)
    ensures forall a :: 0 <= a < |Fresh(items, key, seen)| ==> key(Fresh(items, key, seen)[a]) !in seen
  {
    if items != [] {
      var init := items[..|items| - 1];
      var x := items[|items| - 1];
      FreshDistinctUnseen(init, key, seen);
      var f0 := Fresh(init, key, seen);
      var f := Fresh(items, key, seen);
      if FirstNew(items, key, seen, |items| - 1) {
        assert f == f0 + [x];
        FirstNewLast(items, key, seen);
        FreshSubset(init, key, seen);
        forall a | 0 <= a < |f0| ensures key(f0[a]) != key(x) {
          assert key(f0[a]) in KeysOf(init, key);
        }
      } else {
        assert f == f0;
      }
    }
  }

  /** The ids of the fresh items are ids of the items. */
  lemma {:induction false} FreshSubset<T>(items: seq<T>, key: T -> Id, seen: set<Id>)
    ensures KeysOf(Fresh(items, key, seen), key) <= KeysOf(items, key)
  {
    if items != [] {
      var init := items[..|items| - 1];
      var x := items[|items| - 1];
      FreshSubset(init, key, seen);
      var f0 := Fresh(init, key, seen);
      var f := Fresh(items, key, seen);
      assert KeysOf(items, key) == KeysOf(init, key) + {key(x)};
      if FirstNew(items, key, seen, |items| - 1) {
        assert f == f0 + [x];
        assert f[..|f| - 1] == f0;
        assert KeysOf(f, key) == KeysOf(f0, key) + {key(x)};
      } else {
        assert f == f0;
      }
    }
  }

  /** Between them the fresh items cover exactly the ids of the items that were not seen. */
  lemma {:induction false} FreshKeySet<T>(items: seq<T>, key: T -> Id, seen: set<Id>)
    ensures KeysOf(Fresh(items, key, seen), key) == KeysOf(items, key) - seen
  {
    if items != [] {
      var init := items[..|items| - 1];
      var x := items[|items| - 1];
      FreshKeySet(init, key, seen);
      FirstNewLast(items, key, seen);
      var f0 := Fresh(init, key, seen);
      var f := Fresh(items, key, seen);
      assert KeysOf(items, key) == KeysOf(init, key) + {key(x)};
      if FirstNew(items, key, seen, |items| - 1) {
        assert f == f0 + [x];
        assert f[..|f| - 1] == f0;
        assert KeysOf(f, key) == KeysOf(f0, key) + {key(x)};
      } else {
        assert f == f0;
      }
    }
  }

  /** There is exactly one fresh item per distinct unseen id. */
  lemma FreshCount<T>(items: seq<T>, key: T -> Id, seen: set<Id>)
    ensures |Fresh(items, key, seen)| == |KeysOf(items, key) - seen|
  {
    FreshDistinctUnseen(items, key, seen);
    FreshKeySet(items, key, seen);
    DistinctKeysCount(Fresh(items, key, seen), key);
  }

  /** A pass over items whose ids are all seen does nothing. */
  lemma {:induction false} PassSkipsSeen<C, T, U>(ctx: C, items: seq<T>, key: T -> Id, work: (C, T) -> Option<U>, seen: set<Id>)
    requires KeysOf(items, key) <= seen
    ensures DedupPass(ctx, items, key, work, seen) == Pass([], seen, None)
  {
    if items != [] {
      var init := items[..|items| - 1];
      assert KeysOf(items, key) == KeysOf(init, key) + {key(items[|items| - 1])};
      PassSkipsSeen(ctx, init, key, work, seen);
    }
  }

  /** Running the pass again with the visited set it returned produces nothing new (idempotence). */
  lemma PassIdempotent<C, T, U>(ctx: C, items: seq<T>, key: T -> Id, work: (C, T) -> Option<U>, seen: set<Id>)
    requires DedupPass(ctx, items, key, work, seen).failed.None?
    ensures var p := DedupPass(ctx, items, key, work, seen);
      DedupPass(ctx, items, key, work, p.seen) == Pass([], p.seen, None)
  {
    var p := DedupPass(ctx, items, key, work, seen);
    PassSeen(ctx, items, key, work, seen);
    PassSkipsSeen(ctx, items, key, work, p.seen);
  }

  /**
    A pass over `a + b` is a pass over `a` followed by a pass over `b`
    seeded with the visited set the first one returned: repeated runs over
    overlapping lists process every id once in total.
   */
  lemma {:induction false} PassConcat<C, T, U>(ctx: C, a: seq<T>, b: seq<T>, key: T -> Id, work: (C, T) -> Option<U>, seen: set<Id>)
    requires DedupPass(ctx, a, key, work, seen).failed.None?
    ensures var p1 := DedupPass(ctx, a, key, work, seen);
      var p2 := DedupPass(ctx, b, key, work, p1.seen);
      DedupPass(ctx, a + b, key, work, seen) == Pass(p1.out + p2.out, p2.seen, p2.failed)
  {
    var p1 := DedupPass(ctx, a, key, work, seen);
    if b == [] {
      assert a + b == a;
      assert p1.out + [] == p1.out;
    } else {
      var b0 := b[..|b| - 1];
      var x := b[|b| - 1];
      PassConcat(ctx, a, b0, key, work, seen);
      assert (a + b)[..|a + b| - 1] == a + b0;
      assert (a + b)[|a + b| - 1] == x;
      assert b[..|b| - 1] == b0;
      var q := DedupPass(ctx, b0, key, work, p1.seen);
      var r := DedupPass(ctx, a + b0, key, work, seen);
      assert r == Pass(p1.out + q.out, q.seen, q.failed);
      if q.failed.Some? || key(x) in q.seen {
        assert DedupPass(ctx, b, key, work, p1.seen) == q;
        assert DedupPass(ctx, a + b, key, work, seen) == r;
      } else if work(ctx, x).None? {
        assert DedupPass(ctx, b, key, work, p1.seen) == Pass(q.out, q.seen + {key(x)}, Some(key(x)));
        assert DedupPass(ctx, a + b, key, work, seen) == Pass(r.out, r.seen + {key(x)}, Some(key(x)));
      } else {
        var u := work(ctx, x).value;
        assert DedupPass(ctx, b, key, work, p1.seen) == Pass(q.out + [u], q.seen + {key(x)}, None);
        assert DedupPass(ctx, a + b, key, work, seen) == Pass(r.out + [u], r.seen + {key(x)}, None);
        assert r.out + [u] == p1.out + (q.out + [u]);
      }
    }
  }

  /**
    Item i is where the pass's agent call raised: the first new occurrence
    of its id, the pass up to it succeeded, and the agent failed on it.
   */
  predicate FailsAt<C, T, U>(ctx: C, items: seq<T>, key: T -> Id, work: (C, T) -> Option<U>, seen: set<Id>, i: nat)
    requires i < |items|
  {
    && FirstNew(items, key, seen, i)
    && work(ctx, items[i]).None?
    && DedupPass(ctx, items[..i], key, work, seen).failed.None?
  }

  /** The pass up to a failing item, and the reported id, make up the failed pass. */
  lemma FailsAtLast<C, T, U>(ctx: C, items: seq<T>, key: T -> Id, work: (C, T) -> Option<U>, seen: set<Id>)
    requires items != []
    requires DedupPass(ctx, items[..|items| - 1], key, work, seen).failed.None?
    requires DedupPass(ctx, items, key, work, seen).failed.Some?
    ensures FailsAt(ctx, items, key, work, seen, |items| - 1)
    ensures var p := DedupPass(ctx, items, key, work, seen);
      var q := DedupPass(ctx, items[..|items| - 1], key, work, seen);
      p.failed.value == key(items[|items| - 1]) && p.out == q.out && p.seen == q.seen + {p.failed.value}
  {
    PassSeen(ctx, items[..|items| - 1], key, work, seen);
    FirstNewLast(items, key, seen);
  }

  /** Whether an item is where the pass fails does not depend on the items after it. */
  lemma FailsAtPrefix<C, T, U>(ctx: C, items: seq<T>, key: T -> Id, work: (C, T) -> Option<U>, seen: set<Id>, n: nat, i: nat)
    requires i < n <= |items| && FailsAt(ctx, items[..n], key, work, seen, i)
    ensures FailsAt(ctx, items, key, work, seen, i)
  {
    assert items[..n][..i] == items[..i];
    FirstNewPrefix(items, key, seen, n, i);
  }

  /**
    When an agent call raises, it was on the first new occurrence of the
    reported id (item i); the pass up to that item succeeded, its results
    are the pass's results, and the reported id has been added to the
    visited set.
   */
  lemma {:induction false} PassFailure<C, T, U>(ctx: C, items: seq<T>, key: T -> Id, work: (C, T) -> Option<U>, seen: set<Id>)
    returns (i: nat)
    requires DedupPass(ctx, items, key, work, seen).failed.Some?
    ensures i < |items| && FailsAt(ctx, items, key, work, seen, i)
    ensures var p := DedupPass(ctx, items, key, work, seen);
      var q := DedupPass(ctx, items[..i], key, work, seen);
      p == Pass(q.out, q.seen + {key(items[i])}, Some(key(items[i])))
  {
    var n := |items| - 1;
    var init := items[..n];
    if DedupPass(ctx, init, key, work, seen).failed.Some? {
      i := PassFailure(ctx, init, key, work, seen);
      FailsAtPrefix(ctx, items, key, work, seen, n, i);
      assert init[..i] == items[..i];
    } else {
      FailsAtLast(ctx, items, key, work, seen);
      i := n;
    }
  }

  /** Once an agent call has raised, later items change nothing: the loop has stopped. */
  lemma {:induction false} PassFailedStays<C, T, U>(ctx: C, items: seq<T>, n: nat, key: T -> Id, work: (C, T) -> Option<U>, seen: set<Id>)
    requires n <= |items| && DedupPass(ctx, items[..n], key, work, seen).failed.Some?
    ensures DedupPass(ctx, items, key, work, seen) == DedupPass(ctx, items[..n], key, work, seen)
    decreases |items| - n
  {
    if n == |items| {
      assert items[..n] == items;
    } else {
      var init := items[..|items| - 1];
      assert init[..n] == items[..n];
      PassFailedStays(ctx, init, n, key, work, seen);
      PassUnfoldFailed(ctx, items, key, work, seen, DedupPass(ctx, items[..n], key, work, seen));
    }
  }

  /** One step of the loop after a failure leaves the pass as it was. */
  lemma PassUnfoldFailed<C, T, U>(ctx: C, items: seq<T>, key: T -> Id, work: (C, T) -> Option<U>, seen: set<Id>, p: Pass<U>)
    requires items != []
    requires DedupPass(ctx, items[..|items| - 1], key, work, seen) == p && p.failed.Some?
    ensures DedupPass(ctx, items, key, work, seen) == p
  {
  }

  /**
    When the work fails on every item, the pass returns no results, and it
    fails exactly when some item is fresh, on the first fresh item's id.
   */
  lemma {:induction false} PassWithFailingWork<C, T, U>(ctx: C, items: seq<T>, key: T -> Id, work: (C, T) -> Option<U>, seen: set<Id>)
    requires forall k :: 0 <= k < |items| ==> work(ctx, items[k]).None?
    ensures var p := DedupPass(ctx, items, key, work, seen);
      var f := Fresh(items, key, seen);
      && p.out == []
      && (p.failed.None? <==> f == [])
      && (p.failed.Some? ==> p.failed.value == key(f[0]))
  {
    if items != [] {
      var init := items[..|items| - 1];
      var x := items[|items| - 1];
      assert forall k :: 0 <= k < |init| ==> init[k] == items[k];
      PassWithFailingWork(ctx, init, key, work, seen);
      PassSeen(ctx, init, key, work, seen);
      FirstNewLast(items, key, seen);
      var f0 := Fresh(init, key, seen);
      var f := Fresh(items, key, seen);
      if FirstNew(items, key, seen, |items| - 1) {
        assert f == f0 + [x];
      } else {
        assert f == f0;
      }
    }
  }

  /**
    An item whose agent call raises ends the whole pass: the rest of the
    items are never looked at, and the raising id is reported and kept in
    the visited set.
   */
  lemma PassStopsAt<C, T, U>(ctx: C, items: seq<T>, key: T -> Id, work: (C, T) -> Option<U>, seen: set<Id>, i: nat, p: Pass<U>)
    requires i < |items|
    requires DedupPass(ctx, items[..i], key, work, seen) == p && p.failed.None?
    requires key(items[i]) !in p.seen && work(ctx, items[i]).None?
    ensures DedupPass(ctx, items, key, work, seen) == Pass(p.out, p.seen + {key(items[i])}, Some(key(items[i])))
  {
    PassStep(ctx, items, key, work, seen, i, p);
    PassFailedStays(ctx, items, i + 1, key, work, seen);
  }

  /** One iteration of the loop, from the pass over the first i items to the pass over the first i + 1. */
  lemma PassStep<C, T, U>(ctx: C, items: seq<T>, key: T -> Id, work: (C, T) -> Option<U>, seen: set<Id>, i: nat, p: Pass<U>)
    requires i < |items|
    requires DedupPass(ctx, items[..i], key, work, seen) == p && p.failed.None?
    ensures var x := items[i];
      DedupPass(ctx, items[..i + 1], key, work, seen) ==
        if key(x) in p.seen then p
        else if work(ctx, x).None? then Pass(p.out, p.seen + {key(x)}, Some(key(x)))
        else Pass(p.out + [work(ctx, x).value], p.seen + {key(x)}, None)
  {
    assert items[..i + 1][..i] == items[..i];
  }
}
