/**
 * Per-key totals of a sequence of keyed quantities. The specification side
 * (`FirstSeen`, `SumFor`, `Aggregate`) says what the totals are; `Tallies`
 * is the invariant an insertion-ordered dictionary keeps while
 * `map[key] = (map[key] || 0) + qty` adds one line at a time.
 * Everything here is generic in the key, so the proofs never look inside a key.
 */
module Tally {
  import OrderedRecord

  /** One keyed quantity. */
  datatype Line<K> = Line(key: K, qty: int)

  /** Some line carries key `k`. */
  ghost predicate HasKey<K>(ls: seq<Line<K>>, k: K) {
    exists i :: 0 <= i < |ls| && ls[i].key == k
  }

  lemma HasKeySnoc<K(!new)>(ls: seq<Line<K>>, l: Line<K>)
    ensures forall k :: HasKey(ls + [l], k) <==> HasKey(ls, k) || l.key == k
  {
    forall k | HasKey(ls + [l], k) && l.key != k ensures HasKey(ls, k) {
      var i :| 0 <= i < |ls + [l]| && (ls + [l])[i].key == k;
      assert i < |ls| && ls[i].key == k;
    }
    forall k | HasKey(ls, k) ensures HasKey(ls + [l], k) {
      var i :| 0 <= i < |ls| && ls[i].key == k;
      assert (ls + [l])[i].key == k;
    }
    assert (ls + [l])[|ls|] == l;
  }

  /** The keys of the lines, each once, in the order of their first occurrence. */
  function FirstSeen<K(==,!new)>(ls: seq<Line<K>>): (r: seq<K>)
    ensures forall i, j :: 0 <= i < j < |r| ==> r[i] != r[j]
    ensures forall k :: k in r <==> HasKey(ls, k)
    decreases |ls|
  {
    if ls == [] then []
    else
      var p := ls[..|ls| - 1];
      var l := ls[|ls| - 1];
      assert ls == p + [l];
      HasKeySnoc(p, l);
      var f := FirstSeen(p);
      if l.key in f then f else f + [l.key]
  }

  /** The position of the first line carrying key `k`. */
  ghost function FirstIndex<K(!new)>(ls: seq<Line<K>>, k: K): (i: nat)
    requires HasKey(ls, k)
    ensures i < |ls| && ls[i].key == k
    ensures forall j :: 0 <= j < i ==> ls[j].key != k
    decreases |ls|
  {
    var p := ls[..|ls| - 1];
    assert ls == p + [ls[|ls| - 1]];
    HasKeySnoc(p, ls[|ls| - 1]);
    if HasKey(p, k) then FirstIndex(p, k) else |ls| - 1
  }

  /** The sum of the quantities of the lines carrying key `k`. */
  function SumFor<K(==)>(ls: seq<Line<K>>, k: K): int
    decreases |ls|
  {
    if ls == [] then 0
    else
      var l := ls[|ls| - 1];
      SumFor(ls[..|ls| - 1], k) + (if l.key == k then l.qty else 0)
  }

  /** The sum of the quantities of all the lines. */
  function SumAll<K>(ls: seq<Line<K>>): int
    decreases |ls|
  {
    if ls == [] then 0 else SumAll(ls[..|ls| - 1]) + ls[|ls| - 1].qty
  }

  /** Each of the keys `ks`, paired with the total of its lines. */
  function Pairs<K(==)>(ks: seq<K>, ls: seq<Line<K>>): (e: seq<(K, int)>)
    ensures |e| == |ks|
    ensures forall i :: 0 <= i < |e| ==> e[i] == (ks[i], SumFor(ls, ks[i]))
  {
    seq(|ks|, i requires 0 <= i < |ks| => (ks[i], SumFor(ls, ks[i])))
  }

  /** One pair per distinct key, in first-seen order, with the total of that key. */
  function Aggregate<K(==,!new)>(ls: seq<Line<K>>): seq<(K, int)> {
    Pairs(FirstSeen(ls), ls)
  }

  /** The sum of the second components. */
  function TotalOf<K>(e: seq<(K, int)>): int
    decreases |e|
  {
    if e == [] then 0 else TotalOf(e[..|e| - 1]) + e[|e| - 1].1
  }

  // ---------------------------------------------------------------------------
  // One more line

  lemma FirstSeenSnoc<K(!new)>(ls: seq<Line<K>>, l: Line<K>)
    ensures FirstSeen(ls + [l]) == if l.key in FirstSeen(ls) then FirstSeen(ls) else FirstSeen(ls) + [l.key]
  {
    assert (ls + [l])[..|ls|] == ls;
  }

  lemma SumForSnoc<K>(ls: seq<Line<K>>, l: Line<K>, k: K)
    ensures SumFor(ls + [l], k) == SumFor(ls, k) + (if l.key == k then l.qty else 0)
  {
    assert (ls + [l])[..|ls|] == ls;
  }

  lemma SumAllSnoc<K>(ls: seq<Line<K>>, l: Line<K>)
    ensures SumAll(ls + [l]) == SumAll(ls) + l.qty
  {
    assert (ls + [l])[..|ls|] == ls;
  }

  /** A key no line carries totals 0. */
  lemma {:induction false} SumForAbsent<K(!new)>(ls: seq<Line<K>>, k: K)
    requires !HasKey(ls, k)
    ensures SumFor(ls, k) == 0
    decreases |ls|
  {
    if ls != [] {
      var p := ls[..|ls| - 1];
      assert ls == p + [ls[|ls| - 1]];
      HasKeySnoc(p, ls[|ls| - 1]);
      SumForAbsent(p, k);
    }
  }

  // ---------------------------------------------------------------------------
  // The dictionary

  /** Dictionary `m` holds, in first-seen order, the per-key totals of the lines `ls`. */
  ghost predicate Tallies<K(!new)>(m: OrderedRecord.Record<K>, ls: seq<Line<K>>) {
    && m.Valid()
    && m.keys == FirstSeen(ls)
    && forall k :: m.Get(k) == SumFor(ls, k)
  }

  /** The empty dictionary tallies no lines. */
  lemma TalliesEmpty<K(!new)>()
    ensures Tallies(OrderedRecord.Empty<K>(), [])
  {
  }

  /**
   * `map[key] = (map[key] || 0) + qty` keeps the dictionary tallying the lines
   * seen so far, now including this one.
   */
  lemma TalliesPut<K(!new)>(m: OrderedRecord.Record<K>, ls: seq<Line<K>>, l: Line<K>)
    requires Tallies(m, ls)
    ensures Tallies(m.Put(l.key, m.Get(l.key) + l.qty), ls + [l])
  {
    var m' := m.Put(l.key, m.Get(l.key) + l.qty);
    assert m'.Valid() by {
      m.PutValid(l.key, m.Get(l.key) + l.qty);
    }
    assert m'.keys == FirstSeen(ls + [l]) by {
      FirstSeenSnoc(ls, l);
    }
    forall k ensures m'.Get(k) == SumFor(ls + [l], k) {
      SumForSnoc(ls, l, k);
    }
  }

  /** `Object.entries` of a dictionary that tallies the lines is the aggregate of the lines. */
  lemma TalliesEntries<K(!new)>(m: OrderedRecord.Record<K>, ls: seq<Line<K>>)
    requires Tallies(m, ls)
    ensures m.Entries() == Aggregate(ls)
  {
  }

  // ---------------------------------------------------------------------------
  // Small cases

  /** One line aggregates to its own key and quantity. */
  lemma AggregateOne<K(!new)>(x: Line<K>)
    ensures Aggregate([x]) == [(x.key, x.qty)]
  {
    assert [x] == [] + [x];
    FirstSeenSnoc([], x);
    SumForSnoc([], x, x.key);
  }

  /** Two lines of one key merge into a single pair with the summed quantity. */
  lemma AggregateSameKey<K(!new)>(x: Line<K>, y: Line<K>)
    requires x.key == y.key
    ensures Aggregate([x, y]) == [(x.key, x.qty + y.qty)]
  {
    assert [x] == [] + [x];
    assert [x, y] == [x] + [y];
    FirstSeenSnoc([], x);
    FirstSeenSnoc([x], y);
    SumForSnoc([], x, x.key);
    SumForSnoc([x], y, x.key);
  }

  /** Two lines of different keys stay two pairs, in their order. */
  lemma AggregateTwoKeys<K(!new)>(x: Line<K>, y: Line<K>)
    requires x.key != y.key
    ensures Aggregate([x, y]) == [(x.key, x.qty), (y.key, y.qty)]
  {
    assert [x] == [] + [x];
    assert [x, y] == [x] + [y];
    FirstSeenSnoc([], x);
    FirstSeenSnoc([x], y);
    SumForSnoc([], x, x.key);
    SumForSnoc([x], y, x.key);
    SumForSnoc([], x, y.key);
    SumForSnoc([x], y, y.key);
  }

  // ---------------------------------------------------------------------------
  // Totals are conserved

  /** The sum, over the keys `ks`, of each key's total. */
  function SumKeys<K(==)>(ks: seq<K>, ls: seq<Line<K>>): int
    decreases |ks|
  {
    if ks == [] then 0 else SumKeys(ks[..|ks| - 1], ls) + SumFor(ls, ks[|ks| - 1])
  }

  /** One more line adds its quantity to the sum over distinct keys exactly when its key is one of them. */
  lemma {:induction false} SumKeysSnoc<K(!new)>(ks: seq<K>, ls: seq<Line<K>>, l: Line<K>)
    requires forall i, j :: 0 <= i < j < |ks| ==> ks[i] != ks[j]
    ensures SumKeys(ks, ls + [l]) == SumKeys(ks, ls) + (if l.key in ks then l.qty else 0)
    decreases |ks|
  {
    if ks != [] {
      var q := ks[..|ks| - 1];
      var k := ks[|ks| - 1];
      assert ks == q + [k];
      SumKeysSnoc(q, ls, l);
      SumForSnoc(ls, l, k);
      assert l.key in ks <==> l.key in q || l.key == k;
      assert k !in q;
    }
  }

  /** The pairs of distinct keys total the sum of those keys' totals. */
  lemma {:induction false} PairsTotal<K(!new)>(ks: seq<K>, ls: seq<Line<K>>)
    ensures TotalOf(Pairs(ks, ls)) == SumKeys(ks, ls)
    decreases |ks|
  {
    if ks != [] {
      var q := ks[..|ks| - 1];
      PairsTotal(q, ls);
      assert Pairs(ks, ls)[..|ks| - 1] == Pairs(q, ls);
    }
  }

  /** Summing per key loses and duplicates nothing: the aggregate totals every line once. */
  lemma {:induction false} AggregateTotal<K(!new)>(ls: seq<Line<K>>)
    ensures TotalOf(Aggregate(ls)) == SumAll(ls)
    decreases |ls|
  {
    PairsTotal(FirstSeen(ls), ls);
    if ls != [] {
      var p := ls[..|ls| - 1];
      var l := ls[|ls| - 1];
      var f := FirstSeen(p);
      assert ls == p + [l];
      AggregateTotal(p);
      PairsTotal(f, p);
      FirstSeenSnoc(p, l);
      SumAllSnoc(p, l);
      SumKeysSnoc(f, p, l);
      if l.key !in f {
        SumForAbsent(p, l.key);
        SumForSnoc(p, l, l.key);
        assert (f + [l.key])[..|f|] == f;
      }
    }
  }

  // ---------------------------------------------------------------------------
  // The lines whose key passes a test

  /** The lines whose key satisfies `keep`, in order. */
  function Select<K>(ls: seq<Line<K>>, keep: K -> bool): (r: seq<Line<K>>)
    ensures forall i :: 0 <= i < |r| ==> keep(r[i].key)
    decreases |ls|
  {
    if ls == [] then []
    else
      var p := Select(ls[..|ls| - 1], keep);
      var l := ls[|ls| - 1];
      if keep(l.key) then p + [l] else p
  }

  lemma SelectSnoc<K>(ls: seq<Line<K>>, l: Line<K>, keep: K -> bool)
    ensures keep(l.key) ==> Select(ls + [l], keep) == Select(ls, keep) + [l]
    ensures !keep(l.key) ==> Select(ls + [l], keep) == Select(ls, keep)
  {
    assert (ls + [l])[..|ls|] == ls;
  }

  /** The selected lines carry exactly the keys that pass the test and occur at all. */
  lemma {:induction false} SelectHasKey<K(!new)>(ls: seq<Line<K>>, keep: K -> bool, k: K)
    ensures HasKey(Select(ls, keep), k) <==> HasKey(ls, k) && keep(k)
    decreases |ls|
  {
    if ls != [] {
      var p := ls[..|ls| - 1];
      var l := ls[|ls| - 1];
      assert ls == p + [l];
      SelectHasKey(p, keep, k);
      SelectSnoc(p, l, keep);
      HasKeySnoc(p, l);
      HasKeySnoc(Select(p, keep), l);
    }
  }

  /** Selecting by key keeps every line of a key that passes. */
  lemma {:induction false} SelectSumFor<K(!new)>(ls: seq<Line<K>>, keep: K -> bool, k: K)
    requires keep(k)
    ensures SumFor(Select(ls, keep), k) == SumFor(ls, k)
    decreases |ls|
  {
    if ls != [] {
      var p := ls[..|ls| - 1];
      var l := ls[|ls| - 1];
      assert ls == p + [l];
      SelectSumFor(p, keep, k);
      SelectSnoc(p, l, keep);
      SumForSnoc(p, l, k);
      if keep(l.key) {
        SumForSnoc(Select(p, keep), l, k);
      }
    }
  }

  /**
   * The keys of the selected lines, in first-seen order, are ordered by where
   * each first occurs among all the lines.
   */
  lemma {:induction false} SelectOrder<K(!new)>(ls: seq<Line<K>>, keep: K -> bool, i: nat, j: nat)
    requires i < j < |FirstSeen(Select(ls, keep))|
    ensures HasKey(ls, FirstSeen(Select(ls, keep))[i]) && HasKey(ls, FirstSeen(Select(ls, keep))[j])
    ensures FirstIndex(ls, FirstSeen(Select(ls, keep))[i]) < FirstIndex(ls, FirstSeen(Select(ls, keep))[j])
    decreases |ls|
  {
    var f := FirstSeen(Select(ls, keep));
    SelectHasKey(ls, keep, f[i]);
    SelectHasKey(ls, keep, f[j]);
    var p := ls[..|ls| - 1];
    var l := ls[|ls| - 1];
    assert ls == p + [l];
    var fp := FirstSeen(Select(p, keep));
    SelectSnoc(p, l, keep);
    HasKeySnoc(p, l);
    SelectHasKey(p, keep, l.key);
    if keep(l.key) {
      FirstSeenSnoc(Select(p, keep), l);
    }
    if j < |fp| {
      assert f[i] == fp[i] && f[j] == fp[j];
      SelectHasKey(p, keep, fp[i]);
      SelectHasKey(p, keep, fp[j]);
      SelectOrder(p, keep, i, j);
    } else {
      assert f[j] == l.key && !HasKey(p, l.key);
      assert f[i] == fp[i];
      SelectHasKey(p, keep, fp[i]);
    }
  }
}
