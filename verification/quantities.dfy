/**
 The pair of consumed quantities the tracker keeps for every grouping
 (`{"rippon": .., "labels": ..}` in the server's dictionaries), and sums of
 such pairs over maps and sequences.
 */
module Quantities {

  /** Amounts of the two materials, rippon and labels. */
  datatype Amounts = Amounts(rippon: int, labels: int) {

    /** Field-wise addition, the `+=` on both fields of a grouping entry. */
    function Plus(other: Amounts): Amounts {
      Amounts(rippon + other.rippon, labels + other.labels)
    }
  }

  /** Adding two amounts in either order gives the same result. */
  lemma PlusSwap(x: Amounts, y: Amounts, z: Amounts)
    ensures x.Plus(y).Plus(z) == x.Plus(z).Plus(y)
    ensures x.Plus(y.Plus(z)) == y.Plus(x.Plus(z))
  {
  }

  /** The entry a grouping starts from: `{"rippon": 0, "labels": 0}`. */
  const Zero := Amounts(0, 0)

  /** The entry for `k`, or Zero when `k` has none. */
  function Lookup(m: map<string, Amounts>, k: string): Amounts {
    if k in m then m[k] else Zero
  }

  /**
   Add `a` to the entry for `k`, creating a zero entry first when there is
   none (the `setdefault` / `if k not in m` step followed by `+=`).
   */
  function Accumulate(m: map<string, Amounts>, k: string, a: Amounts): map<string, Amounts> {
    m[k := Lookup(m, k).Plus(a)]
  }

  /** Sum of all the values of a map, in no particular key order. */
  ghost function SumValues(m: map<string, Amounts>): Amounts
    decreases |m|
  {
    if |m| == 0 then Zero
    else
      var k :| k in m;
      m[k].Plus(SumValues(m - {k}))
  }

  /** Sum of a sequence of amounts. */
  function SumSeq(xs: seq<Amounts>): Amounts {
    if xs == [] then Zero else SumSeq(xs[..|xs| - 1]).Plus(xs[|xs| - 1])
  }

  /**
   The entries of `m` for the keys `ks`, in the order of `ks`, with Zero for a
   key that `m` lacks (the `labels.map(l => m[l] ? m[l] : 0)` shape).
   */
  function ValuesAt(m: map<string, Amounts>, ks: seq<string>): (xs: seq<Amounts>)
    ensures |xs| == |ks|
    ensures forall i :: 0 <= i < |ks| ==> xs[i] == Lookup(m, ks[i])
  {
    if ks == [] then [] else ValuesAt(m, ks[..|ks| - 1]) + [Lookup(m, ks[|ks| - 1])]
  }

  /** No key occurs twice in `ks`. */
  predicate Distinct(ks: seq<string>) {
    forall i, j :: 0 <= i < j < |ks| ==> ks[i] != ks[j]
  }

  /** Removing any one key splits the sum: the choice inside SumValues does not matter. */
  lemma {:induction false} SumValuesPick(m: map<string, Amounts>, k: string)
    requires k in m
    ensures SumValues(m) == m[k].Plus(SumValues(m - {k}))
    decreases |m|
  {
    var j :| j in m && SumValues(m) == m[j].Plus(SumValues(m - {j}));
    if j != k {
      var mj, mk := m - {j}, m - {k};
      var rest := mj - {k};
      assert mk - {j} == rest;
      SumValuesPick(mj, k);
      SumValuesPick(mk, j);
      var s := SumValues(rest);
      assert SumValues(mj) == m[k].Plus(s);
      assert SumValues(mk) == m[j].Plus(s);
      assert SumValues(m) == m[j].Plus(m[k].Plus(s));
      PlusSwap(m[j], m[k], s);
    }
  }

  /** Adding `a` to an existing entry grows the sum of the values by `a`. */
  lemma AddToEntrySum(m: map<string, Amounts>, k: string, a: Amounts)
    requires k in m
    ensures SumValues(m[k := m[k].Plus(a)]) == SumValues(m).Plus(a)
  {
    var m' := m[k := m[k].Plus(a)];
    assert m' - {k} == m - {k};
    SumValuesPick(m', k);
    SumValuesPick(m, k);
  }

  /** Removing a key just added to a map gives back the map. */
  lemma RemoveAdded(m: map<string, Amounts>, k: string, a: Amounts)
    requires k !in m
    ensures m[k := a] - {k} == m
  {
  }

  /** Adding a new entry `a` grows the sum of the values by `a`. */
  lemma NewEntrySum(m: map<string, Amounts>, k: string, a: Amounts)
    requires k !in m
    ensures SumValues(m[k := a]) == SumValues(m).Plus(a)
  {
    RemoveAdded(m, k, a);
    SumValuesPick(m[k := a], k);
  }

  /** Accumulating `a` into a map grows the sum of its values by exactly `a`. */
  lemma AccumulateSum(m: map<string, Amounts>, k: string, a: Amounts)
    ensures SumValues(Accumulate(m, k, a)) == SumValues(m).Plus(a)
  {
    if k in m {
      AddToEntrySum(m, k, a);
    } else {
      assert Lookup(m, k).Plus(a) == a;
      NewEntrySum(m, k, a);
    }
  }

  /** A map whose every value is Zero sums to Zero. */
  lemma {:induction false} SumValuesZero(m: map<string, Amounts>)
    requires forall k :: k in m ==> m[k] == Zero
    ensures SumValues(m) == Zero
    decreases |m|
  {
    if |m| != 0 {
      var k :| k in m;
      SumValuesPick(m, k);
      SumValuesZero(m - {k});
    }
  }

  /** Two maps that agree on every key of `ks` give the same values for `ks`. */
  lemma ValuesAtAgree(m: map<string, Amounts>, m': map<string, Amounts>, ks: seq<string>)
    requires forall i :: 0 <= i < |ks| ==> Lookup(m, ks[i]) == Lookup(m', ks[i])
    ensures ValuesAt(m, ks) == ValuesAt(m', ks)
  {
  }

  /** Dropping the last key of an enumeration enumerates the map without that key. */
  lemma DropLastKey(m: map<string, Amounts>, ks: seq<string>)
    requires ks != [] && Distinct(ks)
    requires forall k :: k in m <==> k in ks
    ensures Distinct(ks[..|ks| - 1])
    ensures forall j :: (j in m && j != ks[|ks| - 1]) <==> j in ks[..|ks| - 1]
  {
    var n := |ks| - 1;
    forall j ensures (j in m && j != ks[n]) <==> j in ks[..n] {
      if j in ks[..n] {
        var i :| 0 <= i < n && ks[..n][i] == j;
        assert ks[i] == j;
      }
      if j in ks && j != ks[n] {
        var i :| 0 <= i < |ks| && ks[i] == j;
        assert ks[..n][i] == j;
      }
    }
  }

  /**
   Listing every key of a map exactly once and summing the entries in that
   order gives the sum of the map's values.
   */
  lemma {:induction false} SumValuesAsSeq(m: map<string, Amounts>, ks: seq<string>)
    requires Distinct(ks)
    requires forall k :: k in m <==> k in ks
    ensures SumSeq(ValuesAt(m, ks)) == SumValues(m)
  {
    if ks == [] {
      assert m.Keys == {};
    } else {
      var n := |ks| - 1;
      var k, ks' := ks[n], ks[..n];
      var m' := m - {k};
      DropLastKey(m, ks);
      SumValuesAsSeq(m', ks');
      ValuesAtAgree(m, m', ks');
      var xs := ValuesAt(m, ks);
      assert xs[..n] == ValuesAt(m, ks');
      assert SumSeq(xs) == SumSeq(ValuesAt(m', ks')).Plus(m[k]);
      SumValuesPick(m, k);
    }
  }
}
