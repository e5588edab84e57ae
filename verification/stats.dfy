/**
 The statistics endpoint of the server (`api_stats` in app.py): from the full
 list of consumption records and the two inventory capacities it derives the
 totals, the per-date and per-line groupings, the clamped remaining inventory
 and the daily averages.
 */
module Stats {

  import opened Quantities

  /** A stored consumption record, reduced to the columns the statistics read. */
  datatype Record = Record(date: string, line: string, rippon: int, labels: int)

  datatype Totals = Totals(rippon: int, labels: int, recordsCount: nat)

  datatype Inventory = Inventory(
    ripponCapacity: int,
    labelsCapacity: int,
    ripponRemaining: int,
    labelsRemaining: int)

  datatype Averages = Averages(dailyRippon: real, dailyLabels: real)

  /** The JSON object the endpoint returns. */
  datatype Snapshot = Snapshot(
    totals: Totals,
    byDate: map<string, Amounts>,
    byLine: map<string, Amounts>,
    inventory: Inventory,
    averages: Averages)

  /** Capacities used when the environment does not set them. */
  const DefaultRipponCapacity := 50
  const DefaultLabelsCapacity := 30

  /** The production lines every per-line grouping starts with. */
  const FixedLines: seq<string> := ["Line 1", "Line 2", "Line 3", "Line 4", "Line 6", "Line 7"]

  /** The column a grouping is keyed by. */
  datatype Key = Date | Line

  function KeyOf(r: Record, key: Key): string {
    match key
    case Date => r.date
    case Line => r.line
  }

  function AmountsOf(r: Record): Amounts {
    Amounts(r.rippon, r.labels)
  }

  /** Which records a sum takes in: all of them, or those with one key value. */
  datatype Scope = All | Only(key: Key, value: string)

  function Contribution(r: Record, scope: Scope): Amounts {
    match scope
    case All => AmountsOf(r)
    case Only(key, value) => if KeyOf(r, key) == value then AmountsOf(r) else Zero
  }

  /** Sum of the amounts of the records in scope, in list order. */
  function SumIn(rs: seq<Record>, scope: Scope): Amounts {
    if rs == [] then Zero
    else SumIn(rs[..|rs| - 1], scope).Plus(Contribution(rs[|rs| - 1], scope))
  }

  /** `sum(r.rippon for r in records)` and the same for labels. */
  function Total(rs: seq<Record>): Amounts {
    SumIn(rs, All)
  }

  /** Sum of the amounts of the records whose `key` column equals `value`. */
  function SumWhere(rs: seq<Record>, key: Key, value: string): Amounts {
    SumIn(rs, Only(key, value))
  }

  /** The distinct values of a column. */
  function KeysOf(rs: seq<Record>, key: Key): set<string> {
    set r | r in rs :: KeyOf(r, key)
  }

  /** Fold the records, in list order, into `seed` keyed by `key`. */
  function Group(seed: map<string, Amounts>, rs: seq<Record>, key: Key): map<string, Amounts> {
    if rs == [] then seed
    else
      var r := rs[|rs| - 1];
      Accumulate(Group(seed, rs[..|rs| - 1], key), KeyOf(r, key), AmountsOf(r))
  }

  /** `{ln: {"rippon": 0, "labels": 0} for ln in lines}` */
  function LineSeed(): map<string, Amounts> {
    map l | l in FixedLines :: Zero
  }

  function ByDate(rs: seq<Record>): map<string, Amounts> {
    Group(map[], rs, Date)
  }

  function ByLine(rs: seq<Record>): map<string, Amounts> {
    Group(LineSeed(), rs, Line)
  }

  /** `max(0, capacity - total)` */
  function Remaining(capacity: int, total: int): (r: int)
    ensures r >= 0 && r >= capacity - total
    ensures r == 0 || r == capacity - total
    ensures 0 <= total && 0 <= capacity ==> r <= capacity
  {
    if 0 >= capacity - total then 0 else capacity - total
  }

  /** `max(1, n)`: the day count the averages divide by. */
  function Days(distinctDates: nat): (d: nat)
    ensures d >= 1
    ensures distinctDates == 0 ==> d == 1
    ensures distinctDates >= 1 ==> d == distinctDates
  {
    if 1 >= distinctDates then 1 else distinctDates
  }

  /** `total / days if days else 0`, with Python's true division. */
  function DailyAverage(total: int, distinctDates: nat): (avg: real)
    ensures avg * Days(distinctDates) as real == total as real
  {
    var days := Days(distinctDates);
    if days != 0 then total as real / days as real else 0.0
  }

  /** The snapshot the endpoint returns for these records and capacities. */
  function StatsOf(records: seq<Record>, ripponCapacity: int, labelsCapacity: int): Snapshot {
    var total := Total(records);
    var dates := |KeysOf(records, Date)|;
    Snapshot(
      Totals(total.rippon, total.labels, |records|),
      ByDate(records),
      ByLine(records),
      Inventory(ripponCapacity, labelsCapacity,
                Remaining(ripponCapacity, total.rippon), Remaining(labelsCapacity, total.labels)),
      Averages(DailyAverage(total.rippon, dates), DailyAverage(total.labels, dates)))
  }

  /**
   The endpoint's computation: both groupings are dictionaries filled in
   place, one record at a time, in list order.
   */
  method ApiStats(records: seq<Record>, ripponCapacity: int, labelsCapacity: int) returns (s: Snapshot)
    ensures s == StatsOf(records, ripponCapacity, labelsCapacity)
  {
    var total := Total(records);

    var byDate: map<string, Amounts> := map[];
    for i := 0 to |records|
      invariant byDate == Group(map[], records[..i], Date)
    {
      var r := records[i];
      // setdefault, then `+=` on the shared inner entry, written back once
      var entry := if r.date in byDate then byDate[r.date] else Zero;
      entry := entry.(rippon := entry.rippon + r.rippon);
      entry := entry.(labels := entry.labels + r.labels);
      assert entry == Lookup(byDate, r.date).Plus(AmountsOf(r));
      byDate := byDate[r.date := entry];
      GroupStep(map[], records, i, Date);
    }

    var byLine: map<string, Amounts> := map l | l in FixedLines :: Zero;
    for i := 0 to |records|
      invariant byLine == Group(LineSeed(), records[..i], Line)
    {
      var r := records[i];
      // a line outside the fixed list gets a zero entry first
      var entry := if r.line in byLine then byLine[r.line] else Zero;
      entry := entry.(rippon := entry.rippon + r.rippon);
      entry := entry.(labels := entry.labels + r.labels);
      assert entry == Lookup(byLine, r.line).Plus(AmountsOf(r));
      byLine := byLine[r.line := entry];
      GroupStep(LineSeed(), records, i, Line);
    }
    assert records[..|records|] == records;

    var ripponRemaining := Remaining(ripponCapacity, total.rippon);
    var labelsRemaining := Remaining(labelsCapacity, total.labels);

    var dates := set r | r in records :: r.date;
    assert dates == KeysOf(records, Date);
    var avgRippon := DailyAverage(total.rippon, |dates|);
    var avgLabels := DailyAverage(total.labels, |dates|);

    s := Snapshot(
      Totals(total.rippon, total.labels, |records|),
      byDate,
      byLine,
      Inventory(ripponCapacity, labelsCapacity, ripponRemaining, labelsRemaining),
      Averages(avgRippon, avgLabels));
  }

  /** One more record folds into the grouping of the records before it. */
  lemma GroupStep(seed: map<string, Amounts>, rs: seq<Record>, i: nat, key: Key)
    requires i < |rs|
    ensures Group(seed, rs[..i + 1], key)
         == Accumulate(Group(seed, rs[..i], key), KeyOf(rs[i], key), AmountsOf(rs[i]))
  {
    assert rs[..i + 1][..i] == rs[..i];
  }

  // ---------------------------------------------------------------------
  // Sums over record lists

  /** Summing a concatenation sums the parts. */
  lemma {:induction false} SumInAppend(a: seq<Record>, b: seq<Record>, scope: Scope)
    ensures SumIn(a + b, scope) == SumIn(a, scope).Plus(SumIn(b, scope))
    decreases |b|
  {
    if b == [] {
      assert a + b == a;
    } else {
      var n := |b| - 1;
      assert (a + b)[..|a + b| - 1] == a + b[..n];
      SumInAppend(a, b[..n], scope);
    }
  }

  /** The totals of a list are those of all but its last record plus that record's amounts. */
  lemma TotalLast(rs: seq<Record>)
    requires rs != []
    ensures Total(rs) == Total(rs[..|rs| - 1]).Plus(AmountsOf(rs[|rs| - 1]))
  {
  }

  /** Taking the last element off one list and a copy of it off the other keeps them permutations. */
  lemma RemoveMatching(a: seq<Record>, b: seq<Record>, j: nat)
    requires multiset(a) == multiset(b)
    requires a != [] && j < |b| && b[j] == a[|a| - 1]
    ensures multiset(a[..|a| - 1]) == multiset(b[..j] + b[j + 1..])
    ensures b == b[..j] + [b[j]] + b[j + 1..]
  {
    var n, x := |a| - 1, a[|a| - 1];
    assert a == a[..n] + [x];
    assert b == b[..j] + [x] + b[j + 1..];
    assert multiset(a[..n]) == multiset(a) - multiset([x]);
    assert multiset(b[..j] + b[j + 1..]) == multiset(b) - multiset([x]);
  }

  /** Adding one record at the end adds its contribution. */
  lemma SumInSnoc(a: seq<Record>, x: Record, scope: Scope)
    ensures SumIn(a + [x], scope) == SumIn(a, scope).Plus(Contribution(x, scope))
  {
    assert (a + [x])[..|a|] == a;
  }

  /** Sums do not depend on the order of the records. */
  lemma {:induction false} SumInPermutation(a: seq<Record>, b: seq<Record>, scope: Scope)
    requires multiset(a) == multiset(b)
    ensures SumIn(a, scope) == SumIn(b, scope)
    decreases |a|
  {
    if a == [] {
      assert |b| == |multiset(b)| == 0;
      assert b == [];
    } else {
      var n := |a| - 1;
      var x := a[n];
      assert x in multiset(b);
      var j :| 0 <= j < |b| && b[j] == x;
      var front, back := b[..j], b[j + 1..];
      var c := Contribution(x, scope);
      RemoveMatching(a, b, j);
      SumInPermutation(a[..n], front + back, scope);
      SumInAppend(front, back, scope);
      SumInAppend(front + [x], back, scope);
      SumInSnoc(front, x, scope);
      assert SumIn(a, scope) == SumIn(a[..n], scope).Plus(c);
      var f, k := SumIn(front, scope), SumIn(back, scope);
      assert SumIn(a, scope) == f.Plus(k).Plus(c);
      assert SumIn(b, scope) == f.Plus(c).Plus(k);
      PlusSwap(f, k, c);
    }
  }

  /** A value no record carries sums to Zero. */
  lemma {:induction false} SumWhereAbsent(rs: seq<Record>, key: Key, value: string)
    requires value !in KeysOf(rs, key)
    ensures SumWhere(rs, key, value) == Zero
  {
    if rs != [] {
      var n := |rs| - 1;
      assert rs[n] in rs;
      assert KeysOf(rs[..n], key) <= KeysOf(rs, key);
      SumWhereAbsent(rs[..n], key, value);
    }
  }

  // ---------------------------------------------------------------------
  // The groupings

  /** The distinct values of a list with one more record. */
  lemma KeysOfStep(rs: seq<Record>, key: Key)
    requires rs != []
    ensures KeysOf(rs, key) == KeysOf(rs[..|rs| - 1], key) + {KeyOf(rs[|rs| - 1], key)}
  {
    var n := |rs| - 1;
    forall r | r in rs ensures r in rs[..n] || r == rs[n] {
      var i :| 0 <= i < |rs| && rs[i] == r;
      if i < n {
        assert rs[..n][i] == r;
      }
    }
    forall r | r in rs[..n] ensures r in rs {
      var i :| 0 <= i < n && rs[..n][i] == r;
      assert rs[i] == r;
    }
  }

  /** A grouping has a key for every seed key and every value the column takes. */
  lemma {:induction false} GroupKeys(seed: map<string, Amounts>, rs: seq<Record>, key: Key)
    ensures Group(seed, rs, key).Keys == seed.Keys + KeysOf(rs, key)
  {
    if rs == [] {
      assert KeysOf(rs, key) == {};
    } else {
      GroupKeys(seed, rs[..|rs| - 1], key);
      KeysOfStep(rs, key);
    }
  }

  /** One more record adds its contribution to the entry for its own value only. */
  lemma GroupLookupLast(seed: map<string, Amounts>, rs: seq<Record>, key: Key, k: string)
    requires rs != []
    ensures Lookup(Group(seed, rs, key), k)
         == Lookup(Group(seed, rs[..|rs| - 1], key), k).Plus(Contribution(rs[|rs| - 1], Only(key, k)))
  {
    var r := rs[|rs| - 1];
    var g' := Group(seed, rs[..|rs| - 1], key);
    assert Group(seed, rs, key) == Accumulate(g', KeyOf(r, key), AmountsOf(r));
  }

  /**
   Looking a value up in a grouping gives its seed entry plus the sum of the
   records carrying that value (Zero plus Zero for a value that is in neither).
   */
  lemma {:induction false} GroupLookup(seed: map<string, Amounts>, rs: seq<Record>, key: Key, k: string)
    ensures Lookup(Group(seed, rs, key), k) == Lookup(seed, k).Plus(SumWhere(rs, key, k))
  {
    if rs != [] {
      var n := |rs| - 1;
      var c := Contribution(rs[n], Only(key, k));
      GroupLookup(seed, rs[..n], key, k);
      GroupLookupLast(seed, rs, key, k);
      assert SumWhere(rs, key, k) == SumWhere(rs[..n], key, k).Plus(c);
    }
  }

  /**
   What a grouping holds: a key for every seed key and every value the
   column takes, and for each key its seed entry plus the sum of the records
   carrying that value.
   */
  lemma GroupContents(seed: map<string, Amounts>, rs: seq<Record>, key: Key)
    ensures Group(seed, rs, key).Keys == seed.Keys + KeysOf(rs, key)
    ensures forall k :: k in Group(seed, rs, key) ==>
      Group(seed, rs, key)[k] == Lookup(seed, k).Plus(SumWhere(rs, key, k))
  {
    GroupKeys(seed, rs, key);
    forall k | k in Group(seed, rs, key)
      ensures Group(seed, rs, key)[k] == Lookup(seed, k).Plus(SumWhere(rs, key, k))
    {
      GroupLookup(seed, rs, key, k);
    }
  }

  /** The per-date grouping has exactly the dates that occur, each with its sum. */
  lemma ByDateContents(rs: seq<Record>)
    ensures ByDate(rs).Keys == KeysOf(rs, Date)
    ensures forall d :: d in ByDate(rs) ==> ByDate(rs)[d] == SumWhere(rs, Date, d)
  {
    GroupContents(map[], rs, Date);
  }

  /**
   The per-line grouping always has the six fixed lines, a fixed line without
   records holds Zero, and a line outside the list gets a key of its own.
   */
  lemma ByLineContents(rs: seq<Record>)
    ensures ByLine(rs).Keys == (set l | l in FixedLines) + KeysOf(rs, Line)
    ensures forall l :: l in ByLine(rs) ==> ByLine(rs)[l] == SumWhere(rs, Line, l)
    ensures forall l :: l in FixedLines && l !in KeysOf(rs, Line) ==> ByLine(rs)[l] == Zero
  {
    GroupContents(LineSeed(), rs, Line);
    forall l | l in FixedLines && l !in KeysOf(rs, Line) ensures ByLine(rs)[l] == Zero {
      SumWhereAbsent(rs, Line, l);
    }
  }

  /** One more record grows the sum of a grouping's entries by that record's amounts. */
  lemma GroupSumLast(seed: map<string, Amounts>, rs: seq<Record>, key: Key)
    requires rs != []
    ensures SumValues(Group(seed, rs, key))
         == SumValues(Group(seed, rs[..|rs| - 1], key)).Plus(AmountsOf(rs[|rs| - 1]))
  {
    var r := rs[|rs| - 1];
    AccumulateSum(Group(seed, rs[..|rs| - 1], key), KeyOf(r, key), AmountsOf(r));
  }

  /** Folding records into a seed adds their total to the seed's sum. */
  lemma {:induction false} GroupSum(seed: map<string, Amounts>, rs: seq<Record>, key: Key)
    ensures SumValues(Group(seed, rs, key)) == SumValues(seed).Plus(Total(rs))
  {
    if rs != [] {
      var n := |rs| - 1;
      GroupSum(seed, rs[..n], key);
      GroupSumLast(seed, rs, key);
      TotalLast(rs);
    }
  }

  /** Nothing is dropped or counted twice: the per-date entries add up to the totals. */
  lemma ByDateSumsToTotal(rs: seq<Record>)
    ensures SumValues(ByDate(rs)) == Total(rs)
  {
    GroupSum(map[], rs, Date);
    SumValuesZero(map[]);
  }

  /** The per-line entries, unknown lines included, add up to the totals. */
  lemma ByLineSumsToTotal(rs: seq<Record>)
    ensures SumValues(ByLine(rs)) == Total(rs)
  {
    GroupSum(LineSeed(), rs, Line);
    SumValuesZero(LineSeed());
  }

  /** Permuted record lists have the same distinct column values. */
  lemma KeysOfPermutation(a: seq<Record>, b: seq<Record>, key: Key)
    requires multiset(a) == multiset(b)
    ensures KeysOf(a, key) == KeysOf(b, key)
  {
    forall r ensures r in a <==> r in b {
      assert r in a <==> r in multiset(a);
      assert r in b <==> r in multiset(b);
    }
  }

  /** Groupings do not depend on the order of the records. */
  lemma GroupPermutation(seed: map<string, Amounts>, a: seq<Record>, b: seq<Record>, key: Key)
    requires multiset(a) == multiset(b)
    ensures Group(seed, a, key) == Group(seed, b, key)
  {
    var ga, gb := Group(seed, a, key), Group(seed, b, key);
    KeysOfPermutation(a, b, key);
    GroupContents(seed, a, key);
    GroupContents(seed, b, key);
    assert ga.Keys == gb.Keys;
    forall k | k in ga ensures ga[k] == gb[k] {
      SumInPermutation(a, b, Only(key, k));
    }
  }

  /** Reordering the records changes nothing in the snapshot. */
  lemma OrderIndependent(a: seq<Record>, b: seq<Record>, ripponCapacity: int, labelsCapacity: int)
    requires multiset(a) == multiset(b)
    ensures StatsOf(a, ripponCapacity, labelsCapacity) == StatsOf(b, ripponCapacity, labelsCapacity)
  {
    SumInPermutation(a, b, All);
    assert |a| == |multiset(a)| == |multiset(b)| == |b|;
    KeysOfPermutation(a, b, Date);
    GroupPermutation(map[], a, b, Date);
    GroupPermutation(LineSeed(), a, b, Line);
  }

  // ---------------------------------------------------------------------
  // Inventory and averages

  /** Remaining stock is clamped at zero and never exceeds the capacity for non-negative use. */
  lemma InventoryBounds(records: seq<Record>, ripponCapacity: int, labelsCapacity: int)
    ensures var s := StatsOf(records, ripponCapacity, labelsCapacity);
      && s.inventory.ripponRemaining >= 0
      && s.inventory.labelsRemaining >= 0
      && (0 <= s.totals.rippon && 0 <= ripponCapacity ==> s.inventory.ripponRemaining <= ripponCapacity)
      && (0 <= s.totals.labels && 0 <= labelsCapacity ==> s.inventory.labelsRemaining <= labelsCapacity)
  {
  }

  /** A sequence is empty exactly when it has no distinct values in a column. */
  lemma KeysOfEmpty(rs: seq<Record>, key: Key)
    ensures KeysOf(rs, key) == {} <==> rs == []
  {
    if rs != [] {
      assert KeyOf(rs[0], key) in KeysOf(rs, key);
    }
  }

  /**
   With no records the averages are zero; otherwise each average times the
   number of distinct dates is the total.
   */
  lemma AveragesMeaning(records: seq<Record>, ripponCapacity: int, labelsCapacity: int)
    ensures var s := StatsOf(records, ripponCapacity, labelsCapacity);
      records == [] ==> s.averages == Averages(0.0, 0.0)
    ensures var s := StatsOf(records, ripponCapacity, labelsCapacity);
      var dates := |KeysOf(records, Date)| as real;
      records != [] ==>
        && dates >= 1.0
        && s.averages.dailyRippon * dates == s.totals.rippon as real
        && s.averages.dailyLabels * dates == s.totals.labels as real
  {
    KeysOfEmpty(records, Date);
    if records != [] {
      assert |KeysOf(records, Date)| >= 1;
    }
  }
}
