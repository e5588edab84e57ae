/**
 The dashboard's decisions and chart series, computed from one statistics
 snapshot: the stock percentages and the reorder banner, the seven-day
 depletion projection with its alerts, the per-line and per-date chart
 series, and the required-field check of the entry form. Amounts are exact
 reals; the browser's floating-point rounding is not modelled.
 */
module Dashboard {
  import opened Quantities
  import opened StringOrder
  import Stats

  // ---------------------------------------------------------------------
  // Stock percentages and the reorder banner

  /** `Math.max(0, x)` */
  function Max0(x: real): (m: real)
    ensures m >= 0.0 && m >= x
    ensures m == 0.0 || m == x
  {
    if x > 0.0 then x else 0.0
  }

  /**
   A percentage as the browser computes it. With a zero capacity the
   quotient is +Infinity or NaN (`Math.max(0, -Infinity)` is 0); both
   compare false against any threshold, which is all the banner needs.
   */
  datatype Level = Pct(value: real) | NonFinite

  /** `Math.max(0, (remaining / capacity) * 100)` */
  function Percent(remaining: int, capacity: int): (p: Level)
    ensures capacity != 0 ==> p.Pct? && p.value >= 0.0
    ensures capacity != 0 ==> p.value >= remaining as real / capacity as real * 100.0
    ensures capacity != 0 ==> p.value == 0.0 || p.value == remaining as real / capacity as real * 100.0
    ensures capacity == 0 ==> (p.NonFinite? <==> remaining >= 0)
    ensures capacity == 0 && remaining < 0 ==> p == Pct(0.0)
  {
    if capacity == 0 then (if remaining < 0 then Pct(0.0) else NonFinite)
    else Pct(Max0(remaining as real / capacity as real * 100.0))
  }

  /** `level < threshold`, false for Infinity and NaN. */
  predicate Below(level: Level, threshold: real) {
    level.Pct? && level.value < threshold
  }

  /** The three states of the reorder banner. */
  datatype Banner = LabelsLow | RipponLow | Hidden

  /**
   The banner's ordered checks: labels under 10 % first, then rippon under
   20 %, otherwise hidden. Low labels win even when rippon is low too.
   */
  function ReorderBanner(ripponPercent: Level, labelPercent: Level): (b: Banner)
    ensures b == LabelsLow <==> Below(labelPercent, 10.0)
    ensures b == RipponLow <==> !Below(labelPercent, 10.0) && Below(ripponPercent, 20.0)
    ensures b == Hidden <==> !Below(labelPercent, 10.0) && !Below(ripponPercent, 20.0)
  {
    if Below(labelPercent, 10.0) then LabelsLow
    else if Below(ripponPercent, 20.0) then RipponLow
    else Hidden
  }

  /** For a positive capacity the percentage lies under `t` exactly when `100 * remaining < t * capacity`. */
  lemma PercentBelow(remaining: int, capacity: int, t: nat)
    requires capacity > 0 && t > 0
    ensures Below(Percent(remaining, capacity), t as real) <==> 100 * remaining < t * capacity
  {
    var q := remaining as real / capacity as real;
    assert q * capacity as real == remaining as real;
    if remaining > 0 {
      assert q > 0.0;
      assert Percent(remaining, capacity).value == q * 100.0;
      assert (q * 100.0 < t as real) <==> (q * 100.0 * capacity as real < t as real * capacity as real);
    } else {
      assert q <= 0.0;
    }
  }

  /** With stock between zero and a positive capacity the percentage is between 0 and 100. */
  lemma PercentInRange(remaining: int, capacity: int)
    requires capacity > 0 && 0 <= remaining <= capacity
    ensures Percent(remaining, capacity).Pct?
    ensures 0.0 <= Percent(remaining, capacity).value <= 100.0
    ensures remaining == capacity ==> Percent(remaining, capacity).value == 100.0
  {
    var q := remaining as real / capacity as real;
    assert q * capacity as real == remaining as real;
    assert 0.0 <= q <= 1.0;
    assert Percent(remaining, capacity).value == q * 100.0;
    if remaining == capacity {
      assert (q - 1.0) * capacity as real == 0.0;
    }
  }

  /** The banner shown for an inventory. */
  function InventoryBanner(inventory: Stats.Inventory): Banner {
    ReorderBanner(
      Percent(inventory.ripponRemaining, inventory.ripponCapacity),
      Percent(inventory.labelsRemaining, inventory.labelsCapacity))
  }

  /**
   The banner in whole numbers. With positive capacities labels are low
   when less than a tenth of their capacity is left, and rippon when less
   than a fifth is left and labels are not low. With a zero capacity and
   no negative stock that material never shows.
   */
  lemma BannerThresholds(inventory: Stats.Inventory)
    ensures inventory.labelsCapacity > 0 ==>
      (InventoryBanner(inventory) == LabelsLow <==> 10 * inventory.labelsRemaining < inventory.labelsCapacity)
    ensures inventory.labelsCapacity > 0 && inventory.ripponCapacity > 0 ==>
      (InventoryBanner(inventory) == RipponLow <==>
         && 10 * inventory.labelsRemaining >= inventory.labelsCapacity
         && 5 * inventory.ripponRemaining < inventory.ripponCapacity)
    ensures inventory.labelsCapacity == 0 && inventory.labelsRemaining >= 0 ==> InventoryBanner(inventory) != LabelsLow
    ensures inventory.ripponCapacity == 0 && inventory.ripponRemaining >= 0 ==> InventoryBanner(inventory) != RipponLow
  {
    if inventory.labelsCapacity > 0 {
      PercentBelow(inventory.labelsRemaining, inventory.labelsCapacity, 10);
    }
    if inventory.ripponCapacity > 0 {
      PercentBelow(inventory.ripponRemaining, inventory.ripponCapacity, 20);
    }
  }

  // ---------------------------------------------------------------------
  // Depletion projection and alerts

  /** Days ahead the projection reaches; it has one point more, for today. */
  const ProjectionDays: nat := 7

  /** Stand-in for a zero daily average, so that the division below is always defined. */
  const Epsilon: real := 0.0001

  /** `average || 0.0001` */
  function Rate(average: real): (r: real)
    ensures r != 0.0
    ensures average == 0.0 ==> r == Epsilon
    ensures average != 0.0 ==> r == average
    ensures average >= 0.0 ==> r > 0.0
  {
    if average == 0.0 then Epsilon else average
  }

  /** Stock expected `i` days ahead when `average` is used per day, never below zero. */
  function ProjectedAt(remaining: int, average: real, i: nat): real {
    Max0(remaining as real - Rate(average) * i as real)
  }

  /** The projected series for days 0 to 7. */
  function Projection(remaining: int, average: real): (xs: seq<real>)
    ensures |xs| == ProjectionDays + 1
    ensures forall i :: 0 <= i < |xs| ==> xs[i] == ProjectedAt(remaining, average, i)
  {
    seq(ProjectionDays + 1, i requires 0 <= i => ProjectedAt(remaining, average, i))
  }

  /** A series with the projected value at every one of the eight days is the projection. */
  lemma ProjectionFromPoints(xs: seq<real>, remaining: int, average: real)
    requires |xs| == ProjectionDays + 1
    requires forall i :: 0 <= i < |xs| ==> xs[i] == ProjectedAt(remaining, average, i)
    ensures xs == Projection(remaining, average)
  {
  }

  /** `Math.floor(remaining / (average || 0.0001))`: whole days until the stock runs out. */
  function DaysLeft(remaining: int, average: real): int {
    (remaining as real / Rate(average)).Floor
  }

  /** The messages under the projection chart. */
  datatype Alert = LabelsRunOut(days: int) | RipponRunOut(days: int) | Sufficient

  /**
   The alerts for the two day counts: each material that runs out within
   the projection gets its message, labels first, and the "sufficient"
   message appears alone when neither does.
   */
  function ReorderAlerts(labelsDays: int, ripponDays: int): (alerts: seq<Alert>)
    ensures LabelsRunOut(labelsDays) in alerts <==> labelsDays < ProjectionDays
    ensures RipponRunOut(ripponDays) in alerts <==> ripponDays < ProjectionDays
    ensures Sufficient in alerts <==> labelsDays >= ProjectionDays && ripponDays >= ProjectionDays
    ensures 1 <= |alerts| <= 2
    ensures Sufficient in alerts ==> alerts == [Sufficient]
    ensures |alerts| == 2 ==> alerts == [LabelsRunOut(labelsDays), RipponRunOut(ripponDays)]
  {
    var labels := if labelsDays < ProjectionDays then [LabelsRunOut(labelsDays)] else [];
    var rippon := if ripponDays < ProjectionDays then [RipponRunOut(ripponDays)] else [];
    if labels + rippon == [] then [Sufficient] else labels + rippon
  }

  /**
   The reorder chart and its alerts for a snapshot: one point per day for
   each material, pushed in a loop, then the alert messages appended one
   by one.
   */
  method UpdateReorderChart(stats: Stats.Snapshot) returns (ripponData: seq<real>, labelsData: seq<real>, alerts: seq<Alert>)
    ensures ripponData == Projection(stats.inventory.ripponRemaining, stats.averages.dailyRippon)
    ensures labelsData == Projection(stats.inventory.labelsRemaining, stats.averages.dailyLabels)
    ensures alerts == ReorderAlerts(
      DaysLeft(stats.inventory.labelsRemaining, stats.averages.dailyLabels),
      DaysLeft(stats.inventory.ripponRemaining, stats.averages.dailyRippon))
  {
    var ripponRemaining := stats.inventory.ripponRemaining;
    var labelsRemaining := stats.inventory.labelsRemaining;
    var avgRippon := Rate(stats.averages.dailyRippon);  // `|| 0.0001`
    var avgLabels := Rate(stats.averages.dailyLabels);

    ripponData, labelsData := [], [];
    for i := 0 to ProjectionDays + 1
      invariant |ripponData| == i && |labelsData| == i
      invariant forall j :: 0 <= j < i ==> ripponData[j] == ProjectedAt(ripponRemaining, stats.averages.dailyRippon, j)
      invariant forall j :: 0 <= j < i ==> labelsData[j] == ProjectedAt(labelsRemaining, stats.averages.dailyLabels, j)
    {
      var rippon := Max0(ripponRemaining as real - avgRippon * i as real);
      var labels := Max0(labelsRemaining as real - avgLabels * i as real);
      assert rippon == ProjectedAt(ripponRemaining, stats.averages.dailyRippon, i);
      assert labels == ProjectedAt(labelsRemaining, stats.averages.dailyLabels, i);
      ripponData := ripponData + [rippon];
      labelsData := labelsData + [labels];
    }
    ProjectionFromPoints(ripponData, ripponRemaining, stats.averages.dailyRippon);
    ProjectionFromPoints(labelsData, labelsRemaining, stats.averages.dailyLabels);

    var ripponDays := (ripponRemaining as real / avgRippon).Floor;
    var labelsDays := (labelsRemaining as real / avgLabels).Floor;
    assert ripponDays == DaysLeft(ripponRemaining, stats.averages.dailyRippon);
    assert labelsDays == DaysLeft(labelsRemaining, stats.averages.dailyLabels);
    alerts := ReorderInfo(labelsDays, ripponDays);
  }

  /** The alert messages, appended one by one as the day counts are checked. */
  method ReorderInfo(labelsDays: int, ripponDays: int) returns (alerts: seq<Alert>)
    ensures alerts == ReorderAlerts(labelsDays, ripponDays)
  {
    alerts := [];
    if labelsDays < ProjectionDays {
      alerts := alerts + [LabelsRunOut(labelsDays)];
    }
    if ripponDays < ProjectionDays {
      alerts := alerts + [RipponRunOut(ripponDays)];
    }
    if alerts == [] {
      alerts := [Sufficient];
    }
  }

  /** With a non-negative average a later day never projects more stock. */
  lemma ProjectedAtFalls(remaining: int, average: real, i: nat, j: nat)
    requires average >= 0.0 && i <= j
    ensures ProjectedAt(remaining, average, i) >= ProjectedAt(remaining, average, j)
  {
    var r := Rate(average);
    assert r * j as real == r * i as real + r * (j - i) as real;
    assert r * (j - i) as real >= 0.0;
  }

  /**
   Every projected point is non-negative, today's point is the current
   stock (zero if negative), and with a non-negative average the series
   never rises.
   */
  lemma ProjectionShape(remaining: int, average: real)
    ensures forall i :: 0 <= i < |Projection(remaining, average)| ==> Projection(remaining, average)[i] >= 0.0
    ensures Projection(remaining, average)[0] == Max0(remaining as real)
    ensures average >= 0.0 ==> forall i, j :: 0 <= i <= j < |Projection(remaining, average)| ==>
      Projection(remaining, average)[i] >= Projection(remaining, average)[j]
  {
    var xs := Projection(remaining, average);
    if average >= 0.0 {
      forall i, j | 0 <= i <= j < |xs| ensures xs[i] >= xs[j] {
        ProjectedAtFalls(remaining, average, i, j);
      }
    }
  }

  /** `floor(q) < n` exactly when `q < n`, for a whole number `n`. */
  lemma FloorBelow(q: real, n: int)
    ensures q.Floor < n <==> q < n as real
  {
  }

  /**
   With a positive rate, a material runs out within `n` days of the
   projection exactly when its stock is less than `n` days of use.
   */
  lemma DaysLeftBelow(remaining: int, average: real, n: int)
    requires Rate(average) > 0.0
    ensures DaysLeft(remaining, average) < n <==> remaining as real < n as real * Rate(average)
  {
    var r := Rate(average);
    var q := remaining as real / r;
    assert q * r == remaining as real;
    FloorBelow(q, n);
    assert q < n as real <==> q * r < n as real * r;
  }

  /**
   With a positive rate, the alert for a material agrees with the chart:
   it shows exactly when the stock is used up before the last day, and
   then the projection has reached zero by that day.
   */
  lemma AlertAgreesWithProjection(remaining: int, average: real)
    requires Rate(average) > 0.0
    ensures DaysLeft(remaining, average) < ProjectionDays <==>
      remaining as real - Rate(average) * ProjectionDays as real < 0.0
    ensures DaysLeft(remaining, average) < ProjectionDays ==>
      Projection(remaining, average)[ProjectionDays] == 0.0
    ensures DaysLeft(remaining, average) >= ProjectionDays ==>
      forall i :: 0 <= i < ProjectionDays ==> Projection(remaining, average)[i] > 0.0
  {
    DaysLeftBelow(remaining, average, ProjectionDays);
    if DaysLeft(remaining, average) >= ProjectionDays {
      forall i | 0 <= i < ProjectionDays ensures Projection(remaining, average)[i] > 0.0 {
        StockBeforeRunOut(remaining, average, i, ProjectionDays);
      }
    }
  }

  /** Stock that lasts `n` days at a positive rate is still there on every earlier day. */
  lemma StockBeforeRunOut(remaining: int, average: real, i: nat, n: nat)
    requires Rate(average) > 0.0 && i < n
    requires remaining as real >= n as real * Rate(average)
    ensures ProjectedAt(remaining, average, i) > 0.0
  {
    var r := Rate(average);
    assert r * n as real == r * i as real + r * (n - i) as real;
    assert r * (n - i) as real > 0.0;
  }

  /**
   With no recorded use the 0.0001 stand-in makes a material alert exactly
   when its stock is zero or less.
   */
  lemma IdleAlert(remaining: int)
    ensures DaysLeft(remaining, 0.0) < ProjectionDays <==> remaining <= 0
  {
    var q := remaining as real / Epsilon;
    assert q == (10000 * remaining) as real;
  }

  // ---------------------------------------------------------------------
  // Chart series

  /**
   A chart's category axis and, per category, the rippon value (first
   dataset) and the labels value (second dataset) as one pair.
   */
  datatype Chart = Chart(categories: seq<string>, points: seq<Amounts>)

  /** The category axis of the per-line chart, fixed when the chart is created. */
  const ChartLines: seq<string> := ["Line 1", "Line 2", "Line 3", "Line 4", "Line 6", "Line 7"]

  /**
   The per-line chart: one point per fixed category, the line's entry when
   the snapshot has one and zero otherwise.
   */
  function LineChart(byLine: map<string, Amounts>): (c: Chart)
    ensures c.categories == ChartLines && |c.points| == |ChartLines|
    ensures forall i :: 0 <= i < |ChartLines| && ChartLines[i] in byLine ==> c.points[i] == byLine[ChartLines[i]]
    ensures forall i :: 0 <= i < |ChartLines| && ChartLines[i] !in byLine ==> c.points[i] == Zero
  {
    Chart(ChartLines, ValuesAt(byLine, ChartLines))
  }

  /** Lines outside the fixed categories do not affect the per-line chart. */
  lemma LineChartIgnoresOtherLines(byLine: map<string, Amounts>, other: map<string, Amounts>)
    requires forall l :: l in ChartLines ==> Lookup(byLine, l) == Lookup(other, l)
    ensures LineChart(byLine) == LineChart(other)
  {
    ValuesAtAgree(byLine, other, ChartLines);
  }

  /**
   The per-date chart: the snapshot's dates in ascending order, each once,
   and for each date its entry.
   */
  function DailyChart(byDate: map<string, Amounts>): (c: Chart)
    ensures Ascending(c.categories)
    ensures forall d :: d in c.categories <==> d in byDate
    ensures |c.categories| == |byDate| && |c.points| == |c.categories|
    ensures forall k :: 0 <= k < |c.points| ==> c.categories[k] in byDate && c.points[k] == byDate[c.categories[k]]
  {
    var dates := SortedKeys(byDate.Keys);
    assert forall k :: 0 <= k < |dates| ==> dates[k] in byDate;
    Chart(dates, ValuesAt(byDate, dates))
  }

  // ---------------------------------------------------------------------
  // Entry form

  /** The form's field values, all strings as the browser reads them. */
  datatype Form = Form(productionLine: string, shiftLeader: string, ripponAmount: string, labelAmount: string, notes: string)

  /** The required-field check: nothing is sent when it holds. */
  predicate FormRejected(form: Form) {
    form.productionLine == "" || form.shiftLeader == "" || form.ripponAmount == "" || form.labelAmount == ""
  }

  /** The request body the form sends. */
  function Payload(form: Form): map<string, string> {
    map["productionLine" := form.productionLine, "shiftLeader" := form.shiftLeader,
        "ripponAmount" := form.ripponAmount, "labelAmount" := form.labelAmount,
        "notes" := form.notes]
  }
}
