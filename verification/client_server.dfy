/**
 What the dashboard shows for a snapshot the statistics endpoint produced,
 and what the record endpoint makes of a form the browser let through: the
 places where the browser relies on the server's computation and where the
 two checks differ.
 */
module ClientServer {
  import opened Wrappers
  import opened Quantities
  import opened StringOrder
  import Stats
  import opened Dashboard
  import opened AddRecord

  // ---------------------------------------------------------------------
  // Stock percentages and alerts on a server snapshot

  /**
   Because the server clamps the remaining stock at zero and never lets it
   exceed a positive capacity when consumption is non-negative, both
   percentages the browser computes are finite and between 0 and 100.
   */
  lemma SnapshotPercentsInRange(records: seq<Stats.Record>, ripponCapacity: int, labelsCapacity: int)
    requires ripponCapacity > 0 && labelsCapacity > 0
    requires Stats.Total(records).rippon >= 0 && Stats.Total(records).labels >= 0
    ensures var inv := Stats.StatsOf(records, ripponCapacity, labelsCapacity).inventory;
      && Percent(inv.ripponRemaining, inv.ripponCapacity).Pct?
      && 0.0 <= Percent(inv.ripponRemaining, inv.ripponCapacity).value <= 100.0
      && Percent(inv.labelsRemaining, inv.labelsCapacity).Pct?
      && 0.0 <= Percent(inv.labelsRemaining, inv.labelsCapacity).value <= 100.0
  {
    var inv := Stats.StatsOf(records, ripponCapacity, labelsCapacity).inventory;
    Stats.InventoryBounds(records, ripponCapacity, labelsCapacity);
    PercentInRange(inv.ripponRemaining, inv.ripponCapacity);
    PercentInRange(inv.labelsRemaining, inv.labelsCapacity);
  }

  /**
   With no records and positive capacities the dashboard is calm: the
   banner is hidden and, thanks to the 0.0001 stand-in for the zero
   averages, the projection reports enough stock for seven days.
   */
  lemma EmptyStoreIsCalm(ripponCapacity: int, labelsCapacity: int)
    requires ripponCapacity > 0 && labelsCapacity > 0
    ensures var s := Stats.StatsOf([], ripponCapacity, labelsCapacity);
      InventoryBanner(s.inventory) == Hidden
    ensures var s := Stats.StatsOf([], ripponCapacity, labelsCapacity);
      ReorderAlerts(
        DaysLeft(s.inventory.labelsRemaining, s.averages.dailyLabels),
        DaysLeft(s.inventory.ripponRemaining, s.averages.dailyRippon)) == [Sufficient]
  {
    var s := Stats.StatsOf([], ripponCapacity, labelsCapacity);
    Stats.AveragesMeaning([], ripponCapacity, labelsCapacity);
    assert s.inventory.ripponRemaining == ripponCapacity && s.inventory.labelsRemaining == labelsCapacity;
    BannerThresholds(s.inventory);
    IdleAlert(labelsCapacity);
    IdleAlert(ripponCapacity);
  }

  /**
   A fresh installation with the default capacities: the server reports
   50 rippon and 30 labels remaining, and the dashboard is calm.
   */
  lemma DefaultStoreIsCalm()
    ensures var s := Stats.StatsOf([], Stats.DefaultRipponCapacity, Stats.DefaultLabelsCapacity);
      && s.inventory.ripponRemaining == 50 && s.inventory.labelsRemaining == 30
      && InventoryBanner(s.inventory) == Hidden
      && ReorderAlerts(
           DaysLeft(s.inventory.labelsRemaining, s.averages.dailyLabels),
           DaysLeft(s.inventory.ripponRemaining, s.averages.dailyRippon)) == [Sufficient]
  {
    EmptyStoreIsCalm(Stats.DefaultRipponCapacity, Stats.DefaultLabelsCapacity);
  }

  /**
   A material whose remaining stock the server reports as zero always gets
   its "run out" alert, whatever its average: zero divided by any rate is
   zero days.
   */
  lemma ExhaustedStockAlerts(records: seq<Stats.Record>, ripponCapacity: int, labelsCapacity: int)
    ensures var s := Stats.StatsOf(records, ripponCapacity, labelsCapacity);
      var alerts := ReorderAlerts(
        DaysLeft(s.inventory.labelsRemaining, s.averages.dailyLabels),
        DaysLeft(s.inventory.ripponRemaining, s.averages.dailyRippon));
      && (s.inventory.labelsRemaining == 0 ==> LabelsRunOut(0) in alerts)
      && (s.inventory.ripponRemaining == 0 ==> RipponRunOut(0) in alerts)
  {
    var s := Stats.StatsOf(records, ripponCapacity, labelsCapacity);
    assert 0 as real / Rate(s.averages.dailyLabels) == 0.0;
    assert 0 as real / Rate(s.averages.dailyRippon) == 0.0;
  }

  // ---------------------------------------------------------------------
  // Chart series on a server snapshot

  /** The browser's fixed line categories are the server's seed lines. */
  lemma ChartLinesAreFixedLines()
    ensures ChartLines == Stats.FixedLines
    ensures Distinct(ChartLines)
  {
  }

  /**
   Every bar of the per-line chart is backed by a server entry: the server
   always has the six fixed lines, so each bar is the sum of the records
   of that line.
   */
  lemma LineChartShowsLineSums(records: seq<Stats.Record>)
    ensures var c := LineChart(Stats.ByLine(records));
      forall i :: 0 <= i < |ChartLines| ==>
        ChartLines[i] in Stats.ByLine(records)
        && c.points[i] == Stats.SumWhere(records, Stats.Line, ChartLines[i])
  {
    Stats.ByLineContents(records);
    forall i | 0 <= i < |ChartLines| ensures ChartLines[i] in Stats.ByLine(records) {
      assert ChartLines[i] in Stats.FixedLines;
    }
  }

  /**
   When every record is on one of the six fixed lines the bars add up to
   the totals; a record on another line is in the server's grouping but
   not on the chart.
   */
  lemma LineChartAddsUpToTotals(records: seq<Stats.Record>)
    requires forall r :: r in records ==> r.line in Stats.FixedLines
    ensures SumSeq(LineChart(Stats.ByLine(records)).points) == Stats.Total(records)
  {
    var byLine := Stats.ByLine(records);
    Stats.ByLineContents(records);
    ChartLinesAreFixedLines();
    forall l ensures l in byLine <==> l in ChartLines {
      if l in Stats.KeysOf(records, Stats.Line) {
        var r :| r in records && Stats.KeyOf(r, Stats.Line) == l;
      }
    }
    SumValuesAsSeq(byLine, ChartLines);
    Stats.ByLineSumsToTotal(records);
  }

  /** Keys in ascending order never repeat. */
  lemma AscendingDistinct(xs: seq<string>)
    requires Ascending(xs)
    ensures Distinct(xs)
  {
    forall i, j | 0 <= i < j < |xs| ensures xs[i] != xs[j] {
      if xs[i] == xs[j] {
        LessIrreflexive(xs[i]);
      }
    }
  }

  /**
   The daily chart lists each date that occurs in the records once, in
   ascending order, shows for each the sum of that day's records, and its
   points add up to the totals.
   */
  lemma DailyChartShowsDailySums(records: seq<Stats.Record>)
    ensures var c := DailyChart(Stats.ByDate(records));
      && Ascending(c.categories)
      && (forall d :: d in c.categories <==> d in Stats.KeysOf(records, Stats.Date))
      && (forall k :: 0 <= k < |c.points| ==> c.points[k] == Stats.SumWhere(records, Stats.Date, c.categories[k]))
      && SumSeq(c.points) == Stats.Total(records)
  {
    var byDate := Stats.ByDate(records);
    var c := DailyChart(byDate);
    Stats.ByDateContents(records);
    AscendingDistinct(c.categories);
    assert c.points == ValuesAt(byDate, c.categories);
    SumValuesAsSeq(byDate, c.categories);
    Stats.ByDateSumsToTotal(records);
  }

  // ---------------------------------------------------------------------
  // The entry form against the record endpoint

  /**
   What the server does with a form the browser sends: an amount `int()`
   refuses fails the request; otherwise it is refused exactly when the
   line or the shift leader is only whitespace, and stored with the
   stripped text and the converted amounts when not. The fallback fields
   and the zero default never come into play, since the browser sends
   every field and refuses empty amounts.
   */
  lemma SentFormOutcome(form: Form, parse: string -> Option<int>)
    requires !FormRejected(form)
    ensures var o := ExtractRecord(Payload(form), parse);
      && (o.BadAmount? <==> parse(form.ripponAmount).None? || parse(form.labelAmount).None?)
      && (o.MissingFields? <==>
            && parse(form.ripponAmount).Some? && parse(form.labelAmount).Some?
            && (Blank(form.productionLine) || Blank(form.shiftLeader)))
      && (o.Created? ==>
            o.entry == Submission(
              Strip(form.productionLine), Strip(form.shiftLeader),
              parse(form.ripponAmount).value, parse(form.labelAmount).value, form.notes))
  {
    var data := Payload(form);
    assert LineField(data) == form.productionLine;
    assert LeaderField(data) == form.shiftLeader;
    assert RipponField(data, parse) == parse(form.ripponAmount);
    assert LabelsField(data, parse) == parse(form.labelAmount);
  }

  /**
   The browser checks for empty fields without stripping them: a form
   whose shift leader is whitespace only, with everything else filled and
   convertible, passes its check and the server then refuses the record
   as missing a field.
   */
  lemma BlankLeaderPassesBrowser(form: Form, parse: string -> Option<int>)
    requires form.productionLine != "" && form.ripponAmount != "" && form.labelAmount != ""
    requires form.shiftLeader != "" && Blank(form.shiftLeader)
    requires parse(form.ripponAmount).Some? && parse(form.labelAmount).Some?
    ensures !FormRejected(form)
    ensures ExtractRecord(Payload(form), parse) == MissingFields
  {
    SentFormOutcome(form, parse);
  }

  /** One such form: a shift leader of a single space. */
  lemma OneSpaceLeader(parse: string -> Option<int>)
    requires parse("5").Some? && parse("3").Some?
    ensures var form := Form("Line 1", " ", "5", "3", "");
      && !FormRejected(form)
      && ExtractRecord(Payload(form), parse) == MissingFields
  {
    assert IsSpace(' ');
    BlankLeaderPassesBrowser(Form("Line 1", " ", "5", "3", ""), parse);
  }
}
