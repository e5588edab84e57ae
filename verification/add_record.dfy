/**
 Field extraction and validation of a new consumption record, as the
 `POST /api/records` handler does it before anything is stored: the request
 body is a map from field names to strings, a production line and a shift
 leader are required after stripping whitespace, and a missing amount
 counts as zero.
 */
module AddRecord {
  import opened Wrappers

  /**
   The characters Python's `str.isspace` accepts, which `str.strip()` with
   no argument removes: the ASCII controls 9-13 and 28-31, the space, and
   the Unicode separators.
   */
  predicate IsSpace(c: char) {
    var n := c as int;
    || 0x09 <= n <= 0x0D
    || 0x1C <= n <= 0x20
    || n == 0x85 || n == 0xA0 || n == 0x1680
    || 0x2000 <= n <= 0x200A
    || n == 0x2028 || n == 0x2029 || n == 0x202F || n == 0x205F || n == 0x3000
  }

  /** Nothing but whitespace (or nothing at all). */
  predicate Blank(s: string) {
    forall i :: 0 <= i < |s| ==> IsSpace(s[i])
  }

  /** `s` with its leading whitespace removed: a suffix of `s`, cut just before the first non-space. */
  function TrimLeft(s: string): (r: string)
    ensures |r| <= |s| && r == s[|s| - |r|..]
    ensures forall k :: 0 <= k < |s| - |r| ==> IsSpace(s[k])
    ensures r == [] || !IsSpace(r[0])
  {
    if s == [] || !IsSpace(s[0]) then s
    else TrimLeft(s[1..])
  }

  /** `s` with its trailing whitespace removed: a prefix of `s`, cut just after the last non-space. */
  function TrimRight(s: string): (r: string)
    ensures |r| <= |s| && r == s[..|r|]
    ensures forall k :: |r| <= k < |s| ==> IsSpace(s[k])
    ensures r == [] || !IsSpace(r[|r| - 1])
  {
    if s == [] || !IsSpace(s[|s| - 1]) then s
    else TrimRight(s[..|s| - 1])
  }

  /** `s.strip()`: whitespace removed from both ends. */
  function Strip(s: string): string {
    TrimRight(TrimLeft(s))
  }

  /** Stripping leaves the middle of `s` untouched. */
  lemma StripSlice(s: string)
    ensures var r, i := Strip(s), |s| - |TrimLeft(s)|;
      i + |r| <= |s| && r == s[i..i + |r|]
  {
  }

  /** Stripping cuts off only whitespace, on either side. */
  lemma StripCutsSpaces(s: string)
    ensures var r, i := Strip(s), |s| - |TrimLeft(s)|;
      && (forall k :: 0 <= k < i ==> IsSpace(s[k]))
      && (forall k :: i + |r| <= k < |s| ==> IsSpace(s[k]))
  {
    var l := TrimLeft(s);
    var r := TrimRight(l);
    var i := |s| - |l|;
    assert forall k :: 0 <= k < i ==> IsSpace(s[k]);
    assert l == s[i..];
    forall k | i + |r| <= k < |s| ensures IsSpace(s[k]) {
      assert |r| <= k - i < |l|;
      assert s[k] == l[k - i];
    }
  }

  /** What stripping leaves starts and ends with a non-space. */
  lemma StripEnds(s: string)
    ensures var r := Strip(s); r == [] || (!IsSpace(r[0]) && !IsSpace(r[|r| - 1]))
  {
    var l := TrimLeft(s);
    var r := TrimRight(l);
    if r != [] {
      assert r[0] == l[0];
    }
  }

  /** Stripping gives the empty string exactly when there was nothing but whitespace. */
  lemma StripEmptyIffBlank(s: string)
    ensures Strip(s) == "" <==> Blank(s)
  {
    var l := TrimLeft(s);
    if Strip(s) == "" {
      assert l == [];
    } else {
      var r := Strip(s);
      assert r[0] == l[0] == s[|s| - |l|];
      assert !IsSpace(s[|s| - |l|]);
    }
  }

  /** Stripping twice is stripping once. */
  lemma StripIdempotent(s: string)
    ensures Strip(Strip(s)) == Strip(s)
  {
    var r := Strip(s);
    StripEnds(s);
    assert TrimLeft(r) == r;
    assert TrimRight(r) == r;
  }

  /** `data.get(k)` read as a string, with an absent key read as "". */
  function Get(data: map<string, string>, k: string): string {
    if k in data then data[k] else ""
  }

  /**
   `data.get(primary) or data.get(fallback) or ""`: the first of the two
   fields that is present and non-empty, else "".
   */
  function FirstFilled(data: map<string, string>, primary: string, fallback: string): (v: string)
    ensures v != "" <==> Get(data, primary) != "" || Get(data, fallback) != ""
    ensures Get(data, primary) != "" ==> v == data[primary]
    ensures Get(data, primary) == "" ==> v == Get(data, fallback)
  {
    if Get(data, primary) != "" then data[primary] else Get(data, fallback)
  }

  /**
   `int(data.get(primary) or data.get(fallback) or 0)`. The conversion is
   `parse`; `None` is a string `int()` refuses (the handler then fails with
   an uncaught error). No filled field gives 0 without parsing anything.
   */
  function Amount(data: map<string, string>, primary: string, fallback: string,
                  parse: string -> Option<int>): (a: Option<int>)
    ensures Get(data, primary) == "" && Get(data, fallback) == "" ==> a == Some(0)
    ensures Get(data, primary) != "" ==> a == parse(data[primary])
    ensures Get(data, primary) == "" && Get(data, fallback) != "" ==> a == parse(data[fallback])
  {
    var v := FirstFilled(data, primary, fallback);
    if v == "" then Some(0) else parse(v)
  }

  /** The fields of a record as the handler hands them to the database. */
  datatype Submission = Submission(line: string, shiftLeader: string, rippon: int, labels: int, notes: string)

  /**
   What the handler does with a request: store a record (201), answer
   "Missing required fields" (400), or fail on an amount `int()` cannot
   convert (an uncaught error, 500).
   */
  datatype Outcome = Created(entry: Submission) | MissingFields | BadAmount

  /** The production line as the handler reads it, before stripping. */
  function LineField(data: map<string, string>): string {
    FirstFilled(data, "productionLine", "line")
  }

  /** The shift leader as the handler reads it, before stripping. */
  function LeaderField(data: map<string, string>): string {
    Get(data, "shiftLeader")
  }

  function RipponField(data: map<string, string>, parse: string -> Option<int>): Option<int> {
    Amount(data, "ripponAmount", "rippon", parse)
  }

  function LabelsField(data: map<string, string>, parse: string -> Option<int>): Option<int> {
    Amount(data, "labelAmount", "labels", parse)
  }

  /**
   The handler's reading of a request body, in its order: both amounts are
   converted first (a failure ends the request there), then a blank line or
   shift leader is refused. The `rippon is None` and `labels is None` tests
   of the handler can never hold once the conversion succeeded, so they add
   no case.
   */
  function ExtractRecord(data: map<string, string>, parse: string -> Option<int>): (o: Outcome)
    ensures o.BadAmount? <==> RipponField(data, parse).None? || LabelsField(data, parse).None?
    ensures o.MissingFields? <==>
      && RipponField(data, parse).Some? && LabelsField(data, parse).Some?
      && (Blank(LineField(data)) || Blank(LeaderField(data)))
    ensures o.Created? ==>
      && o.entry.line == Strip(LineField(data)) && o.entry.line != ""
      && o.entry.shiftLeader == Strip(LeaderField(data)) && o.entry.shiftLeader != ""
      && Some(o.entry.rippon) == RipponField(data, parse)
      && Some(o.entry.labels) == LabelsField(data, parse)
      && o.entry.notes == Get(data, "notes")
  {
    var line := Strip(LineField(data));
    var shiftLeader := Strip(LeaderField(data));
    StripEmptyIffBlank(LineField(data));
    StripEmptyIffBlank(LeaderField(data));
    match RipponField(data, parse)
    case None => BadAmount
    case Some(rippon) =>
      match LabelsField(data, parse)
      case None => BadAmount
      case Some(labels) =>
        if line == "" || shiftLeader == "" then MissingFields
        else Created(Submission(line, shiftLeader, rippon, labels, Get(data, "notes")))
  }

  /**
   Amounts are optional: a request with a non-blank line and shift leader
   and no amount fields at all is stored with zero amounts, whatever the
   conversion would do.
   */
  lemma AmountsDefaultToZero(data: map<string, string>, parse: string -> Option<int>)
    requires !Blank(LineField(data)) && !Blank(LeaderField(data))
    requires "ripponAmount" !in data && "rippon" !in data
    requires "labelAmount" !in data && "labels" !in data
    ensures ExtractRecord(data, parse).Created?
    ensures ExtractRecord(data, parse).entry.rippon == 0
    ensures ExtractRecord(data, parse).entry.labels == 0
  {
  }

  /**
   The legacy field name `line` is read only when `productionLine` is
   absent or empty; a filled `productionLine` always wins.
   */
  lemma LineFallback(data: map<string, string>, parse: string -> Option<int>)
    ensures var o := ExtractRecord(data, parse);
      o.Created? && Get(data, "productionLine") != "" ==> o.entry.line == Strip(data["productionLine"])
    ensures var o := ExtractRecord(data, parse);
      o.Created? && Get(data, "productionLine") == "" ==> "line" in data && o.entry.line == Strip(data["line"])
  {
  }
}
