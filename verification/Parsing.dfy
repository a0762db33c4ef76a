// Input validation (batch_ops.parse_batch_input).
module Parsing {
  import opened Model
  import opened Sums
  import opened Tokens

  const ENDPOINT := "/v1/chat/completions"

  datatype ParsedLine = ParsedLine(lineIndex: nat, customId: string, promptTokens: nat, maxTokens: nat) {
    function Reserved(): nat { promptTokens + maxTokens }
  }

  datatype LineFault =
    | BadJson | NotAnObject | BadCustomId | DuplicateCustomId
    | BadMethod | BadUrl | BadBody | BadMessages | BadMaxTokens

  datatype LineError = LineError(lineIndex: nat, fault: LineFault)

  datatype ParseResult = NoLines | Rejected(errors: seq<LineError>) | Parsed(lines: seq<ParsedLine>)

  // --- What a valid file is. ---

  predicate WellFormed(line: RawLine) {
    && line.Request?
    && line.customId.StringField? && line.customId.s != ""
    && line.httpMethod == StringField("POST")
    && line.url == StringField(ENDPOINT)
    && line.body.Body?
    && line.body.messages.Messages? && line.body.messages.items != []
    && !line.body.maxTokens.NotInt?
    && (line.body.maxTokens.IntField? ==> line.body.maxTokens.n > 0)
  }

  predicate SameCustomId(a: RawLine, b: RawLine) {
    a.Request? && b.Request? && a.customId == b.customId
  }

  // Line i repeats the custom_id of an earlier well formed line.
  ghost predicate Repeats(lines: seq<RawLine>, i: nat)
    requires i < |lines|
  {
    exists j :: 0 <= j < i && WellFormed(lines[j]) && SameCustomId(lines[j], lines[i])
  }

  ghost predicate Acceptable(lines: seq<RawLine>) {
    && lines != []
    && (forall i :: 0 <= i < |lines| ==> WellFormed(lines[i]))
    && (forall i, j :: 0 <= i < j < |lines| ==> !SameCustomId(lines[i], lines[j]))
  }

  function NonBlank(raw: seq<RawLine>): seq<RawLine> {
    if raw == [] then []
    else
      var init := NonBlank(raw[..|raw| - 1]);
      if raw[|raw| - 1].Blank? then init else init + [raw[|raw| - 1]]
  }

  function ToParsed(line: RawLine, index: nat, defaultMaxTokens: int): ParsedLine
    requires WellFormed(line) && defaultMaxTokens > 0
  {
    ParsedLine(index, line.customId.s, PromptTokens(line.body.messages.items),
               if line.body.maxTokens.IntField? then line.body.maxTokens.n else defaultMaxTokens)
  }

  // --- What the parser computes, line by line. ---

  // The first check a line fails, given the custom_ids accepted so far.
  function Check(line: RawLine, seen: set<string>): (fault: Option<LineFault>)
    ensures fault.None? <==> WellFormed(line) && line.customId.s !in seen
  {
    match line
    case Blank => Some(BadJson)
    case InvalidJson => Some(BadJson)
    case NotObject => Some(NotAnObject)
    case Request(customId, httpMethod, url, body) =>
      if customId.NotString? || customId.s == "" then Some(BadCustomId)
      else if customId.s in seen then Some(DuplicateCustomId)
      else if httpMethod != StringField("POST") then Some(BadMethod)
      else if url != StringField(ENDPOINT) then Some(BadUrl)
      else if body.NotBody? then Some(BadBody)
      else if body.messages.NotList? || body.messages.items == [] then Some(BadMessages)
      else if body.maxTokens.NotInt? || (body.maxTokens.IntField? && body.maxTokens.n <= 0) then Some(BadMaxTokens)
      else None
  }

  datatype Scan = Scan(parsed: seq<ParsedLine>, errors: seq<LineError>, seen: set<string>)

  // What line idx adds to the state of the loop.
  function Scanned(s: Scan, line: RawLine, idx: nat, defaultMaxTokens: int): Scan
    requires defaultMaxTokens > 0
  {
    match Check(line, s.seen)
    case Some(fault) => s.(errors := s.errors + [LineError(idx, fault)])
    case None => s.(seen := s.seen + {line.customId.s},
                    parsed := s.parsed + [ToParsed(line, idx, defaultMaxTokens)])
  }

  // The state of the loop after the first n lines.
  function ScanLines(lines: seq<RawLine>, n: nat, defaultMaxTokens: int): Scan
    requires n <= |lines| && defaultMaxTokens > 0
  {
    if n == 0 then Scan([], [], {})
    else
      Scanned(ScanLines(lines, n - 1, defaultMaxTokens), lines[n - 1], n - 1, defaultMaxTokens)
  }

  function Parse(raw: seq<RawLine>, defaultMaxTokens: int): ParseResult
    requires defaultMaxTokens > 0
  {
    var lines := NonBlank(raw);
    if lines == [] then NoLines
    else
      var s := ScanLines(lines, |lines|, defaultMaxTokens);
      if s.errors != [] then Rejected(s.errors) else Parsed(s.parsed)
  }

  method ParseBatchInput(raw: seq<RawLine>, defaultMaxTokens: int) returns (r: ParseResult)
    requires defaultMaxTokens > 0
    ensures r == Parse(raw, defaultMaxTokens)
  {
    var rawLines: seq<RawLine> := [];
    for k := 0 to |raw|
      invariant rawLines == NonBlank(raw[..k])
    {
      assert raw[..k + 1][..k] == raw[..k];
      if !raw[k].Blank? { rawLines := rawLines + [raw[k]]; }
    }
    assert raw[..|raw|] == raw;
    if rawLines == [] { return NoLines; }

    var parsed: seq<ParsedLine>, errors: seq<LineError>, seen: set<string> := [], [], {};
    for idx := 0 to |rawLines|
      invariant Scan(parsed, errors, seen) == ScanLines(rawLines, idx, defaultMaxTokens)
    {
      var line := rawLines[idx];
      var fault := Check(line, seen);
      if fault.Some? {
        errors := errors + [LineError(idx, fault.value)];
        continue;
      }
      seen := seen + {line.customId.s};
      var promptTokens := EstimatePromptTokens(line.body.messages.items);
      var maxTokens := if line.body.maxTokens.AbsentOrNull? then defaultMaxTokens else line.body.maxTokens.n;
      parsed := parsed + [ParsedLine(idx, line.customId.s, promptTokens, maxTokens)];
    }
    if errors != [] { return Rejected(errors); }
    return Parsed(parsed);
  }

  // --- The parser against the definition of a valid file. ---

  // The lines to report: malformed ones, and repeats of an earlier well formed line.
  ghost function FaultyLines(lines: seq<RawLine>, n: nat): seq<nat>
    requires n <= |lines|
  {
    if n == 0 then []
    else FaultyLines(lines, n - 1)
         + if WellFormed(lines[n - 1]) && !Repeats(lines, n - 1) then [] else [n - 1]
  }

  function ReportedLines(errors: seq<LineError>): seq<nat> {
    seq(|errors|, i requires 0 <= i < |errors| => errors[i].lineIndex)
  }

  lemma {:induction false} SeenSpec(lines: seq<RawLine>, n: nat, d: int)
    requires n <= |lines| && d > 0
    ensures forall id :: id in ScanLines(lines, n, d).seen <==>
                           exists j :: 0 <= j < n && WellFormed(lines[j]) && lines[j].customId.s == id
  {
    if n > 0 {
      SeenSpec(lines, n - 1, d);
    }
  }

  // Every faulty line is reported once, in order, and no other line is.
  lemma {:induction false} ErrorsSpec(lines: seq<RawLine>, n: nat, d: int)
    requires n <= |lines| && d > 0
    ensures ReportedLines(ScanLines(lines, n, d).errors) == FaultyLines(lines, n)
  {
    if n > 0 {
      var s := ScanLines(lines, n - 1, d);
      ErrorsSpec(lines, n - 1, d);
      SeenIsRepeated(lines, n - 1, d);
      ScannedErrors(s, lines[n - 1], n - 1, d);
      assert ScanLines(lines, n, d) == Scanned(s, lines[n - 1], n - 1, d);
    }
  }

  lemma {:induction false} SeenIsRepeated(lines: seq<RawLine>, i: nat, d: int)
    requires i < |lines| && d > 0
    ensures WellFormed(lines[i]) ==> (Repeats(lines, i) <==> lines[i].customId.s in ScanLines(lines, i, d).seen)
  {
    SeenSpec(lines, i, d);
  }

  lemma ScannedErrors(s: Scan, line: RawLine, idx: nat, d: int)
    requires d > 0
    ensures ReportedLines(Scanned(s, line, idx, d).errors) ==
            ReportedLines(s.errors) + if WellFormed(line) && line.customId.s !in s.seen then [] else [idx]
  {
  }

  lemma {:induction false} FaultFree(lines: seq<RawLine>, n: nat)
    requires n <= |lines|
    ensures FaultyLines(lines, n) == [] <==>
            forall i :: 0 <= i < n ==> WellFormed(lines[i]) && !Repeats(lines, i)
  {
    if n > 0 { FaultFree(lines, n - 1); }
  }

  lemma NoRepeatsMeansDistinct(lines: seq<RawLine>)
    requires lines != []
    ensures Acceptable(lines) <==> forall i :: 0 <= i < |lines| ==> WellFormed(lines[i]) && !Repeats(lines, i)
  {
    if forall i :: 0 <= i < |lines| ==> WellFormed(lines[i]) && !Repeats(lines, i) {
      forall i, j | 0 <= i < j < |lines| ensures !SameCustomId(lines[i], lines[j]) {
        assert !Repeats(lines, j);
      }
    }
  }

  lemma {:induction false} ParsedSpec(lines: seq<RawLine>, n: nat, d: int, i: nat)
    requires n <= |lines| && d > 0 && i <= n
    requires ScanLines(lines, n, d).errors == []
    ensures |ScanLines(lines, n, d).parsed| == n
    ensures i < n ==> WellFormed(lines[i]) && ScanLines(lines, n, d).parsed[i] == ToParsed(lines[i], i, d)
  {
    if n > 0 {
      ParsedSpec(lines, n - 1, d, if i < n then i else 0);
      ScannedParsed(ScanLines(lines, n - 1, d), lines[n - 1], n - 1, d);
    }
  }

  // One line further without a fault.
  lemma ScannedParsed(s: Scan, line: RawLine, idx: nat, d: int)
    requires d > 0 && Scanned(s, line, idx, d).errors == []
    ensures WellFormed(line) && s.errors == []
    ensures Scanned(s, line, idx, d).parsed == s.parsed + [ToParsed(line, idx, d)]
  {
  }

  lemma {:induction false} ParsedAll(lines: seq<RawLine>, d: int)
    requires d > 0 && ScanLines(lines, |lines|, d).errors == []
    ensures |ScanLines(lines, |lines|, d).parsed| == |lines|
    ensures forall i :: 0 <= i < |lines| ==>
                          WellFormed(lines[i]) && ScanLines(lines, |lines|, d).parsed[i] == ToParsed(lines[i], i, d)
  {
    ParsedSpec(lines, |lines|, d, 0);
    forall i | 0 <= i < |lines|
      ensures WellFormed(lines[i]) && ScanLines(lines, |lines|, d).parsed[i] == ToParsed(lines[i], i, d)
    {
      ParsedSpec(lines, |lines|, d, i);
    }
  }

  // What every consumer of a successful parse relies on.
  predicate Submittable(lines: seq<ParsedLine>) {
    && lines != []
    && (forall i :: 0 <= i < |lines| ==> lines[i].lineIndex == i && lines[i].Reserved() >= 7)
    && (forall i, j :: 0 <= i < j < |lines| ==> lines[i].customId != lines[j].customId)
  }

  // The parser accepts exactly the valid files; then result i describes line i, holds at
  // least seven tokens, and no custom_id occurs twice.
  lemma {:induction false} ParseSpec(raw: seq<RawLine>, d: int)
    requires d > 0
    ensures Parse(raw, d).Parsed? <==> Acceptable(NonBlank(raw))
    ensures Parse(raw, d).NoLines? <==> forall i :: 0 <= i < |raw| ==> raw[i].Blank?
    ensures Parse(raw, d).Rejected? ==>
              ReportedLines(Parse(raw, d).errors) == FaultyLines(NonBlank(raw), |NonBlank(raw)|)
    ensures Parse(raw, d).Parsed? ==>
              && |Parse(raw, d).lines| == |NonBlank(raw)|
              && (forall i :: 0 <= i < |NonBlank(raw)| ==> Parse(raw, d).lines[i] == ToParsed(NonBlank(raw)[i], i, d))
              && Submittable(Parse(raw, d).lines)
  {
    var lines := NonBlank(raw);
    NonBlankSpec(raw);
    ErrorsSpec(lines, |lines|, d);
    FaultFree(lines, |lines|);
    if lines != [] {
      NoRepeatsMeansDistinct(lines);
      if ScanLines(lines, |lines|, d).errors == [] {
        ParsedAll(lines, d);
        ParsedSubmittable(lines, d);
      }
    }
  }

  lemma {:induction false} ParsedSubmittable(lines: seq<RawLine>, d: int)
    requires d > 0 && Acceptable(lines)
    requires ScanLines(lines, |lines|, d).errors == []
    ensures Submittable(ScanLines(lines, |lines|, d).parsed)
  {
    var parsed := ScanLines(lines, |lines|, d).parsed;
    ParsedAll(lines, d);
    forall i | 0 <= i < |parsed| ensures parsed[i].lineIndex == i && parsed[i].Reserved() >= 7 {
      assert parsed[i] == ToParsed(lines[i], i, d);
      assert PromptTokens(lines[i].body.messages.items) >= 6;
    }
    forall i, j | 0 <= i < j < |parsed| ensures parsed[i].customId != parsed[j].customId {
      assert parsed[i] == ToParsed(lines[i], i, d);
      assert !SameCustomId(lines[i], lines[j]);
    }
  }

  lemma {:induction false} NonBlankSpec(raw: seq<RawLine>)
    ensures NonBlank(raw) == [] <==> forall i :: 0 <= i < |raw| ==> raw[i].Blank?
  {
    if raw != [] {
      var init := raw[..|raw| - 1];
      NonBlankSpec(init);
      assert forall i :: 0 <= i < |init| ==> init[i] == raw[i];
    }
  }

  // --- What a parse says about the uploaded lines. ---

  // The parsed line at index i was read from this uploaded line; d is the default max_tokens.
  predicate ReadFrom(line: RawLine, i: nat, d: int, p: ParsedLine) {
    && line.Request? && line.body.Body? && line.body.messages.Messages?
    && p.lineIndex == i
    && line.customId == StringField(p.customId)
    && p.promptTokens == PromptTokens(line.body.messages.items)
    && (line.body.maxTokens == IntField(p.maxTokens) || (line.body.maxTokens == AbsentOrNull && p.maxTokens == d))
  }

  // at lists the positions of the lines that are not blank, in order.
  ghost predicate Positions(raw: seq<RawLine>, at: seq<nat>) {
    && (forall i :: 0 <= i < |at| ==> at[i] < |raw| && !raw[at[i]].Blank?)
    && (forall i, j :: 0 <= i < j < |at| ==> at[i] < at[j])
    && (forall r :: 0 <= r < |raw| && !raw[r].Blank? ==> r in at)
  }

  lemma {:induction false} NonBlankPositions(raw: seq<RawLine>) returns (at: seq<nat>)
    ensures Positions(raw, at) && |at| == |NonBlank(raw)|
    ensures forall i :: 0 <= i < |at| ==> NonBlank(raw)[i] == raw[at[i]]
  {
    at := [];
    if raw != [] {
      var n := |raw| - 1;
      at := NonBlankPositions(raw[..n]);
      if !raw[n].Blank? { at := at + [n]; }
    }
  }

  // A successful parse has one entry for every line that is not blank, in the order of the
  // file, with that line's custom_id, prompt estimate and max_tokens.
  lemma ParsedFrom(raw: seq<RawLine>, d: int) returns (at: seq<nat>)
    requires d > 0 && Parse(raw, d).Parsed?
    ensures Positions(raw, at) && |Parse(raw, d).lines| == |at|
    ensures forall i :: 0 <= i < |at| ==> ReadFrom(raw[at[i]], i, d, Parse(raw, d).lines[i])
  {
    ParseSpec(raw, d);
    at := NonBlankPositions(raw);
    forall i | 0 <= i < |at| ensures ReadFrom(raw[at[i]], i, d, Parse(raw, d).lines[i]) {
      assert Parse(raw, d).lines[i] == ToParsed(NonBlank(raw)[i], i, d);
      assert WellFormed(NonBlank(raw)[i]);
    }
  }

  // --- Which fault is reported. ---

  // Line i fails the check, looked at on its own.
  ghost predicate Fails(lines: seq<RawLine>, i: nat, fault: LineFault)
    requires i < |lines|
  {
    var line := lines[i];
    match fault
    case BadJson => line.Blank? || line.InvalidJson?
    case NotAnObject => line.NotObject?
    case BadCustomId => line.Request? && (line.customId.NotString? || line.customId.s == "")
    case DuplicateCustomId => Repeats(lines, i)
    case BadMethod => line.Request? && line.httpMethod != StringField("POST")
    case BadUrl => line.Request? && line.url != StringField("/v1/chat/completions")
    case BadBody => line.Request? && line.body.NotBody?
    case BadMessages =>
      line.Request? && line.body.Body? && (line.body.messages.NotList? || line.body.messages.items == [])
    case BadMaxTokens =>
      line.Request? && line.body.Body?
      && (line.body.maxTokens.NotInt? || (line.body.maxTokens.IntField? && line.body.maxTokens.n <= 0))
  }

  // The order of the checks.
  function Rank(fault: LineFault): nat {
    match fault
    case BadJson => 0
    case NotAnObject => 1
    case BadCustomId => 2
    case DuplicateCustomId => 3
    case BadMethod => 4
    case BadUrl => 5
    case BadBody => 6
    case BadMessages => 7
    case BadMaxTokens => 8
  }

  ghost predicate FirstFailed(lines: seq<RawLine>, i: nat, fault: LineFault)
    requires i < |lines|
  {
    Fails(lines, i, fault) && forall other :: Rank(other) < Rank(fault) ==> !Fails(lines, i, other)
  }

  lemma {:induction false} CheckIsFirst(lines: seq<RawLine>, i: nat, d: int, fault: LineFault)
    requires d > 0 && i < |lines| && Check(lines[i], ScanLines(lines, i, d).seen) == Some(fault)
    ensures FirstFailed(lines, i, fault)
  {
    var line, seen := lines[i], ScanLines(lines, i, d).seen;
    SeenSpec(lines, i, d);
    assert line.Request? && line.customId.StringField? ==> (Repeats(lines, i) <==> line.customId.s in seen);
    forall other | Rank(other) < Rank(fault) ensures !Fails(lines, i, other) {}
  }

  // Every reported error names its line and the first check that line fails.
  lemma {:induction false} FirstFaultReported(lines: seq<RawLine>, n: nat, d: int, k: nat)
    requires d > 0 && n <= |lines| && k < |ScanLines(lines, n, d).errors|
    ensures var e := ScanLines(lines, n, d).errors[k];
            e.lineIndex < n && FirstFailed(lines, e.lineIndex, e.fault)
  {
    var before := ScanLines(lines, n - 1, d);
    if k < |before.errors| {
      FirstFaultReported(lines, n - 1, d, k);
    } else {
      var fault := Check(lines[n - 1], before.seen);
      CheckIsFirst(lines, n - 1, d, fault.value);
    }
  }
}
