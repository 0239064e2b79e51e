/** `read_pointings_file`: the line-by-line reader of an APT pointings file. Header
    lines set the current survey step, observation, region, reference position
    and planned orient; exposure lines and region lines are recorded under keys
    built from that header state. Python's `int(...)` and `float(...)` on a token
    are inputs (None where they raise); the float32 rounding of the recorded
    values is not modelled. */
module Pointings {
  import opened Wrappers
  import opened Strings

  /** The index of a `df` row: step, observation, tile and exposure. */
  datatype ExposureKey = ExposureKey(step: Option<int>, obs: Option<int>, tile: string, exposure: string)

  /** The index of a `df2` row: region, index, reference RA and Dec, orient. */
  datatype RegionKey = RegionKey(region: Option<string>, index: string, raRef: Option<real>, decRef: Option<real>, pa: Option<real>)

  /** The header values the reader carries from line to line. */
  datatype Header = Header(step: Option<int>, obs: Option<int>, reg: Option<string>,
                           raRef: Option<real>, decRef: Option<real>, pa: Option<real>)

  /** The reader's state: the header values and the two tables. */
  datatype ReaderState = ReaderState(header: Header,
                                     exposures: map<ExposureKey, seq<real>>,
                                     regions: map<RegionKey, seq<real>>)

  const Initial: ReaderState :=
    ReaderState(Header(None, None, None, None, None, None), map[], map[])

  /** What follows the last ':' of `line`, without its first character
      (`line.split(':')[-1][1:]`). */
  function AfterLastColon(line: string): (rest: string)
    ensures ':' !in rest
  {
    var parts := Split(line, ':');
    var last := parts[|parts| - 1];
    if |last| == 0 then last else last[1..]
  }

  /** Each token through `float`, or None when one of them does not convert. */
  function FloatsOf(tokens: seq<string>, toFloat: string -> Option<real>): (r: Option<seq<real>>)
    ensures r.None? <==> exists i :: 0 <= i < |tokens| && toFloat(tokens[i]).None?
    ensures r.Some? ==> |r.value| == |tokens|
    ensures r.Some? ==> forall i :: 0 <= i < |tokens| ==> toFloat(tokens[i]) == Some(r.value[i])
  {
    if |tokens| == 0 then Some([])
    else
      var init := FloatsOf(tokens[..|tokens| - 1], toFloat);
      var last := toFloat(tokens[|tokens| - 1]);
      if init.None? then
        var i :| 0 <= i < |tokens| - 1 && toFloat(tokens[..|tokens| - 1][i]).None?;
        assert toFloat(tokens[i]).None?;
        None
      else if last.None? then None
      else Some(init.value + [last.value])
  }

  /** The five header tests of the reading loop, in the order they run. */
  datatype HeaderKind = StepLine | ObsLine | RegionTargetLine | ReferenceLine | OrientLine

  /** The header test that picks `line` up: the first of the five that matches. */
  function HeaderKindOf(line: string): (k: Option<HeaderKind>)
    ensures k == Some(StepLine) <==> Contains(line, "Survey Step")
    ensures k == Some(ObsLine) <==> !Contains(line, "Survey Step") && Contains(line, "Observation")
    ensures k == Some(RegionTargetLine) <==>
      !Contains(line, "Survey Step") && !Contains(line, "Observation") && Contains(line, "Region Target")
    ensures k == Some(ReferenceLine) <==>
      !Contains(line, "Survey Step") && !Contains(line, "Observation") && !Contains(line, "Region Target") &&
      Contains(line, "Reference Position:")
    ensures k == Some(OrientLine) <==>
      !Contains(line, "Survey Step") && !Contains(line, "Observation") && !Contains(line, "Region Target") &&
      !Contains(line, "Reference Position:") && Contains(line, "Planned Orient:")
  {
    if Contains(line, "Survey Step") then Some(StepLine)
    else if Contains(line, "Observation") then Some(ObsLine)
    else if Contains(line, "Region Target") then Some(RegionTargetLine)
    else if Contains(line, "Reference Position:") then Some(ReferenceLine)
    else if Contains(line, "Planned Orient:") then Some(OrientLine)
    else None
  }

  /** A line one of the five header tests picks up. */
  predicate IsHeaderLine(line: string) {
    HeaderKindOf(line).Some?
  }

  /** A line recorded in the exposure table: longer than 115 characters (the
      newline included), no "Tile" in it, and exactly 13 fields. */
  predicate IsExposureLine(line: string) {
    !IsHeaderLine(line) && |line| > 115 && !Contains(line, "Tile") && |Words(line)| == 13
  }

  /** A line recorded in the region table: between 56 and 79 characters, five
      fields, none of them "Index". */
  predicate IsRegionLine(line: string) {
    !IsHeaderLine(line) && !(|line| > 115) && 55 < |line| < 80 &&
    |Words(line)| == 5 && "Index" !in Words(line)
  }

  /** The reference position text of a "Reference Position:" line, split at ','. */
  function ReferenceParts(line: string): seq<string> {
    Split(AfterLastColon(line), ',')
  }

  /** The fields of a "Planned Orient:" line after its last ':'. */
  function OrientFields(line: string): seq<string> {
    Words(AfterLastColon(line))
  }

  /** The integer a "Survey Step" or "Observation" line ends with, or None when
      it has no words or its last word is no integer. */
  function LastInt(line: string, toInt: string -> Option<int>): Option<int> {
    var w := Words(line);
    if |w| == 0 then None else toInt(w[|w| - 1])
  }

  /** The body of the reading loop for one line. The header tests run in a fixed
      order and the first that matches wins. */
  function ReadLine(st: ReaderState, line: string, toInt: string -> Option<int>,
                    toFloat: string -> Option<real>): (r: Result<ReaderState>)
    // header lines: each sets its own header values and nothing else, or raises
    ensures HeaderKindOf(line) == Some(StepLine) ==>
      (r.Ok? <==> LastInt(line, toInt).Some?) &&
      (r.Ok? ==> r.value == st.(header := st.header.(step := LastInt(line, toInt)))) &&
      (|Words(line)| == 0 ==> r == Raise(IndexError))
    ensures HeaderKindOf(line) == Some(ObsLine) ==>
      (r.Ok? <==> LastInt(line, toInt).Some?) &&
      (r.Ok? ==> r.value == st.(header := st.header.(obs := LastInt(line, toInt)))) &&
      (|Words(line)| == 0 ==> r == Raise(IndexError))
    ensures HeaderKindOf(line) == Some(RegionTargetLine) ==>
      r == Ok(st.(header := st.header.(reg := Some(AfterLastColon(line)))))
    ensures HeaderKindOf(line) == Some(ReferenceLine) ==>
      var parts := ReferenceParts(line);
      (|parts| != 2 ==> r == Raise(ValueError("unpack"))) &&
      (r.Ok? <==> |parts| == 2 && toFloat(parts[0]).Some? && toFloat(parts[1]).Some?) &&
      (r.Ok? ==> r.value == st.(header := st.header.(raRef := toFloat(parts[0]), decRef := toFloat(parts[1]))))
    ensures HeaderKindOf(line) == Some(OrientLine) ==>
      var fields := OrientFields(line);
      (|fields| == 0 ==> r == Raise(IndexError)) &&
      (r.Ok? <==> |fields| > 0 && toFloat(fields[0]).Some?) &&
      (r.Ok? ==> r.value == st.(header := st.header.(pa := toFloat(fields[0]))))
    // other lines: only a table row whose values do not convert raises, with the
    // `float32` cast's ValueError; every other line is skipped or recorded
    ensures !IsHeaderLine(line) ==>
      (r.Raise? <==> (IsExposureLine(line) && FloatsOf(Words(line)[2..], toFloat).None?) ||
                     (IsRegionLine(line) && FloatsOf(Words(line)[1..], toFloat).None?))
    ensures !IsHeaderLine(line) && r.Raise? ==> r == Raise(ValueError("float32"))
    ensures !IsHeaderLine(line) && !IsExposureLine(line) && !IsRegionLine(line) ==> r == Ok(st)
    ensures r.Ok? && !IsHeaderLine(line) ==> r.value.header == st.header
    ensures r.Ok? && IsExposureLine(line) ==>
      var w := Words(line);
      var key := ExposureKey(st.header.step, st.header.obs, w[0], w[1]);
      key in r.value.exposures && r.value.exposures == st.exposures[key := r.value.exposures[key]] && |r.value.exposures[key]| == 11 &&
      FloatsOf(w[2..], toFloat) == Some(r.value.exposures[key])
    ensures r.Ok? && IsRegionLine(line) ==>
      var w := Words(line);
      var key := RegionKey(st.header.reg, w[0], st.header.raRef, st.header.decRef, st.header.pa);
      key in r.value.regions && r.value.regions == st.regions[key := r.value.regions[key]] && |r.value.regions[key]| == 4 &&
      FloatsOf(w[1..], toFloat) == Some(r.value.regions[key])
    ensures r.Ok? && !IsExposureLine(line) ==> r.value.exposures == st.exposures
    ensures r.Ok? && !IsRegionLine(line) ==> r.value.regions == st.regions
  {
    var words := Words(line);
    match HeaderKindOf(line)
    case Some(StepLine) =>
      if |words| == 0 then Raise(IndexError)
      else
        var v := LastInt(line, toInt);
        if v.None? then Raise(ValueError("int")) else Ok(st.(header := st.header.(step := v)))
    case Some(ObsLine) =>
      if |words| == 0 then Raise(IndexError)
      else
        var v := LastInt(line, toInt);
        if v.None? then Raise(ValueError("int")) else Ok(st.(header := st.header.(obs := v)))
    case Some(RegionTargetLine) =>
      Ok(st.(header := st.header.(reg := Some(AfterLastColon(line)))))
    case Some(ReferenceLine) =>
      var parts := ReferenceParts(line);
      if |parts| != 2 then Raise(ValueError("unpack"))
      else
        var ra := toFloat(parts[0]);
        var dec := toFloat(parts[1]);
        if ra.None? || dec.None? then Raise(ValueError("float"))
        else Ok(st.(header := st.header.(raRef := ra, decRef := dec)))
    case Some(OrientLine) =>
      var fields := OrientFields(line);
      if |fields| == 0 then Raise(IndexError)
      else
        var p := toFloat(fields[0]);
        if p.None? then Raise(ValueError("float")) else Ok(st.(header := st.header.(pa := p)))
    case None =>
      if |line| > 115 then
        if Contains(line, "Tile") then Ok(st)
        else if |words| == 13 then
          var values := FloatsOf(words[2..], toFloat);
          if values.None? then Raise(ValueError("float32"))
          else
            var key := ExposureKey(st.header.step, st.header.obs, words[0], words[1]);
            Ok(st.(exposures := st.exposures[key := values.value]))
        else Ok(st)
      else if 55 < |line| < 80 then
        if |words| == 5 && "Index" !in words then
          var values := FloatsOf(words[1..], toFloat);
          if values.None? then Raise(ValueError("float32"))
          else
            var key := RegionKey(st.header.reg, words[0], st.header.raRef, st.header.decRef, st.header.pa);
            Ok(st.(regions := st.regions[key := values.value]))
        else Ok(st)
      else Ok(st)
  }

  /** A reading loop over `lines` from state `st` with one-line step `step`,
      stopping at the first error. */
  function RunSteps(step: (ReaderState, string) -> Result<ReaderState>, st: ReaderState,
                    lines: seq<string>): Result<ReaderState>
    decreases |lines|
  {
    if |lines| == 0 then Ok(st)
    else
      var next := step(st, lines[0]);
      if next.Raise? then next else RunSteps(step, next.value, lines[1..])
  }

  /** The body of the reading loop as a step. */
  function ReadStep(toInt: string -> Option<int>, toFloat: string -> Option<real>): (ReaderState, string) -> Result<ReaderState> {
    (s, l) => ReadLine(s, l, toInt, toFloat)
  }

  /** The reader run over `lines` from state `st`, stopping at the first error. */
  function Run(st: ReaderState, lines: seq<string>, toInt: string -> Option<int>,
               toFloat: string -> Option<real>): Result<ReaderState>
  {
    RunSteps(ReadStep(toInt, toFloat), st, lines)
  }

  /** `read_pointings_file` over the lines of the file, newlines included. */
  method ReadPointingsFile(lines: seq<string>, toInt: string -> Option<int>, toFloat: string -> Option<real>)
    returns (r: Result<ReaderState>)
    ensures r == Run(Initial, lines, toInt, toFloat)
  {
    var st := Initial;
    var i := 0;
    while i < |lines|
      invariant 0 <= i <= |lines|
      invariant Run(st, lines[i..], toInt, toFloat) == Run(Initial, lines, toInt, toFloat)
    {
      assert lines[i..][0] == lines[i] && lines[i..][1..] == lines[i + 1..];
      var next := ReadLine(st, lines[i], toInt, toFloat);
      if next.Raise? {
        return next;
      }
      st := next.value;
      i := i + 1;
    }
    return Ok(st);
  }

  /** Reading `a + b` is reading `a`, then `b` from where `a` left off. */
  lemma {:induction false} RunConcat(step: (ReaderState, string) -> Result<ReaderState>, st: ReaderState,
                                     a: seq<string>, b: seq<string>)
    ensures RunSteps(step, st, a + b) ==
      if RunSteps(step, st, a).Raise? then RunSteps(step, st, a)
      else RunSteps(step, RunSteps(step, st, a).value, b)
    decreases |a|
  {
    if |a| == 0 {
      assert a + b == b;
    } else {
      assert (a + b)[0] == a[0] && (a + b)[1..] == a[1..] + b;
      var next := step(st, a[0]);
      if next.Ok? {
        RunConcat(step, next.value, a[1..], b);
      }
    }
  }

  /** Lines that are not header lines leave every header value as it was. */
  lemma {:induction false} HeaderKeptByDataLines(st: ReaderState, lines: seq<string>,
                                                 toInt: string -> Option<int>, toFloat: string -> Option<real>)
    requires forall k :: 0 <= k < |lines| ==> !IsHeaderLine(lines[k])
    requires Run(st, lines, toInt, toFloat).Ok?
    ensures Run(st, lines, toInt, toFloat).value.header == st.header
    decreases |lines|
  {
    if |lines| > 0 {
      HeaderKeptByDataLines(ReadLine(st, lines[0], toInt, toFloat).value, lines[1..], toInt, toFloat);
    }
  }

  /** No line removes a recorded row: both tables only gain keys. */
  lemma {:induction false} RowsPersist(st: ReaderState, lines: seq<string>,
                                       toInt: string -> Option<int>, toFloat: string -> Option<real>)
    requires Run(st, lines, toInt, toFloat).Ok?
    ensures st.exposures.Keys <= Run(st, lines, toInt, toFloat).value.exposures.Keys
    ensures st.regions.Keys <= Run(st, lines, toInt, toFloat).value.regions.Keys
    decreases |lines|
  {
    if |lines| > 0 {
      RowsPersist(ReadLine(st, lines[0], toInt, toFloat).value, lines[1..], toInt, toFloat);
    }
  }

  /** An exposure line read in state `st` is recorded under the current step
      and observation, and survives every later line. */
  lemma ExposureRecorded(st: ReaderState, line: string, after: seq<string>,
                         toInt: string -> Option<int>, toFloat: string -> Option<real>)
    requires IsExposureLine(line)
    requires Run(st, [line] + after, toInt, toFloat).Ok?
    ensures var w := Words(line);
      ExposureKey(st.header.step, st.header.obs, w[0], w[1]) in Run(st, [line] + after, toInt, toFloat).value.exposures
  {
    var rest := [line] + after;
    assert rest[0] == line && rest[1..] == after;
    var next := ReadLine(st, line, toInt, toFloat);
    assert Run(st, rest, toInt, toFloat) == Run(next.value, after, toInt, toFloat);
    RowsPersist(next.value, after, toInt, toFloat);
  }

  /** A run that succeeds succeeds up to any position `i`, and goes on from there
      with line `i`. */
  lemma RunSplitsAt(step: (ReaderState, string) -> Result<ReaderState>, st: ReaderState,
                    lines: seq<string>, i: nat)
    requires i < |lines|
    requires RunSteps(step, st, lines).Ok?
    ensures RunSteps(step, st, lines[..i]).Ok?
    ensures RunSteps(step, st, lines) == RunSteps(step, RunSteps(step, st, lines[..i]).value, [lines[i]] + lines[i + 1..])
  {
    var rest := lines[i..];
    assert lines == lines[..i] + rest;
    RunConcat(step, st, lines[..i], rest);
    assert rest == [lines[i]] + lines[i + 1..];
  }

  /** The exposure line at position `i` of the lines read from `st` is recorded
      under the step and the observation the lines before it left current, and
      survives every later line. */
  lemma ExposureCarriesHeader(st: ReaderState, lines: seq<string>, i: nat,
                              toInt: string -> Option<int>, toFloat: string -> Option<real>)
    requires i < |lines| && IsExposureLine(lines[i])
    requires Run(st, lines, toInt, toFloat).Ok?
    ensures Run(st, lines[..i], toInt, toFloat).Ok?
    ensures var h := Run(st, lines[..i], toInt, toFloat).value.header;
      var w := Words(lines[i]);
      ExposureKey(h.step, h.obs, w[0], w[1]) in Run(st, lines, toInt, toFloat).value.exposures
  {
    RunSplitsAt(ReadStep(toInt, toFloat), st, lines, i);
    var pre := Run(st, lines[..i], toInt, toFloat);
    ExposureRecorded(pre.value, lines[i], lines[i + 1..], toInt, toFloat);
  }
}
