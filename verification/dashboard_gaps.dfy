/** The "not visible" bookkeeping of the background dashboard's bathtub plot:
    shaded spans for the calendar days a sky position cannot be observed, NaN
    breaks in the plotted lines, and the dashed segments that bridge them.
    Days are the integer day-of-year indices of the calendar (0..365). */
module DashboardGaps {
  import opened Wrappers

  /** A shaded interval `(left, right)` on the day axis. */
  datatype Span = Span(left: real, right: real)

  predicate StrictlyIncreasing(d: seq<int>) {
    forall i, j :: 0 <= i < j < |d| ==> d[i] < d[j]
  }

  /** Day `b` follows day `a` after at least one missing day. */
  predicate IsJump(a: int, b: int) {
    b - a > 1
  }

  /** The number of consecutive pairs of `d` that are more than one day apart. */
  function JumpCount(d: seq<int>): nat {
    if |d| < 2 then 0
    else JumpCount(d[..|d| - 1]) + (if IsJump(d[|d| - 2], d[|d| - 1]) then 1 else 0)
  }

  // ---------------------------------------------------------------- internal gaps

  /** The span `_gap_spans` emits for the consecutive pair `a`, `b`. */
  function GapBetween(a: int, b: int): seq<Span> {
    if IsJump(a, b) then
      var left := a as real + 0.5;
      var right := b as real - 0.5;
      if right > left then [Span(left, right)] else []
    else []
  }

  /** The spans `_gap_spans` returns, pair by pair in order. */
  function InternalGaps(d: seq<int>): seq<Span> {
    if |d| < 2 then [] else InternalGaps(d[..|d| - 1]) + GapBetween(d[|d| - 2], d[|d| - 1])
  }

  /** `_gap_spans`: the loop over consecutive pairs of days. */
  method GapSpans(days: seq<int>) returns (spans: seq<Span>)
    ensures spans == InternalGaps(days)
  {
    spans := [];
    if |days| < 2 {
      return;
    }
    var i := 0;
    while i < |days| - 1
      invariant 0 <= i <= |days| - 1
      invariant spans == InternalGaps(days[..i + 1])
    {
      if days[i + 1] - days[i] > 1 {
        var left := days[i] as real + 0.5;
        var right := days[i + 1] as real - 0.5;
        if right > left {
          spans := spans + [Span(left, right)];
        }
      }
      assert days[..i + 2][..i + 1] == days[..i + 1];
      i := i + 1;
    }
    assert days[..|days|] == days;
  }

  /** One span per jump, nothing for fewer than two days; every span is proper. */
  lemma {:induction false} InternalGapsCount(d: seq<int>)
    ensures |InternalGaps(d)| == JumpCount(d)
    ensures |d| < 2 ==> InternalGaps(d) == []
    ensures forall k :: 0 <= k < |InternalGaps(d)| ==> InternalGaps(d)[k].left < InternalGaps(d)[k].right
  {
    if |d| >= 2 {
      InternalGapsCount(d[..|d| - 1]);
    }
  }

  /** For sorted days, every internal span lies between the first and the last day. */
  lemma {:induction false} InternalGapsWithin(d: seq<int>)
    requires |d| >= 1 && StrictlyIncreasing(d)
    ensures forall k :: 0 <= k < |InternalGaps(d)| ==>
      d[0] as real + 0.5 <= InternalGaps(d)[k].left && InternalGaps(d)[k].right <= d[|d| - 1] as real - 0.5
  {
    if |d| >= 2 {
      var p := d[..|d| - 1];
      InternalGapsWithin(p);
      assert p[|p| - 1] == d[|d| - 2];
    }
  }

  /** `x` lies in the closed interval of `s`. */
  predicate InSpan(s: Span, x: int) {
    s.left <= x as real <= s.right
  }

  /** Some span of `spans` shades day `x`. */
  predicate Covers(spans: seq<Span>, x: int) {
    exists k :: 0 <= k < |spans| && InSpan(spans[k], x)
  }

  lemma CoversConcat(a: seq<Span>, b: seq<Span>, x: int)
    ensures Covers(a + b, x) <==> Covers(a, x) || Covers(b, x)
  {
    if Covers(a + b, x) {
      var k :| 0 <= k < |a + b| && InSpan((a + b)[k], x);
      if k < |a| {
        assert InSpan(a[k], x);
      } else {
        assert InSpan(b[k - |a|], x);
      }
    }
    if Covers(a, x) {
      var k :| 0 <= k < |a| && InSpan(a[k], x);
      assert InSpan((a + b)[k], x);
    }
    if Covers(b, x) {
      var k :| 0 <= k < |b| && InSpan(b[k], x);
      assert InSpan((a + b)[|a| + k], x);
    }
  }

  /** The span between two consecutive days shades exactly the days strictly between them. */
  lemma GapBetweenCovers(a: int, b: int, x: int)
    requires a < b
    ensures Covers(GapBetween(a, b), x) <==> a < x < b
  {
    if a < x < b {
      assert InSpan(GapBetween(a, b)[0], x);
    }
  }

  /** No internal span of sorted days reaches past the last day. */
  lemma InternalGapsBeyond(d: seq<int>, x: int)
    requires |d| >= 1 && StrictlyIncreasing(d)
    requires x > d[|d| - 1]
    ensures !Covers(InternalGaps(d), x)
  {
    InternalGapsWithin(d);
  }

  /** Between the first and the last visible day, the internal spans shade exactly
      the days that are missing from the calendar. */
  lemma {:induction false} InternalGapsCoverMissingDays(d: seq<int>, x: int)
    requires |d| >= 1 && StrictlyIncreasing(d)
    requires d[0] <= x <= d[|d| - 1]
    ensures Covers(InternalGaps(d), x) <==> x !in d
    decreases |d|
  {
    if |d| >= 2 {
      var p := d[..|d| - 1];
      var a, b := d[|d| - 2], d[|d| - 1];
      assert d == p + [b];
      assert p[|p| - 1] == a;
      assert InternalGaps(d) == InternalGaps(p) + GapBetween(a, b);
      CoversConcat(InternalGaps(p), GapBetween(a, b), x);
      GapBetweenCovers(a, b, x);
      assert x in d <==> x in p || x == b;
      if x <= a {
        InternalGapsCoverMissingDays(p, x);
      } else {
        InternalGapsBeyond(p, x);
        assert x !in p by {
          assert forall i :: 0 <= i < |p| ==> p[i] <= a;
        }
      }
    }
  }

  // ---------------------------------------------------------------- edge spans

  function SeqMin(d: seq<int>): (m: int)
    requires |d| >= 1
    ensures m in d && forall i :: 0 <= i < |d| ==> m <= d[i]
  {
    if |d| == 1 then d[0]
    else
      var m := SeqMin(d[..|d| - 1]);
      assert m in d;
      if d[|d| - 1] < m then d[|d| - 1] else m
  }

  function SeqMax(d: seq<int>): (m: int)
    requires |d| >= 1
    ensures m in d && forall i :: 0 <= i < |d| ==> d[i] <= m
  {
    if |d| == 1 then d[0]
    else
      var m := SeqMax(d[..|d| - 1]);
      assert m in d;
      if d[|d| - 1] > m then d[|d| - 1] else m
  }

  /** The list comprehension that keeps only spans with `R > L`. */
  function KeepProper(spans: seq<Span>): (r: seq<Span>)
    ensures forall k :: 0 <= k < |r| ==> r[k].left < r[k].right && r[k] in spans
    ensures forall s :: s in spans && s.left < s.right ==> s in r
  {
    if spans == [] then []
    else (if spans[0].left < spans[0].right then [spans[0]] else []) + KeepProper(spans[1..])
  }

  /** `_edge_spans`: the shading before the first and after the last visible day. */
  function EdgeSpans(d: seq<int>): (r: seq<Span>)
    ensures |d| == 0 ==> r == [Span(0.0, 365.0)]
    ensures |d| > 0 ==>
      (Span(0.0, SeqMin(d) as real - 0.5) in r <==> SeqMin(d) > 0) &&
      (Span(SeqMax(d) as real + 0.5, 365.0) in r <==> SeqMax(d) < 365) &&
      |r| <= 2
    ensures forall k :: 0 <= k < |r| ==> r[k].left < r[k].right
  {
    if |d| == 0 then [Span(0.0, 365.0)]
    else
      var first := SeqMin(d) as real;
      var last := SeqMax(d) as real;
      var lead := if first > 0.0 then [Span(0.0, first - 0.5)] else [];
      var trail := if last < 365.0 then [Span(last + 0.5, 365.0)] else [];
      KeepProperAllProper(lead + trail);
      KeepProper(lead + trail)
  }

  /** The filter keeps a list of proper spans as it is. */
  lemma {:induction false} KeepProperAllProper(spans: seq<Span>)
    requires forall k :: 0 <= k < |spans| ==> spans[k].left < spans[k].right
    ensures KeepProper(spans) == spans
  {
    if spans != [] {
      KeepProperAllProper(spans[1..]);
    }
  }

  // ---------------------------------------------------------------- shading

  /** `spans_internal + spans_edges` in `_recompute_shading`. */
  function ShadeSpans(d: seq<int>): seq<Span> {
    InternalGaps(d) + EdgeSpans(d)
  }

  /** The quads and labels `_recompute_shading` publishes (the y extent, computed
      from the plot's log-scale range, is not modelled). */
  datatype Shading = Shading(left: seq<real>, right: seq<real>, labelX: seq<real>, labelText: seq<string>)

  function RecomputeShading(d: seq<int>): (sh: Shading)
    ensures |sh.left| == |sh.right| == |sh.labelX| == |sh.labelText| == |ShadeSpans(d)|
    ensures forall k :: 0 <= k < |sh.left| ==>
      sh.left[k] == ShadeSpans(d)[k].left && sh.right[k] == ShadeSpans(d)[k].right &&
      sh.labelX[k] == (sh.left[k] + sh.right[k]) / 2.0 &&
      sh.left[k] < sh.labelX[k] < sh.right[k] && sh.labelText[k] == "Not visible"
  {
    var spans := ShadeSpans(d);
    InternalGapsCount(d);
    Shading(
      seq(|spans|, k requires 0 <= k < |spans| => spans[k].left),
      seq(|spans|, k requires 0 <= k < |spans| => spans[k].right),
      seq(|spans|, k requires 0 <= k < |spans| => (spans[k].left + spans[k].right) / 2.0),
      seq(|spans|, k requires 0 <= k < |spans| => "Not visible"))
  }

  /** For a calendar of sorted days within 0..365, a day of the year is shaded
      exactly when it is not in the calendar. */
  lemma ShadingMarksMissingDays(d: seq<int>, x: int)
    requires StrictlyIncreasing(d)
    requires forall i :: 0 <= i < |d| ==> 0 <= d[i] <= 365
    requires 0 <= x <= 365
    ensures Covers(ShadeSpans(d), x) <==> x !in d
  {
    CoversConcat(InternalGaps(d), EdgeSpans(d), x);
    if |d| == 0 {
      assert InSpan(EdgeSpans(d)[0], x);
    } else {
      EdgeSpansCover(d, x);
      if d[0] <= x <= d[|d| - 1] {
        InternalGapsCoverMissingDays(d, x);
      } else {
        assert x !in d by {
          assert forall i :: 0 <= i < |d| ==> d[0] <= d[i] <= d[|d| - 1];
        }
      }
    }
  }

  /** The edge spans of a sorted calendar shade exactly the days of the year
      before its first day and after its last. */
  lemma EdgeSpansCover(d: seq<int>, x: int)
    requires |d| >= 1 && StrictlyIncreasing(d)
    requires 0 <= x <= 365
    ensures Covers(EdgeSpans(d), x) <==> x < d[0] || x > d[|d| - 1]
  {
    var first, last := d[0], d[|d| - 1];
    assert SeqMin(d) == first && SeqMax(d) == last;
    var e := EdgeSpans(d);
    if x < first {
      var k :| 0 <= k < |e| && e[k] == Span(0.0, first as real - 0.5);
      assert InSpan(e[k], x);
    } else if x > last {
      var k :| 0 <= k < |e| && e[k] == Span(last as real + 0.5, 365.0);
      assert InSpan(e[k], x);
    } else {
      EdgeSpansShape(d);
    }
  }

  /** Each edge span ends half a day before the first visible day or starts half a
      day after the last one. */
  lemma EdgeSpansShape(d: seq<int>)
    requires |d| >= 1
    ensures forall k :: 0 <= k < |EdgeSpans(d)| ==>
      EdgeSpans(d)[k] == Span(0.0, SeqMin(d) as real - 0.5) ||
      EdgeSpans(d)[k] == Span(SeqMax(d) as real + 0.5, 365.0)
  {
  }

  // ---------------------------------------------------------------- plotted lines

  /** One entry of a plotted line: a sample, or the NaN break put before a jump.
      A NaN sample value is `None`. */
  datatype LinePoint = Break | Sample(day: int, value: Option<real>)

  /** The break `_insert_nans_for_gaps` puts between consecutive days `a`, `b`. */
  function BreakBetween(a: int, b: int): seq<LinePoint> {
    if IsJump(a, b) then [Break] else []
  }

  /** What `_insert_nans_for_gaps` produces, as one sequence of (x, y) entries. */
  function Separated(x: seq<int>, y: seq<Option<real>>): seq<LinePoint>
    requires |x| == |y|
  {
    if |x| == 0 then []
    else if |x| == 1 then [Sample(x[0], y[0])]
    else
      var n := |x|;
      Separated(x[..n - 1], y[..n - 1]) + BreakBetween(x[n - 2], x[n - 1]) + [Sample(x[n - 1], y[n - 1])]
  }

  /** `_insert_nans_for_gaps`: copies the samples, adding a break before each jump. */
  method InsertNansForGaps(x: seq<int>, y: seq<Option<real>>) returns (line: seq<LinePoint>)
    requires |x| == |y|
    ensures line == Separated(x, y)
  {
    if |x| == 0 {
      return [];
    }
    line := [Sample(x[0], y[0])];
    var i := 1;
    while i < |x|
      invariant 1 <= i <= |x|
      invariant line == Separated(x[..i], y[..i])
    {
      if x[i] - x[i - 1] > 1 {
        line := line + [Break];
      }
      line := line + [Sample(x[i], y[i])];
      assert x[..i + 1][..i] == x[..i];
      assert y[..i + 1][..i] == y[..i];
      i := i + 1;
    }
    assert x[..|x|] == x;
    assert y[..|y|] == y;
  }

  /** The samples of a line with its breaks dropped. */
  function SamplesOf(line: seq<LinePoint>): seq<(int, Option<real>)> {
    if line == [] then []
    else
      var rest := SamplesOf(line[..|line| - 1]);
      match line[|line| - 1]
      case Break => rest
      case Sample(d, v) => rest + [(d, v)]
  }

  /** The number of breaks in a line. */
  function BreakCount(line: seq<LinePoint>): nat {
    if line == [] then 0 else BreakCount(line[..|line| - 1]) + (if line[|line| - 1].Break? then 1 else 0)
  }

  /** The input samples paired up, `zip(x, y)`. */
  function Pairs(x: seq<int>, y: seq<Option<real>>): (p: seq<(int, Option<real>)>)
    requires |x| == |y|
    ensures |p| == |x| && forall i :: 0 <= i < |x| ==> p[i] == (x[i], y[i])
  {
    if |x| == 0 then [] else Pairs(x[..|x| - 1], y[..|y| - 1]) + [(x[|x| - 1], y[|y| - 1])]
  }

  lemma {:induction false} LineConcat(a: seq<LinePoint>, b: seq<LinePoint>)
    ensures SamplesOf(a + b) == SamplesOf(a) + SamplesOf(b)
    ensures BreakCount(a + b) == BreakCount(a) + BreakCount(b)
    decreases |b|
  {
    if b != [] {
      assert (a + b)[..|a + b| - 1] == a + b[..|b| - 1];
      LineConcat(a, b[..|b| - 1]);
    } else {
      assert a + b == a;
    }
  }

  /** The output has one break per jump, so its length is `n + gaps`. */
  lemma {:induction false} SeparatedLength(x: seq<int>, y: seq<Option<real>>)
    requires |x| == |y|
    ensures |Separated(x, y)| == |x| + JumpCount(x)
    ensures BreakCount(Separated(x, y)) == JumpCount(x)
  {
    var n := |x|;
    if n == 1 {
      assert BreakCount([Sample(x[0], y[0])]) == BreakCount([]);
    } else if n >= 2 {
      var px, py := x[..n - 1], y[..n - 1];
      SeparatedLength(px, py);
      var mid := BreakBetween(x[n - 2], x[n - 1]);
      var last := [Sample(x[n - 1], y[n - 1])];
      LineConcat(Separated(px, py) + mid, last);
      LineConcat(Separated(px, py), mid);
      assert BreakCount(last) == BreakCount([]);
      assert mid != [] ==> BreakCount(mid) == BreakCount([]) + 1;
    }
  }

  /** Dropping the breaks gives back the input samples, in order. */
  lemma {:induction false} SeparatedSamples(x: seq<int>, y: seq<Option<real>>)
    requires |x| == |y|
    ensures SamplesOf(Separated(x, y)) == Pairs(x, y)
  {
    var n := |x|;
    if n == 1 {
      assert SamplesOf([Sample(x[0], y[0])]) == SamplesOf([]) + [(x[0], y[0])];
    } else if n >= 2 {
      var px, py := x[..n - 1], y[..n - 1];
      SeparatedSamples(px, py);
      var mid := BreakBetween(x[n - 2], x[n - 1]);
      var last := [Sample(x[n - 1], y[n - 1])];
      LineConcat(Separated(px, py) + mid, last);
      LineConcat(Separated(px, py), mid);
      assert SamplesOf(last) == SamplesOf([]) + [(x[n - 1], y[n - 1])];
      assert mid != [] ==> SamplesOf(mid) == SamplesOf([]);
    }
  }

  // ---------------------------------------------------------------- dashed bridges

  /** A dashed segment from `(x0, y0)` to `(x1, y1)`. */
  datatype Segment = Segment(x0: int, y0: real, x1: int, y1: real)

  /** The segment `_gap_segments` emits for one consecutive pair, if any. */
  function Bridge(a: int, ya: Option<real>, b: int, yb: Option<real>): seq<Segment> {
    if IsJump(a, b) && ya.Some? && yb.Some? then [Segment(a, ya.value, b, yb.value)] else []
  }

  function Bridges(x: seq<int>, y: seq<Option<real>>): seq<Segment>
    requires |x| == |y|
  {
    var n := |x|;
    if n < 2 then [] else Bridges(x[..n - 1], y[..n - 1]) + Bridge(x[n - 2], y[n - 2], x[n - 1], y[n - 1])
  }

  /** `_gap_segments`: the loop over consecutive pairs. */
  method GapSegments(x: seq<int>, y: seq<Option<real>>) returns (segs: seq<Segment>)
    requires |x| == |y|
    ensures segs == Bridges(x, y)
  {
    segs := [];
    if |x| < 2 {
      return;
    }
    var i := 0;
    while i < |x| - 1
      invariant 0 <= i <= |x| - 1
      invariant segs == Bridges(x[..i + 1], y[..i + 1])
    {
      if x[i + 1] - x[i] > 1 && y[i].Some? && y[i + 1].Some? {
        segs := segs + [Segment(x[i], y[i].value, x[i + 1], y[i + 1].value)];
      }
      assert x[..i + 2][..i + 1] == x[..i + 1];
      assert y[..i + 2][..i + 1] == y[..i + 1];
      i := i + 1;
    }
    assert x[..|x|] == x;
    assert y[..|y|] == y;
  }

  /** Two consecutive samples across a jump, both with a finite value. */
  predicate BridgedPair(x: seq<int>, y: seq<Option<real>>, i: int, g: Segment)
    requires |x| == |y|
  {
    0 <= i < |x| - 1 && IsJump(x[i], x[i + 1]) && y[i].Some? && y[i + 1].Some? &&
    g == Segment(x[i], y[i].value, x[i + 1], y[i + 1].value)
  }

  /** Every segment joins two consecutive finite samples across a jump. */
  lemma {:induction false} BridgesJoinJumps(x: seq<int>, y: seq<Option<real>>, k: int)
    requires |x| == |y|
    requires 0 <= k < |Bridges(x, y)|
    ensures exists i :: BridgedPair(x, y, i, Bridges(x, y)[k])
  {
    var n := |x|;
    var px, py := x[..n - 1], y[..n - 1];
    assert Bridges(x, y) == Bridges(px, py) + Bridge(x[n - 2], y[n - 2], x[n - 1], y[n - 1]);
    if k < |Bridges(px, py)| {
      BridgesJoinJumps(px, py, k);
      var i :| BridgedPair(px, py, i, Bridges(px, py)[k]);
      assert BridgedPair(x, y, i, Bridges(x, y)[k]);
    } else {
      assert BridgedPair(x, y, n - 2, Bridges(x, y)[k]);
    }
  }

  /** There are never more segments than jumps, and when every value is finite
      there is exactly one segment per break of the plotted line. */
  lemma {:induction false} BridgesCount(x: seq<int>, y: seq<Option<real>>)
    requires |x| == |y|
    ensures |Bridges(x, y)| <= JumpCount(x)
    ensures (forall i :: 0 <= i < |y| ==> y[i].Some?) ==> |Bridges(x, y)| == JumpCount(x)
    ensures (forall i :: 0 <= i < |y| ==> y[i].Some?) ==> |Bridges(x, y)| == BreakCount(Separated(x, y))
  {
    var n := |x|;
    if n >= 2 {
      var py := y[..n - 1];
      BridgesCount(x[..n - 1], py);
      if forall i :: 0 <= i < |y| ==> y[i].Some? {
        assert forall i :: 0 <= i < |py| ==> py[i].Some?;
      }
    }
    SeparatedLength(x, y);
  }
}
