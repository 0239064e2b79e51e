/** The bookkeeping of `compute_visibility`: which targets are examined, the grid
    of times at which they are sampled, the 54-126 degree Sun-angle window, and
    the wrapping of the nominal roll and the derived position angles into
    [0, 360). The Sun's position, the target-Sun separation and the roll
    geometry (arctan2, arccos) are inputs: the astronomy library computes them.
    Times are Modified Julian Dates in days. */
module TargetVisibility {
  import opened Wrappers

  // ---------------------------------------------------------------- targets

  /** A sky position, as the `SkyCoord` the caller passes. */
  datatype Coord = Coord(ra: real, dec: real)

  /** The `targets_coordinates` argument: a Python list, or anything else. */
  datatype TargetsArg = TargetList(items: seq<Coord>) | SingleTarget(item: Coord)

  /** The targets the object works on: a list is kept, anything else is wrapped
      in a one-element list. */
  function TargetsOf(arg: TargetsArg): (targets: seq<Coord>)
    ensures arg.TargetList? ==> targets == arg.items
    ensures arg.SingleTarget? ==> |targets| == 1 && targets[0] == arg.item
  {
    match arg
    case TargetList(items) => items
    case SingleTarget(item) => [item]
  }

  // ---------------------------------------------------------------- sampled times

  /** The `start_time` entry of the interval: absent, an astropy `Time`, a string
      (what `Time(s, format='isot')` makes of it, None when it raises), or
      anything else. */
  datatype StartArg = NoStart | TimeObject(mjd: real) | IsoText(parsed: Option<real>) | OtherStart

  datatype Interval = Interval(samplingDays: Option<real>, startTime: StartArg, durationDays: Option<real>)

  /** 2024-01-01T00:00:00 UTC as a Modified Julian Date. */
  const DefaultStart: real := 60310.0
  const DefaultDuration: real := 365.0
  const DefaultStep: real := 1.0

  /** The smallest integer not below `x`. */
  function Ceil(x: real): (c: int)
    ensures c as real - 1.0 < x <= c as real
  {
    if x == x.Floor as real then x.Floor else x.Floor + 1
  }

  /** How many values `np.arange(0, stop, step)` holds. */
  function ArangeCount(stop: real, step: real): nat
    requires step != 0.0
  {
    var c := Ceil(stop / step);
    if c < 0 then 0 else c
  }

  /** `np.arange(0, stop, step)`, on exact reals. */
  function Arange(stop: real, step: real): (r: seq<real>)
    requires step != 0.0
    ensures |r| == ArangeCount(stop, step)
    ensures forall k :: 0 <= k < |r| ==> r[k] == k as real * step
  {
    seq(ArangeCount(stop, step), k => k as real * step)
  }

  /** `k * step` is on the grid exactly when it lies on the `stop` side of 0:
      below `stop` for a positive step, above it for a negative one. */
  lemma ArangeCountMeans(stop: real, step: real, k: nat)
    requires step != 0.0
    ensures step > 0.0 ==> (k < ArangeCount(stop, step) <==> k as real * step < stop)
    ensures step < 0.0 ==> (k < ArangeCount(stop, step) <==> k as real * step > stop)
  {
    var y := stop / step;
    assert y * step == stop;
    assert k < Ceil(y) <==> k as real < y;
    if step > 0.0 {
      assert k as real < y <==> k as real * step < y * step;
    } else {
      assert k as real < y <==> k as real * step > y * step;
    }
  }

  /** The start of the grid: the default when absent, the `Time` as given, the
      parsed string, and an `assert False` for anything else. */
  function StartOf(start: StartArg): (r: Result<real>)
    ensures r.Raise? <==> start.OtherStart? || start == IsoText(None)
    ensures start.OtherStart? ==> r == Raise(AssertionError)
    ensures start.NoStart? ==> r == Ok(DefaultStart)
  {
    match start
    case NoStart => Ok(DefaultStart)
    case TimeObject(t) => Ok(t)
    case IsoText(p) => if p.Some? then Ok(p.value) else Raise(ValueError("isot"))
    case OtherStart => Raise(AssertionError)
  }

  function StopOf(interval: Interval): real {
    if interval.durationDays.Some? then interval.durationDays.value else DefaultDuration
  }

  function StepOf(interval: Interval): real {
    if interval.samplingDays.Some? then interval.samplingDays.value else DefaultStep
  }

  /** `set_sampled_times`: the start (2024-01-01 by default) plus every multiple
      of the step (1 day by default) below the duration (365 days by default).
      A start of the wrong type and a step larger than the duration fail their
      `assert`; numpy refuses a zero step. */
  function SampledTimes(interval: Interval): (r: Result<seq<real>>)
    ensures StartOf(interval.startTime).Raise? ==> r == Raise(StartOf(interval.startTime).error)
    ensures StartOf(interval.startTime).Ok? && StepOf(interval) > StopOf(interval) ==> r == Raise(AssertionError)
    ensures r.Ok? <==> StartOf(interval.startTime).Ok? && StepOf(interval) <= StopOf(interval) && StepOf(interval) != 0.0
    ensures r.Ok? ==> |r.value| == ArangeCount(StopOf(interval), StepOf(interval))
    ensures r.Ok? ==> forall k :: 0 <= k < |r.value| ==>
      r.value[k] == StartOf(interval.startTime).value + k as real * StepOf(interval)
  {
    var start := StartOf(interval.startTime);
    if start.Raise? then Raise(start.error)
    else
      var stop := StopOf(interval);
      var step := StepOf(interval);
      if step > stop then Raise(AssertionError)
      else if step == 0.0 then Raise(ZeroDivisionError)
      else
        var offsets := Arange(stop, step);
        Ok(seq(|offsets|, k requires 0 <= k < |offsets| => start.value + offsets[k]))
  }

  /** The grid holds `start + k * step` for exactly the `k` with `k * step`
      strictly between 0's side and the duration: below it for a positive step,
      above it for a negative one. */
  lemma SampledTimesGrid(interval: Interval, k: nat)
    requires SampledTimes(interval).Ok?
    ensures StepOf(interval) > 0.0 ==>
      (k < |SampledTimes(interval).value| <==> k as real * StepOf(interval) < StopOf(interval))
    ensures StepOf(interval) < 0.0 ==>
      (k < |SampledTimes(interval).value| <==> k as real * StepOf(interval) > StopOf(interval))
  {
    ArangeCountMeans(StopOf(interval), StepOf(interval), k);
  }

  /** Left to its defaults, the grid is the 365 days from 2024-01-01 on. */
  lemma DefaultSampling()
    ensures SampledTimes(Interval(None, NoStart, None)) ==
      Ok(seq(365, k => DefaultStart + k as real))
  {
    var r := SampledTimes(Interval(None, NoStart, None));
    assert Ceil(DefaultDuration / DefaultStep) == 365;
    assert |r.value| == 365;
    var expected := seq(365, k => DefaultStart + k as real);
    assert forall k :: 0 <= k < 365 ==> r.value[k] == expected[k];
    assert r.value == expected;
  }

  // ---------------------------------------------------------------- Sun angle window

  /** `min_sun_angle` and `max_sun_angle`: 36 degrees either side of 90. */
  const MinSunAngle: real := 90.0 - 36.0
  const MaxSunAngle: real := 90.0 + 36.0

  /** `good_angles`: the separation lies in the window, both ends included. */
  predicate GoodAngle(separation: real) {
    separation >= MinSunAngle && separation <= MaxSunAngle
  }

  /** The window is every separation at most 36 degrees from 90. */
  lemma GoodAngleMeans(separation: real)
    ensures GoodAngle(separation) <==> -36.0 <= separation - 90.0 <= 36.0
    ensures GoodAngle(separation) <==> 54.0 <= separation <= 126.0
  {
  }

  // ---------------------------------------------------------------- roll and position angles

  /** `np.where(x >= 0, x, x + 360)`. */
  function Wrap360(x: real): (w: real)
    ensures w == x || w == x + 360.0
    ensures x >= -360.0 ==> w >= 0.0
    ensures x < 360.0 ==> w < 360.0
  {
    if x >= 0.0 then x else x + 360.0
  }

  /** The nominal roll in degrees, from `phi` (the arctan2 result, in degrees)
      and the sign of the Sun's projection on the body Z axis: half a turn more
      when that projection is negative, then wrapped into [0, 360]. */
  function NominalRoll(phi: real, zSun: real): (roll: real)
    requires -180.0 < phi <= 180.0
    ensures 0.0 <= roll <= 360.0
    ensures zSun >= 0.0 ==> roll == phi || roll == phi + 360.0
    ensures zSun < 0.0 ==> roll == phi + 180.0
  {
    var turned := if zSun < 0.0 then phi + 180.0 else phi;
    Wrap360(turned)
  }

  /** The three position angles of `get_roll_pa_sunang`. */
  datatype PositionAngles = PositionAngles(obsY: real, fpaLocalX: real, fpaLocalY: real)

  /** The observatory +Y axis, 90 degrees behind the roll, and the projected WFI
      focal-plane axes, 30 and 120 degrees behind it; each wrapped by +360 when
      negative. */
  function PositionAnglesOf(roll: real): (pa: PositionAngles)
    requires 0.0 <= roll <= 360.0
    ensures 0.0 <= pa.obsY < 360.0 && 0.0 <= pa.fpaLocalX < 360.0 && 0.0 <= pa.fpaLocalY < 360.0
    ensures pa.obsY == roll - 90.0 || pa.obsY == roll + 270.0
    ensures pa.fpaLocalX == roll - 30.0 || pa.fpaLocalX == roll + 330.0
    ensures pa.fpaLocalY == roll - 120.0 || pa.fpaLocalY == roll + 240.0
  {
    PositionAngles(Wrap360(roll - 90.0), Wrap360(roll - 30.0), Wrap360(roll - 120.0))
  }

  /** The focal-plane axes keep their fixed offsets from the observatory +Y axis
      modulo a full turn: +X is 60 degrees ahead of it and +Y 30 degrees behind. */
  lemma PositionAnglesOffsets(roll: real)
    requires 0.0 <= roll <= 360.0
    ensures var pa := PositionAnglesOf(roll);
      (pa.fpaLocalX - pa.obsY == 60.0 || pa.fpaLocalX - pa.obsY == 60.0 - 360.0) &&
      (pa.obsY - pa.fpaLocalY == 30.0 || pa.obsY - pa.fpaLocalY == 30.0 - 360.0)
  {
  }

  // ---------------------------------------------------------------- the results table

  /** One row of `df_results` (one target at one sampled time); None is a cell
      still holding NaN. */
  datatype Row = Row(
    sunRa: Option<real>, sunDec: Option<real>, separation: Option<real>, goodAngles: Option<bool>,
    nominalRoll: Option<real>, paObsY: Option<real>, paFpaLocalX: Option<real>, paFpaLocalY: Option<real>,
    sunangX: Option<real>, sunangY: Option<real>, sunangZ: Option<real>)

  const EmptyRow: Row := Row(None, None, None, None, None, None, None, None, None, None, None)

  /** What the library computes for one target at one time: the arctan2 roll
      `phi` in degrees, the Sun's body-Z projection, and the three Sun angles. */
  datatype Geometry = Geometry(phi: real, zSun: real, sunangX: real, sunangY: real, sunangZ: real)

  predicate PhiInRange(g: Geometry) {
    -180.0 < g.phi <= 180.0
  }

  /** The row after `get_good_angles` wrote its four columns. */
  function WithAngles(row: Row, sunRa: real, sunDec: real, separation: real): (r: Row)
    ensures r.goodAngles == Some(GoodAngle(separation)) && r.separation == Some(separation)
    ensures r.sunRa == Some(sunRa) && r.sunDec == Some(sunDec)
    ensures r.(sunRa := row.sunRa, sunDec := row.sunDec, separation := row.separation,
      goodAngles := row.goodAngles) == row
  {
    row.(sunRa := Some(sunRa), sunDec := Some(sunDec), separation := Some(separation),
      goodAngles := Some(GoodAngle(separation)))
  }

  /** The row after `get_roll_pa_sunang` wrote its seven columns. */
  function WithRoll(row: Row, g: Geometry): (r: Row)
    requires PhiInRange(g)
    ensures r.nominalRoll == Some(NominalRoll(g.phi, g.zSun))
    ensures r.paObsY == Some(PositionAnglesOf(NominalRoll(g.phi, g.zSun)).obsY)
    ensures r.paFpaLocalX == Some(PositionAnglesOf(NominalRoll(g.phi, g.zSun)).fpaLocalX)
    ensures r.paFpaLocalY == Some(PositionAnglesOf(NominalRoll(g.phi, g.zSun)).fpaLocalY)
    ensures 0.0 <= r.paObsY.value < 360.0 && 0.0 <= r.paFpaLocalX.value < 360.0 && 0.0 <= r.paFpaLocalY.value < 360.0
    ensures r.sunangX == Some(g.sunangX) && r.sunangY == Some(g.sunangY) && r.sunangZ == Some(g.sunangZ)
    ensures r.sunRa == row.sunRa && r.sunDec == row.sunDec && r.separation == row.separation &&
      r.goodAngles == row.goodAngles
  {
    var roll := NominalRoll(g.phi, g.zSun);
    var pa := PositionAnglesOf(roll);
    row.(nominalRoll := Some(roll), paObsY := Some(pa.obsY), paFpaLocalX := Some(pa.fpaLocalX),
      paFpaLocalY := Some(pa.fpaLocalY), sunangX := Some(g.sunangX), sunangY := Some(g.sunangY),
      sunangZ := Some(g.sunangZ))
  }

  /** `compute_visibility`: the targets, the sampled times and the results table,
      one sequence of rows per target. */
  class ComputeVisibility {
    const targets: seq<Coord>
    const sampledTimes: seq<real>
    const minSunAngle: real
    const maxSunAngle: real
    var results: seq<seq<Row>>

    /** The table has one row per target and sampled time. */
    predicate Valid()
      reads this
    {
      |results| == |targets| && forall i :: 0 <= i < |results| ==> |results[i]| == |sampledTimes|
    }

    /** The object `__init__` builds once `set_sampled_times` has returned;
        `NewComputeVisibility` is the call that may raise first. */
    constructor(arg: TargetsArg, interval: Interval)
      requires SampledTimes(interval).Ok?
      ensures Valid() && targets == TargetsOf(arg) && sampledTimes == SampledTimes(interval).value
      ensures minSunAngle == MinSunAngle && maxSunAngle == MaxSunAngle
      ensures forall i, t :: 0 <= i < |results| && 0 <= t < |results[i]| ==> results[i][t] == EmptyRow
    {
      var times := SampledTimes(interval).value;
      targets := TargetsOf(arg);
      sampledTimes := times;
      minSunAngle := MinSunAngle;
      maxSunAngle := MaxSunAngle;
      results := seq(|TargetsOf(arg)|, i => seq(|times|, t => EmptyRow));
    }

    /** `get_good_angles`: for each target, the Sun's position, the separation
        and whether it lies in the window, at every sampled time. */
    method GetGoodAngles(sunRa: seq<real>, sunDec: seq<real>, separation: seq<seq<real>>)
      requires Valid()
      requires |sunRa| == |sampledTimes| && |sunDec| == |sampledTimes| && |separation| == |targets|
      requires forall i :: 0 <= i < |separation| ==> |separation[i]| == |sampledTimes|
      modifies this
      ensures Valid()
      ensures forall i, t :: 0 <= i < |targets| && 0 <= t < |sampledTimes| ==>
        results[i][t] == WithAngles(old(results)[i][t], sunRa[t], sunDec[t], separation[i][t])
    {
      var i := 0;
      while i < |targets|
        invariant 0 <= i <= |targets| && Valid()
        invariant forall j, t :: 0 <= j < i && 0 <= t < |sampledTimes| ==>
          results[j][t] == WithAngles(old(results)[j][t], sunRa[t], sunDec[t], separation[j][t])
        invariant forall j :: i <= j < |targets| ==> results[j] == old(results)[j]
      {
        var rows := results[i];
        var updated := seq(|sampledTimes|, t requires 0 <= t < |sampledTimes| =>
          WithAngles(rows[t], sunRa[t], sunDec[t], separation[i][t]));
        results := results[i := updated];
        i := i + 1;
      }
    }

    /** `get_roll_pa_sunang`: for each target, the nominal roll, the position
        angles and the Sun angles at every sampled time. */
    method GetRollPaSunang(geometry: seq<seq<Geometry>>)
      requires Valid()
      requires |geometry| == |targets|
      requires forall i :: 0 <= i < |geometry| ==> |geometry[i]| == |sampledTimes|
      requires forall i, t :: 0 <= i < |geometry| && 0 <= t < |geometry[i]| ==> PhiInRange(geometry[i][t])
      modifies this
      ensures Valid()
      ensures forall i, t :: 0 <= i < |targets| && 0 <= t < |sampledTimes| ==>
        results[i][t] == WithRoll(old(results)[i][t], geometry[i][t])
    {
      var i := 0;
      while i < |targets|
        invariant 0 <= i <= |targets| && Valid()
        invariant forall j, t :: 0 <= j < i && 0 <= t < |sampledTimes| ==>
          results[j][t] == WithRoll(old(results)[j][t], geometry[j][t])
        invariant forall j :: i <= j < |targets| ==> results[j] == old(results)[j]
      {
        var rows := results[i];
        var updated := seq(|sampledTimes|, t requires 0 <= t < |sampledTimes| => WithRoll(rows[t], geometry[i][t]));
        results := results[i := updated];
        i := i + 1;
      }
    }
  }

  /** `compute_visibility(targets, interval_sampling_days=..., interval_start_time=...,
      interval_duration_days=...)`: the exception of `set_sampled_times` when it
      raises, otherwise a fresh object over the wrapped targets and the grid. */
  method NewComputeVisibility(arg: TargetsArg, interval: Interval) returns (r: Result<ComputeVisibility>)
    ensures r.Raise? <==> SampledTimes(interval).Raise?
    ensures r.Raise? ==> r.error == SampledTimes(interval).error
    ensures r.Ok? ==> fresh(r.value) && r.value.Valid()
    ensures r.Ok? ==> r.value.targets == TargetsOf(arg) && r.value.sampledTimes == SampledTimes(interval).value
    ensures r.Ok? ==> forall i, t :: 0 <= i < |r.value.results| && 0 <= t < |r.value.results[i]| ==>
      r.value.results[i][t] == EmptyRow
  {
    var times := SampledTimes(interval);
    if times.Raise? {
      return Raise(times.error);
    }
    var cv := new ComputeVisibility(arg, interval);
    return Ok(cv);
  }

  /** After both passes every cell of the table is filled: the window flag agrees
      with the separation and every position angle lies in [0, 360). */
  lemma ComputedRowsComplete(row: Row, sunRa: real, sunDec: real, separation: real, g: Geometry)
    requires PhiInRange(g)
    ensures var r := WithRoll(WithAngles(row, sunRa, sunDec, separation), g);
      r.goodAngles == Some(54.0 <= separation <= 126.0) &&
      0.0 <= r.nominalRoll.value <= 360.0 &&
      0.0 <= r.paObsY.value < 360.0 && 0.0 <= r.paFpaLocalX.value < 360.0 && 0.0 <= r.paFpaLocalY.value < 360.0
  {
  }
}
