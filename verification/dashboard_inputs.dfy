/** The four text boxes of the background dashboard and the sliders they drive:
    range-checked parsing of what the user typed, the commit handlers that move a
    slider, and the slider-to-text synchronisation with its re-entrancy guard.
    What `float(text)` returns is an input (`None` when it raises). */
module DashboardInputs {
  import opened Wrappers

  /** A Python float. */
  datatype PyFloat = Finite(x: real) | NaN | PosInf | NegInf

  /** Python's `a < b` on floats: false whenever NaN takes part. */
  predicate Less(a: PyFloat, b: PyFloat) {
    match a
    case NaN => false
    case PosInf => false
    case NegInf => !b.NaN? && !b.NegInf?
    case Finite(x) => b.PosInf? || (b.Finite? && x < b.x)
  }

  // ---------------------------------------------------------------- parsers as written

  /** The shared shape of `_parse_ra`, `_parse_dec` and `_parse_thresh`: reject a
      failed parse and values below `lo` or above `hi`, keep everything else. */
  function RangeChecked(parsed: Option<PyFloat>, lo: real, hi: real): (r: Option<PyFloat>)
    ensures r.Some? <==> parsed.Some? && (parsed.value.NaN? || (parsed.value.Finite? && lo <= parsed.value.x <= hi))
    ensures r.Some? ==> r == parsed
  {
    if parsed.None? || Less(parsed.value, Finite(lo)) || Less(Finite(hi), parsed.value) then None else parsed
  }

  /** `_parse_ra`: accepts [0, 360], and also NaN. */
  function ParseRa(parsed: Option<PyFloat>): (r: Option<PyFloat>)
    ensures r.Some? <==> parsed.Some? && (parsed.value.NaN? || (parsed.value.Finite? && 0.0 <= parsed.value.x <= 360.0))
    ensures r.Some? ==> r == parsed
  {
    RangeChecked(parsed, 0.0, 360.0)
  }

  /** `_parse_dec`: accepts [-90, 90], and also NaN. */
  function ParseDec(parsed: Option<PyFloat>): (r: Option<PyFloat>)
    ensures r.Some? <==> parsed.Some? && (parsed.value.NaN? || (parsed.value.Finite? && -90.0 <= parsed.value.x <= 90.0))
    ensures r.Some? ==> r == parsed
  {
    RangeChecked(parsed, -90.0, 90.0)
  }

  /** `_parse_thresh`: accepts [1, 2], and also NaN. */
  function ParseThresh(parsed: Option<PyFloat>): (r: Option<PyFloat>)
    ensures r.Some? <==> parsed.Some? && (parsed.value.NaN? || (parsed.value.Finite? && 1.0 <= parsed.value.x <= 2.0))
    ensures r.Some? ==> r == parsed
  {
    RangeChecked(parsed, 1.0, 2.0)
  }

  /** Typing "nan" gets past all three range checks, because every comparison
      with NaN is false. */
  lemma ParsersAcceptNaN()
    ensures ParseRa(Some(NaN)) == Some(NaN)
    ensures ParseDec(Some(NaN)) == Some(NaN)
    ensures ParseThresh(Some(NaN)) == Some(NaN)
  {
  }

  // ---------------------------------------------------------------- corrected parsers

  /** The range check the parsers evidently intend: a finite value in [lo, hi]. */
  function FiniteInRange(parsed: Option<PyFloat>, lo: real, hi: real): (r: Option<real>)
    ensures r.Some? <==> parsed.Some? && parsed.value.Finite? && lo <= parsed.value.x <= hi
    ensures r.Some? ==> parsed == Some(Finite(r.value))
  {
    if parsed.Some? && parsed.value.Finite? && lo <= parsed.value.x <= hi then Some(parsed.value.x) else None
  }

  function AsPyFloat(v: Option<real>): Option<PyFloat> {
    if v.Some? then Some(Finite(v.value)) else None
  }

  /** The corrected check differs from the code only on NaN. */
  lemma FiniteInRangeAgrees(parsed: Option<PyFloat>, lo: real, hi: real)
    requires parsed != Some(NaN)
    ensures RangeChecked(parsed, lo, hi) == AsPyFloat(FiniteInRange(parsed, lo, hi))
  {
  }

  // ---------------------------------------------------------------- day parser

  /** Python's `int(x)` on a finite float: truncation toward zero. */
  function Truncate(x: real): (t: int)
    ensures x >= 0.0 ==> 0 <= t && t as real <= x < t as real + 1.0
    ensures x < 0.0 ==> t <= 0 && t as real - 1.0 < x <= t as real
  {
    if x >= 0.0 then x.Floor else -((-x).Floor)
  }

  /** `_parse_day`: `int(float(s))` kept when it lies in 0..365. `int` raises on
      NaN and on the infinities, which the handler turns into None. */
  function ParseDay(parsed: Option<PyFloat>): (r: Option<int>)
    ensures r.Some? <==> parsed.Some? && parsed.value.Finite? && -1.0 < parsed.value.x < 366.0
    ensures r.Some? ==> 0 <= r.value <= 365 && r.value == Truncate(parsed.value.x)
  {
    if parsed.None? || !parsed.value.Finite? then None
    else
      var v := Truncate(parsed.value.x);
      if 0 <= v <= 365 then Some(v) else None
  }

  // ---------------------------------------------------------------- commit and sync

  function Abs(x: real): real {
    if x < 0.0 then -x else x
  }

  /** `np.isclose(a, b)` on finite values, with its default tolerances. */
  predicate IsClose(a: real, b: real) {
    Abs(a - b) <= 0.00000001 + 0.00001 * Abs(b)
  }

  /** `np.isclose(a, b)` on Python floats: NaN is close to nothing (not even
      NaN), an infinity only to itself. */
  predicate PyIsClose(a: PyFloat, b: PyFloat) {
    match a
    case Finite(x) => b.Finite? && IsClose(x, b.x)
    case NaN => false
    case PosInf => b.PosInf?
    case NegInf => b.NegInf?
  }

  datatype Field = Ra | Dec | Thresh | Day

  const AllFields: set<Field> := {Ra, Dec, Thresh, Day}

  /** The inclusive range the parser of field `f` accepts among finite values. */
  function Low(f: Field): real {
    match f
    case Ra => 0.0
    case Dec => -90.0
    case Thresh => 1.0
    case Day => 0.0
  }

  function High(f: Field): real {
    match f
    case Ra => 360.0
    case Dec => 90.0
    case Thresh => 2.0
    case Day => 365.0
  }

  /** The value a commit handler, as written, moves slider `f` to, or None when
      it leaves the slider alone: the guard is set, the text does not get past
      the field's parser, or the value matches the slider (`isclose` for the
      real fields, equality with `int(slider)` for the day; `int` of a slider
      that is not finite raises, which also ends the handler). */
  function CommitValue(f: Field, guarded: bool, parsed: Option<PyFloat>, current: PyFloat): (r: Option<PyFloat>)
    ensures guarded ==> r.None?
    ensures f != Day ==>
      (r.Some? <==>
         (!guarded && parsed.Some? && !PyIsClose(parsed.value, current) &&
          (parsed.value.NaN? || (parsed.value.Finite? && Low(f) <= parsed.value.x <= High(f)))))
    ensures f != Day && r.Some? ==> r == parsed
    ensures f == Day ==>
      (r.Some? <==>
         (!guarded && ParseDay(parsed).Some? && current.Finite? && ParseDay(parsed).value != Truncate(current.x)))
    ensures f == Day && r.Some? ==> r == Some(Finite(ParseDay(parsed).value as real))
  {
    if guarded then None
    else if f == Day then
      var v := ParseDay(parsed);
      if v.Some? && current.Finite? && v.value != Truncate(current.x) then Some(Finite(v.value as real)) else None
    else
      var v := match f
        case Ra => ParseRa(parsed)
        case Dec => ParseDec(parsed)
        case _ => ParseThresh(parsed);
      if v.Some? && !PyIsClose(v.value, current) then v else None
  }

  /** The handler as evidently intended: the real fields go through the
      finite-in-range check, so only finite values in range move a slider. */
  function IntendedCommitValue(f: Field, guarded: bool, parsed: Option<PyFloat>, current: PyFloat): (r: Option<PyFloat>)
    ensures r.Some? ==> !guarded && r.value.Finite? && Low(f) <= r.value.x <= High(f)
    ensures f != Day && r.Some? ==> r == parsed && !PyIsClose(r.value, current)
  {
    if guarded then None
    else if f == Day then
      var v := ParseDay(parsed);
      if v.Some? && current.Finite? && v.value != Truncate(current.x) then Some(Finite(v.value as real)) else None
    else
      var v := FiniteInRange(parsed, Low(f), High(f));
      if v.Some? && !PyIsClose(Finite(v.value), current) then Some(Finite(v.value)) else None
  }

  /** The written and the intended handlers agree on every input but the text
      "nan", which the written RA, Dec and threshold handlers store in the
      slider while the intended ones ignore it. */
  lemma CommitIntendedAgrees(f: Field, guarded: bool, parsed: Option<PyFloat>, current: PyFloat)
    ensures parsed != Some(NaN) ==> CommitValue(f, guarded, parsed, current) == IntendedCommitValue(f, guarded, parsed, current)
    ensures parsed == Some(NaN) ==> IntendedCommitValue(f, guarded, parsed, current).None?
    ensures parsed == Some(NaN) ==> (CommitValue(f, guarded, parsed, current) == Some(NaN) <==> !guarded && f != Day)
  {
    if parsed != Some(NaN) && !guarded && f != Day {
      FiniteInRangeAgrees(parsed, Low(f), High(f));
    }
  }

  /** Once a slider holds NaN, committing "nan" again moves it again and runs
      `update` again, since NaN is never close to itself. */
  lemma NaNCommitRepeats(f: Field)
    requires f != Day
    ensures CommitValue(f, false, Some(NaN), NaN) == Some(NaN)
  {
    CommitIntendedAgrees(f, false, Some(NaN), NaN);
  }

  /** Committing the value a slider already holds changes nothing, so the text a
      sync writes back never moves its slider. */
  lemma CommitCurrentIsNoOp(f: Field, current: real)
    requires Low(f) <= current <= High(f)
    requires f == Day ==> current == current.Floor as real
    ensures CommitValue(f, false, Some(Finite(current)), Finite(current)).None?
  {
    if f == Day {
      assert Truncate(current) == current.Floor;
    } else {
      assert IsClose(current, current);
    }
  }

  /** The four sliders, their text boxes, and the `_sync_guard` dictionary. */
  class Dashboard {
    /** The slider values, by field. */
    var slider: map<Field, PyFloat>
    /** What each text box holds; the `.3f` formatting is not modelled. */
    var shown: map<Field, PyFloat>
    /** `_sync_guard` */
    var guard: map<Field, bool>
    /** How many times `update` ran. */
    var updates: nat

    /** Every field has a slider, a text box and a guard, and the day slider,
        which only the day handler moves, holds a whole number. */
    predicate Valid()
      reads this
    {
      slider.Keys == AllFields && shown.Keys == AllFields && guard.Keys == AllFields &&
      slider[Day].Finite? && slider[Day].x == slider[Day].x.Floor as real
    }

    /** The dashboard as built: text boxes show the sliders' initial values and no
        guard is set. */
    constructor(ra: real, dec: real, thresh: real, day: int)
      ensures Valid() && updates == 0
      ensures slider == map[Ra := Finite(ra), Dec := Finite(dec), Thresh := Finite(thresh), Day := Finite(day as real)]
      ensures shown == slider
      ensures forall f :: f in AllFields ==> !guard[f]
    {
      slider := map[Ra := Finite(ra), Dec := Finite(dec), Thresh := Finite(thresh), Day := Finite(day as real)];
      shown := map[Ra := Finite(ra), Dec := Finite(dec), Thresh := Finite(thresh), Day := Finite(day as real)];
      guard := map[Ra := false, Dec := false, Thresh := false, Day := false];
      updates := 0;
    }

    /** `_on_ra_commit`, `_on_dec_commit`, `_on_thresh_commit`, `_on_day_commit`:
        the handler of field `f` receiving the text's parsed value. A moved
        slider runs `update`, which ends by syncing every text box from its
        slider (the slider's own change callback syncs them too). */
    method Commit(f: Field, parsed: Option<PyFloat>)
      requires Valid()
      modifies this
      ensures Valid()
      ensures var v := CommitValue(f, old(guard)[f], parsed, old(slider)[f]);
        if v.Some? then slider == old(slider)[f := v.value] && updates == old(updates) + 1
        else slider == old(slider) && updates == old(updates)
      ensures CommitValue(f, old(guard)[f], parsed, old(slider)[f]).Some? ==>
        forall g :: g in AllFields ==> shown[g] == slider[g] && !guard[g]
      ensures CommitValue(f, old(guard)[f], parsed, old(slider)[f]).None? ==> shown == old(shown) && guard == old(guard)
    {
      if guard[f] {
        return;
      }
      var v := CommitValue(f, false, parsed, slider[f]);
      if v.Some? {
        slider := slider[f := v.value];
        updates := updates + 1;
        SyncInputsFromSliders();
      }
    }

    /** Writing `v` into the text box of `f` with that field's guard set
        around the write, so the commit handler it triggers does nothing. */
    method ShowGuarded(f: Field, v: PyFloat)
      requires Valid()
      modifies this
      ensures Valid() && slider == old(slider) && updates == old(updates)
      ensures guard == old(guard)[f := false] && shown == old(shown)[f := v]
    {
      guard := guard[f := true];
      shown := shown[f := v];
      guard := guard[f := false];
    }

    /** `sync_inputs_from_sliders`: each text box gets its slider's value (the day
        as `int(day)`) while that field's guard is set; every guard is clear after. */
    method SyncInputsFromSliders()
      requires Valid()
      modifies this
      ensures Valid() && slider == old(slider) && updates == old(updates)
      ensures forall f :: f in AllFields ==> !guard[f]
      ensures forall f :: f in AllFields ==> shown[f] == slider[f]
    {
      ShowGuarded(Ra, slider[Ra]);
      ShowGuarded(Dec, slider[Dec]);
      ShowGuarded(Thresh, slider[Thresh]);
      ShowGuarded(Day, Finite(Truncate(slider[Day].x) as real));
      assert Truncate(slider[Day].x) == slider[Day].x.Floor;
    }
  }
}
