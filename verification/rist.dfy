/** The selection state of the Roman Interactive Sensitivity Tool (`plot_rist`):
    which pre-computed grid a choice of background, MA table and number of
    resultants selects, how the resultant choice is carried over when the MA
    table changes, and which points are marked as saturated. The grids and the
    interpolation of a grid at a magnitude are inputs. */
module Rist {
  import opened Wrappers
  import opened Strings
  import opened Sequences

  // ---------------------------------------------------------------- backgrounds

  /** The background drop-down's choice turned into the key the grid names use;
      a choice not in the table passes through unchanged. */
  function BackgroundKey(choice: string): (key: string)
    ensures choice !in BackgroundLabels ==> key == choice
  {
    if choice == "zodiacal & 120%min" then "minzodi_benchmark"
    else if choice == "ecliptic & low" then "ecliptic_low"
    else if choice == "ecliptic & medium" then "ecliptic_medium"
    else if choice == "ecliptic & high" then "ecliptic_high"
    else if choice == "none" then "none_"
    else choice
  }

  /** The options of the background drop-down. */
  const BackgroundLabels: seq<string> :=
    ["ecliptic & low", "ecliptic & medium", "ecliptic & high", "zodiacal & 120%min", "none"]

  /** The five drop-down labels select five different backgrounds, none of
      them spelled like a label. */
  lemma BackgroundKeysDistinct(i: nat, j: nat)
    requires i < |BackgroundLabels| && j < |BackgroundLabels|
    ensures i != j ==> BackgroundKey(BackgroundLabels[i]) != BackgroundKey(BackgroundLabels[j])
    ensures BackgroundKey(BackgroundLabels[i]) !in BackgroundLabels
  {
  }

  // ---------------------------------------------------------------- resultant labels

  datatype MaTable = HlwasImaging | HltdsImaging1 | HltdsImaging2 | HltdsImaging3 | HltdsImaging4 | Gbtds

  function TableName(t: MaTable): string {
    match t
    case HlwasImaging => "hlwas_imaging"
    case HltdsImaging1 => "hltds_imaging1"
    case HltdsImaging2 => "hltds_imaging2"
    case HltdsImaging3 => "hltds_imaging3"
    case HltdsImaging4 => "hltds_imaging4"
    case Gbtds => "gbtds"
  }

  /** The MA table drop-down value, if it is one of the six tables. */
  function TableOf(value: string): (t: Option<MaTable>)
    ensures t.Some? ==> TableName(t.value) == value
    ensures t.None? ==> forall u: MaTable :: TableName(u) != value
  {
    if value == "hlwas_imaging" then Some(HlwasImaging)
    else if value == "hltds_imaging1" then Some(HltdsImaging1)
    else if value == "hltds_imaging2" then Some(HltdsImaging2)
    else if value == "hltds_imaging3" then Some(HltdsImaging3)
    else if value == "hltds_imaging4" then Some(HltdsImaging4)
    else if value == "gbtds" then Some(Gbtds)
    else None
  }

  datatype Suffix = Bare | RecMin | Max

  /** A label of the resultant drop-down: a count and an optional suffix. */
  datatype Label = Label(n: nat, suffix: Suffix)

  function SuffixText(s: Suffix): string {
    match s
    case Bare => ""
    case RecMin => "(Rec. Min)"
    case Max => "(Max)"
  }

  /** The text the drop-down shows, such as "3(Rec. Min)". */
  function LabelText(l: Label): string {
    NatToString(l.n) + SuffixText(l.suffix)
  }

  /** `int(str.split(text, '(')[0])`, for text whose leading part is digits. */
  function LeadingNumber(text: string): Option<nat> {
    ParseNat(Split(text, '(')[0])
  }

  /** The count a label's text starts with is the label's count. */
  lemma LeadingNumberOfLabel(l: Label)
    ensures LeadingNumber(LabelText(l)) == Some(l.n)
    ensures Split(LabelText(l), '(')[0] == NatToString(l.n)
  {
    var digits := NatToString(l.n);
    assert '(' !in digits by {
      forall i | 0 <= i < |digits| ensures digits[i] != '(' {
        assert IsDigit(digits[i]);
      }
    }
    if l.suffix == Bare {
      assert LabelText(l) == digits;
    } else {
      var rest := SuffixText(l.suffix)[1..];
      assert LabelText(l) == digits + ['('] + rest;
      SplitFirst(digits, rest, '(');
    }
    ParseNatToString(l.n);
  }

  /** Different labels show different texts, so comparing texts (as the code
      does) is comparing labels. */
  lemma LabelTextInjective(a: Label, b: Label)
    requires LabelText(a) == LabelText(b)
    ensures a == b
  {
    LeadingNumberOfLabel(a);
    LeadingNumberOfLabel(b);
    var da := NatToString(a.n);
    assert LabelText(a)[|da|..] == SuffixText(a.suffix);
    assert LabelText(b)[|da|..] == SuffixText(b.suffix);
  }

  /** The resultant options each MA table offers. */
  function Options(t: MaTable): seq<Label> {
    match t
    case HlwasImaging => [Label(2, Bare), Label(3, RecMin), Label(4, Bare), Label(5, Bare), Label(6, Bare), Label(7, Bare), Label(8, Max)]
    case HltdsImaging1 => [Label(2, Bare), Label(3, RecMin), Label(4, Bare), Label(5, Bare), Label(6, Bare), Label(7, Bare), Label(8, Max)]
    case HltdsImaging2 => [Label(2, RecMin), Label(3, Bare), Label(4, Bare), Label(5, Bare), Label(6, Bare), Label(7, Bare), Label(8, Max)]
    case HltdsImaging3 => [Label(2, Bare), Label(3, Bare), Label(4, RecMin), Label(5, Bare), Label(6, Bare), Label(7, Bare), Label(8, Bare), Label(9, Bare), Label(10, Max)]
    case HltdsImaging4 => [Label(2, Bare), Label(3, Bare), Label(4, Bare), Label(5, Bare), Label(6, RecMin), Label(7, Bare), Label(8, Bare), Label(9, Bare), Label(10, Max)]
    case Gbtds => [Label(2, RecMin), Label(3, Bare), Label(4, Bare), Label(5, Bare), Label(6, Max)]
  }

  /** A label some MA table offers. */
  predicate IsOptionLabel(l: Label) {
    exists t: MaTable :: l in Options(t)
  }

  /** The current resultant label carried over to table `t`: kept when `t`
      offers it, otherwise its count becomes `t`'s recommended-minimum label,
      its maximum label (at or above the maximum, or exactly 10 for
      hltds_imaging3 and hltds_imaging4), or the bare count. */
  function Renormalize(t: MaTable, l: Label): (r: Label)
    ensures l in Options(t) ==> r == l
    ensures r.n == l.n || (r.suffix == Max && r.n <= l.n)
  {
    if l in Options(t) then l
    else
      var n := l.n;
      match t
      case HlwasImaging => if n == 3 then Label(3, RecMin) else if n >= 8 then Label(8, Max) else Label(n, Bare)
      case HltdsImaging1 => if n == 3 then Label(3, RecMin) else if n >= 8 then Label(8, Max) else Label(n, Bare)
      case HltdsImaging2 => if n == 2 then Label(2, RecMin) else if n >= 8 then Label(8, Max) else Label(n, Bare)
      case HltdsImaging3 => if n == 4 then Label(4, RecMin) else if n == 10 then Label(10, Max) else Label(n, Bare)
      case HltdsImaging4 => if n == 6 then Label(6, RecMin) else if n == 10 then Label(10, Max) else Label(n, Bare)
      case Gbtds => if n == 2 then Label(2, RecMin) else if n >= 6 then Label(6, Max) else Label(n, Bare)
  }

  /** Every option label has a count from 2 to 10. */
  lemma OptionLabelRange(l: Label)
    requires IsOptionLabel(l)
    ensures 2 <= l.n <= 10
  {
  }

  /** Carrying an option label of any table over to another table gives one of
      the new table's options. */
  lemma RenormalizeLandsInOptions(t: MaTable, l: Label)
    requires 2 <= l.n <= 10
    ensures Renormalize(t, l) in Options(t)
  {
  }

  /** The suffixed labels whose suffix `update_data` strips. */
  const StrippedLabels: seq<Label> :=
    [Label(2, RecMin), Label(3, RecMin), Label(4, RecMin), Label(6, RecMin), Label(6, Max), Label(8, Max), Label(10, Max)]

  /** The stored number of resultants: the label's text without the suffix
      when the label is one of the listed ones, the whole text otherwise. */
  function StripSuffix(l: Label): (s: string)
    ensures l in StrippedLabels ==> s == NatToString(l.n)
  {
    if l in StrippedLabels then
      LeadingNumberOfLabel(l);
      Split(LabelText(l), '(')[0]
    else LabelText(l)
  }

  /** For every label a table offers, the stored count is the bare number, with
      no '(' left in it. */
  lemma StripSuffixOfOption(t: MaTable, l: Label)
    requires l in Options(t)
    ensures StripSuffix(l) == NatToString(l.n)
    ensures '(' !in StripSuffix(l)
  {
    var digits := NatToString(l.n);
    forall i | 0 <= i < |digits| ensures digits[i] != '(' {
      assert IsDigit(digits[i]);
    }
  }

  // ---------------------------------------------------------------- grids

  /** The attributes of one pre-computed grid that name it. */
  datatype GridAttrs = GridAttrs(maName: string, nresultant: nat, background: string)

  /** The name the code gives a selection: table, count and background joined by '_'. */
  function GridName(maTable: string, nresultant: string, background: string): string {
    maTable + "_" + nresultant + "_" + background
  }

  /** `retrieve_grid_properties`: one name per grid, in grid order. */
  method RetrieveGridProperties(grids: seq<GridAttrs>) returns (names: seq<string>)
    ensures |names| == |grids|
    ensures forall i :: 0 <= i < |grids| ==>
      names[i] == GridName(grids[i].maName, NatToString(grids[i].nresultant), grids[i].background)
  {
    names := [];
    var gp := 0;
    while gp < |grids|
      invariant 0 <= gp <= |grids| && |names| == gp
      invariant forall i :: 0 <= i < gp ==>
        names[i] == GridName(grids[i].maName, NatToString(grids[i].nresultant), grids[i].background)
    {
      names := names + [GridName(grids[gp].maName, NatToString(grids[gp].nresultant), grids[gp].background)];
      gp := gp + 1;
    }
  }

  /** `lookup_grid`: the first grid carrying the selection's name; `[0][0]` of
      an empty match raises IndexError. */
  function LookupGrid(properties: seq<string>, name: string): (r: Result<nat>)
    ensures r.Ok? <==> name in properties
    ensures r.Ok? ==> r.value < |properties| && properties[r.value] == name && name !in properties[..r.value]
  {
    var found := Find(properties, name);
    if found.None? then Raise(IndexError) else Ok(found.value)
  }

  /** A selection that some grid carries is found, at that grid or an earlier
      one with the same name. */
  lemma LookupFindsGrid(properties: seq<string>, name: string, j: nat)
    requires j < |properties| && properties[j] == name
    ensures LookupGrid(properties, name).Ok? && LookupGrid(properties, name).value <= j
  {
  }

  // ---------------------------------------------------------------- saturation

  /** The marker height for one point: points with SNR 0 (saturated in the
      grid) are drawn at 1.1 * ymin, other points at or below that height stay
      where they are, and higher points get 0. */
  function SaturationMarker(snr: real, ymin: real): (m: real)
    ensures m == 0.0 || m <= 1.1 * ymin
  {
    var lifted := if snr != 0.0 then snr else ymin * 1.1;
    if lifted <= ymin * 1.1 then lifted else 0.0
  }

  /** With a positive floor, a marker is drawn exactly for the points at or
      below 1.1 * ymin, saturated ones at 1.1 * ymin. */
  lemma SaturationMarksLowPoints(snr: real, ymin: real)
    requires ymin > 0.0
    ensures SaturationMarker(snr, ymin) != 0.0 <==> snr <= 1.1 * ymin
    ensures snr == 0.0 ==> SaturationMarker(snr, ymin) == 1.1 * ymin
    ensures snr != 0.0 && snr <= 1.1 * ymin ==> SaturationMarker(snr, ymin) == snr
  {
  }

  function SaturationMarkers(snr: seq<real>, ymin: real): (m: seq<real>)
    ensures |m| == |snr| && forall i :: 0 <= i < |snr| ==> m[i] == SaturationMarker(snr[i], ymin)
  {
    seq(|snr|, i requires 0 <= i < |snr| => SaturationMarker(snr[i], ymin))
  }

  // ---------------------------------------------------------------- the tool

  const DefaultMagnitude: real := 20.0
  const DefaultYmin: real := 0.01
  const DefaultYmax: real := 1000.0
  const DefaultMaTable: string := "hlwas_imaging"
  const DefaultNresultant: nat := 5
  const DefaultBackground: string := "minzodi_benchmark"
  const DefaultBackgroundLabel: string := "zodiacal & 120%min"

  /** The widgets start on the same selection as the defaults. */
  lemma DefaultsConsistent()
    ensures BackgroundKey(DefaultBackgroundLabel) == DefaultBackground
    ensures DefaultBackgroundLabel in BackgroundLabels
    ensures TableOf(DefaultMaTable) == Some(HlwasImaging)
    ensures Label(DefaultNresultant, Bare) in Options(HlwasImaging)
    ensures StripSuffix(Label(DefaultNresultant, Bare)) == NatToString(DefaultNresultant)
  {
    StripSuffixOfOption(HlwasImaging, Label(DefaultNresultant, Bare));
  }

  /** `plot_rist`: the selection it plots, the widgets the user moves, the grid
      names and the plotted series. */
  class RistTool {
    var magnitude: real
    const ymin: real
    const ymax: real
    var maTable: string
    var nresultant: string
    var background: string
    const gridProperties: seq<string>
    /** The widget values. */
    var magnitudeSlider: real
    var backgroundSelect: string
    var matableSelect: string
    var nresultantSelect: Label
    var nresultantOptions: seq<Label>
    /** `source.data['snr']` and `source.data['snr_saturated']`. */
    var snr: seq<real>
    var snrSaturated: seq<real>

    /** The tool as `__init__` and `create_widgets` leave it, given the grid
        names and the series the default grid interpolates to. */
    constructor(grids: seq<GridAttrs>, initialSnr: seq<real>)
      ensures magnitude == DefaultMagnitude && ymin == DefaultYmin && ymax == DefaultYmax
      ensures maTable == DefaultMaTable && nresultant == NatToString(DefaultNresultant) && background == DefaultBackground
      ensures |gridProperties| == |grids|
      ensures forall i :: 0 <= i < |grids| ==>
        gridProperties[i] == GridName(grids[i].maName, NatToString(grids[i].nresultant), grids[i].background)
      ensures magnitudeSlider == DefaultMagnitude && backgroundSelect == DefaultBackgroundLabel
      ensures matableSelect == DefaultMaTable && nresultantSelect == Label(DefaultNresultant, Bare)
      ensures nresultantOptions == Options(HlwasImaging)
      ensures snr == initialSnr && |snrSaturated| == |initialSnr| && forall i :: 0 <= i < |snrSaturated| ==> snrSaturated[i] == 0.0
    {
      magnitude := DefaultMagnitude;
      ymin := DefaultYmin;
      ymax := DefaultYmax;
      maTable := DefaultMaTable;
      nresultant := NatToString(DefaultNresultant);
      background := DefaultBackground;
      gridProperties := seq(|grids|, i requires 0 <= i < |grids| =>
        GridName(grids[i].maName, NatToString(grids[i].nresultant), grids[i].background));
      magnitudeSlider := DefaultMagnitude;
      backgroundSelect := DefaultBackgroundLabel;
      matableSelect := DefaultMaTable;
      nresultantSelect := Label(DefaultNresultant, Bare);
      nresultantOptions := Options(HlwasImaging);
      snr := initialSnr;
      snrSaturated := seq(|initialSnr|, i => 0.0);
    }

    /** The resultant drop-down shows one of its options, a count from 2 to 10. */
    predicate SelectValid()
      reads this
    {
      nresultantSelect in nresultantOptions && 2 <= nresultantSelect.n <= 10
    }

    /** The options of table `t` replace the drop-down's, and its value is
        carried over to them. */
    method RefreshResultantOptions(t: MaTable)
      requires 2 <= nresultantSelect.n <= 10
      modifies this
      ensures nresultantOptions == Options(t) && nresultantSelect == Renormalize(t, old(nresultantSelect))
      ensures SelectValid()
      ensures magnitude == old(magnitude) && maTable == old(maTable) && nresultant == old(nresultant)
      ensures background == old(background) && magnitudeSlider == old(magnitudeSlider)
      ensures backgroundSelect == old(backgroundSelect) && matableSelect == old(matableSelect)
      ensures snr == old(snr) && snrSaturated == old(snrSaturated)
    {
      var options := Options(t);
      nresultantOptions := options;
      RenormalizeLandsInOptions(t, nresultantSelect);
      if nresultantSelect !in options {
        nresultantSelect := Renormalize(t, nresultantSelect);
      }
    }

    /** `update_data`: re-derive the selection from the widgets, refresh the
        resultant options, look the grid up and replot. `interp(k, m)` is grid
        `k` interpolated at magnitude `m`. An MA table value outside the six
        leaves the options unbound; a selection no grid carries raises
        IndexError after the selection has been stored. */
    method UpdateData(interp: (nat, real) -> seq<real>) returns (err: Option<PyError>)
      requires SelectValid()
      modifies this
      ensures TableOf(old(matableSelect)).None? ==>
        err == Some(UnboundLocalError("dynamic_nresultant_options")) && unchanged(this)
      ensures TableOf(old(matableSelect)).Some? ==>
        var t := TableOf(old(matableSelect)).value;
        var chosen := Renormalize(t, old(nresultantSelect));
        nresultantOptions == Options(t) && nresultantSelect == chosen &&
        maTable == old(matableSelect) && nresultant == StripSuffix(chosen) &&
        background == BackgroundKey(old(backgroundSelect)) &&
        magnitudeSlider == old(magnitudeSlider) && backgroundSelect == old(backgroundSelect) &&
        matableSelect == old(matableSelect) && magnitude == old(magnitude)
      ensures TableOf(old(matableSelect)).Some? ==>
        var lookup := LookupGrid(gridProperties, GridName(maTable, nresultant, background));
        (lookup.Raise? ==> err == Some(IndexError) && snr == old(snr) && snrSaturated == old(snrSaturated)) &&
        (lookup.Ok? ==> (err.None? && snr == interp(lookup.value, old(magnitudeSlider)) &&
          snrSaturated == SaturationMarkers(snr, ymin)))
      ensures SelectValid()
    {
      var newMagnitude := magnitudeSlider;
      var newBackground := BackgroundKey(backgroundSelect);
      var newMatable := matableSelect;
      var table := TableOf(matableSelect);
      if table.None? {
        return Some(UnboundLocalError("dynamic_nresultant_options"));
      }
      RefreshResultantOptions(table.value);
      var newNresultant := StripSuffix(nresultantSelect);
      err := StoreAndReplot(newMatable, newNresultant, newBackground, newMagnitude, interp);
    }

    /** The second half of `update_data`: store the selection, look its grid up
        and replot the interpolated series with its saturation markers. */
    method StoreAndReplot(newMatable: string, newNresultant: string, newBackground: string,
                          newMagnitude: real, interp: (nat, real) -> seq<real>) returns (err: Option<PyError>)
      modifies this
      ensures maTable == newMatable && nresultant == newNresultant && background == newBackground
      ensures var lookup := LookupGrid(gridProperties, GridName(newMatable, newNresultant, newBackground));
        (lookup.Raise? ==> err == Some(IndexError) && snr == old(snr) && snrSaturated == old(snrSaturated)) &&
        (lookup.Ok? ==> (err.None? && snr == interp(lookup.value, newMagnitude) &&
          snrSaturated == SaturationMarkers(snr, ymin)))
      ensures magnitude == old(magnitude) && magnitudeSlider == old(magnitudeSlider)
      ensures backgroundSelect == old(backgroundSelect) && matableSelect == old(matableSelect)
      ensures nresultantSelect == old(nresultantSelect) && nresultantOptions == old(nresultantOptions)
    {
      maTable := newMatable;
      nresultant := newNresultant;
      background := newBackground;
      var lookup := LookupGrid(gridProperties, GridName(maTable, nresultant, background));
      if lookup.Raise? {
        return Some(IndexError);
      }
      snr := interp(lookup.value, newMagnitude);
      snrSaturated := SaturationMarkers(snr, ymin);
      return None;
    }
  }

  /** After an update from any reachable state the stored resultant count is a
      plain number: no "(Rec. Min)" or "(Max)" reaches a grid name. */
  lemma StoredCountIsPlain(t: MaTable, l: Label)
    requires IsOptionLabel(l)
    ensures '(' !in StripSuffix(Renormalize(t, l))
    ensures StripSuffix(Renormalize(t, l)) == NatToString(Renormalize(t, l).n)
  {
    OptionLabelRange(l);
    RenormalizeLandsInOptions(t, l);
    StripSuffixOfOption(t, Renormalize(t, l));
  }
}
