/** What the background dashboard shows: which bathtub lines, overlays and
    violin glyphs are visible after the checkboxes or the selected element
    change, the bathtub legend, and whether the spectrum panel has a day to show. */
module DashboardView {
  import opened Wrappers
  import opened Sequences
  import DashboardInputs

  /** The four background components of the bathtub plot. */
  datatype Component = Total | Zodi | Thermal | Ism

  const Components: set<Component> := {Total, Zodi, Thermal, Ism}

  /** The optical elements of `overlay_filters`; the "Single element" select
      offers exactly these. */
  datatype Element = F062 | F087 | F106 | F129 | F146 | F158 | F184 | F213 | Prism | Grism

  /** The elements in the order of `overlay_filters`. */
  const Filters: seq<Element> := [F062, F087, F106, F129, F146, F158, F184, F213, Prism, Grism]

  const Elements: set<Element> := {F062, F087, F106, F129, F146, F158, F184, F213, Prism, Grism}

  function Name(f: Element): string {
    match f
    case F062 => "F062"
    case F087 => "F087"
    case F106 => "F106"
    case F129 => "F129"
    case F146 => "F146"
    case F158 => "F158"
    case F184 => "F184"
    case F213 => "F213"
    case Prism => "Prism"
    case Grism => "Grism"
  }

  /** `Elements` holds every element. */
  lemma ElementsComplete()
    ensures forall f: Element :: f in Elements
  {
    forall f: Element
      ensures f in Elements
    {
      match f
      case F062 =>
      case F087 =>
      case F106 =>
      case F129 =>
      case F146 =>
      case F158 =>
      case F184 =>
      case F213 =>
      case Prism =>
      case Grism =>
    }
  }

  /** The five glyphs drawn for each element's violin. */
  datatype Glyph = Patch | Whisker | Quad | Cap | Median

  const Glyphs: set<Glyph> := {Patch, Whisker, Quad, Cap, Median}

  /** The checkbox index of each component in `toggle_components`. */
  function CheckboxIndex(c: Component): int {
    match c
    case Total => 0
    case Zodi => 1
    case Thermal => 2
    case Ism => 3
  }

  /** A component line (and its dashed gap segments) is shown only in single-element
      mode and only when its checkbox is ticked. */
  predicate LineShown(active: set<int>, showAll: bool, c: Component) {
    !showAll && CheckboxIndex(c) in active
  }

  /** Element `f`'s violin is shown under "show all", or in single-element mode when
      Total is ticked and `f` is the selected element. */
  predicate ViolinShown(active: set<int>, showAll: bool, selected: Element, f: Element) {
    showAll || (!showAll && 0 in active && f == selected)
  }

  // ---------------------------------------------------------------- legend

  /** The labels of the visible component lines, in the order Total, Zodi,
      Thermal, ISM+CIB. */
  function ComponentItems(line: map<Component, bool>): seq<string>
    requires Components <= line.Keys
  {
    (if line[Total] then ["Total"] else []) + (if line[Zodi] then ["Zodi"] else [])
      + (if line[Thermal] then ["Thermal"] else []) + (if line[Ism] then ["ISM+CIB"] else [])
  }

  /** The elements of `fs` whose overlay line is visible, in order. */
  function VisibleOverlays(overlay: map<Element, bool>, fs: seq<Element>): (r: seq<string>)
    requires Elements <= overlay.Keys
    ensures |r| <= |fs|
  {
    if fs == [] then []
    else
      ElementsComplete();
      VisibleOverlays(overlay, fs[..|fs| - 1]) + (if overlay[fs[|fs| - 1]] then [Name(fs[|fs| - 1])] else [])
  }

  function Names(fs: seq<Element>): (r: seq<string>)
    ensures |r| == |fs|
  {
    seq(|fs|, k requires 0 <= k < |fs| => Name(fs[k]))
  }

  /** The items `_refresh_bathtub_legend` lists. */
  function BathtubLegend(line: map<Component, bool>, showAll: bool, overlay: map<Element, bool>): seq<string>
    requires Components <= line.Keys
    requires Elements <= overlay.Keys
  {
    ComponentItems(line) + (if showAll then VisibleOverlays(overlay, Filters) else [])
  }

  /** With every overlay visible, all elements are listed, in order. */
  lemma {:induction false} AllOverlaysVisible(overlay: map<Element, bool>, fs: seq<Element>)
    requires Elements <= overlay.Keys
    requires forall f :: f in Elements ==> overlay[f]
    ensures VisibleOverlays(overlay, fs) == Names(fs)
  {
    if fs != [] {
      AllOverlaysVisible(overlay, fs[..|fs| - 1]);
      assert Names(fs) == Names(fs[..|fs| - 1]) + [Name(fs[|fs| - 1])];
    }
  }

  /** The component lines after a toggle. */
  function LinesAfter(active: set<int>, showAll: bool): map<Component, bool> {
    map c | c in Components :: LineShown(active, showAll, c)
  }

  /** The overlay lines after a toggle. */
  function OverlaysAfter(showAll: bool): map<Element, bool> {
    map f | f in Elements :: showAll
  }

  /** After a toggle the legend lists every element under "show all" and exactly
      the ticked components, in order, otherwise. */
  lemma LegendAfterToggle(active: set<int>, showAll: bool)
    ensures showAll ==> BathtubLegend(LinesAfter(active, showAll), showAll, OverlaysAfter(showAll)) == Names(Filters)
    ensures !showAll ==>
      BathtubLegend(LinesAfter(active, showAll), showAll, OverlaysAfter(showAll)) ==
      (if 0 in active then ["Total"] else []) + (if 1 in active then ["Zodi"] else [])
        + (if 2 in active then ["Thermal"] else []) + (if 3 in active then ["ISM+CIB"] else [])
  {
    if showAll {
      AllOverlaysVisible(OverlaysAfter(showAll), Filters);
    }
  }

  /** The legend's column count, `max(1, len(items))`. */
  function LegendColumns(items: seq<string>): (n: nat)
    ensures n >= 1 && n >= |items| && (n == 1 || n == |items|)
  {
    if |items| > 1 then |items| else 1
  }

  // ---------------------------------------------------------------- renderer state

  /** Where each element sits in `Filters`. */
  function Position(f: Element): (j: nat)
    ensures j < |Filters| && Filters[j] == f
  {
    match f
    case F062 => 0
    case F087 => 1
    case F106 => 2
    case F129 => 3
    case F146 => 4
    case F158 => 5
    case F184 => 6
    case F213 => 7
    case Prism => 8
    case Grism => 9
  }

  /** No element is listed twice. */
  lemma FiltersDistinct()
    ensures forall i, j :: 0 <= i < j < |Filters| ==> Filters[i] != Filters[j]
  {
    forall i, j | 0 <= i < j < |Filters|
      ensures Filters[i] != Filters[j]
    {
      assert Position(Filters[i]) == i && Position(Filters[j]) == j;
    }
  }

  /** The visibility of the dashboard's renderers and the bathtub legend. */
  class View {
    /** `bathtub_total`, `bathtub_zodi`, `bathtub_thermal`, `bathtub_ism` */
    var line: map<Component, bool>
    /** `dash_seg[...]`, the dashed gap segments of each component line */
    var dash: map<Component, bool>
    /** `overlay_lines[f]` */
    var overlay: map<Element, bool>
    /** `overlay_gap_renders[f]` */
    var overlayGap: map<Element, bool>
    /** each of the five violin glyphs of element `f` */
    var violin: map<(Glyph, Element), bool>
    var selectedLabelVisible: bool
    var selectedLabelText: string
    var legend: seq<string>
    var legendColumns: nat

    predicate Valid()
      reads this
    {
      line.Keys == Components && dash.Keys == Components &&
      overlay.Keys == Elements && overlayGap.Keys == Elements &&
      (forall g, f :: g in Glyphs && f in Elements ==> (g, f) in violin)
    }

    /** `_refresh_bathtub_legend`: the visible components, then, under "show all",
        each element whose overlay line is visible. */
    method RefreshBathtubLegend(showAll: bool)
      requires Valid()
      modifies this
      ensures Valid()
      ensures line == old(line) && dash == old(dash) && overlay == old(overlay)
      ensures overlayGap == old(overlayGap) && violin == old(violin)
      ensures selectedLabelVisible == old(selectedLabelVisible) && selectedLabelText == old(selectedLabelText)
      ensures legend == BathtubLegend(line, showAll, overlay)
      ensures legendColumns == LegendColumns(legend)
    {
      var items := ComponentItems(line);
      if showAll {
        ElementsComplete();
        var i := 0;
        while i < |Filters|
          invariant 0 <= i <= |Filters|
          invariant items == ComponentItems(line) + VisibleOverlays(overlay, Filters[..i])
        {
          if overlay[Filters[i]] {
            items := items + [Name(Filters[i])];
          }
          assert Filters[..i + 1][..i] == Filters[..i];
          i := i + 1;
        }
        assert Filters[..|Filters|] == Filters;
      }
      legend := items;
      legendColumns := if |items| > 1 then |items| else 1;
    }

    /** The first loop of `toggle_visibility`: every overlay line and its gap
        segments get the "show all" state. */
    method ShowOverlays(showAll: bool)
      requires Valid()
      modifies this
      ensures Valid()
      ensures overlay == OverlaysAfter(showAll) && overlayGap == OverlaysAfter(showAll)
      ensures line == old(line) && dash == old(dash) && violin == old(violin)
    {
      ElementsComplete();
      var i := 0;
      while i < |Filters|
        invariant 0 <= i <= |Filters| && Valid()
        invariant line == old(line) && dash == old(dash) && violin == old(violin)
        invariant forall j :: 0 <= j < i ==> overlay[Filters[j]] == showAll && overlayGap[Filters[j]] == showAll
      {
        overlay := overlay[Filters[i] := showAll];
        overlayGap := overlayGap[Filters[i] := showAll];
        i := i + 1;
      }
      var after := OverlaysAfter(showAll);
      forall f | f in Elements
        ensures overlay[f] == after[f] && overlayGap[f] == after[f]
      {
        assert Filters[Position(f)] == f;
      }
      assert overlay == after;
      assert overlayGap == after;
    }

    /** The loop body for one element: its five glyphs get `visible`, every
        other element's glyphs are left alone. */
    method ShowViolin(f: Element, visible: bool)
      requires Valid()
      modifies this
      ensures Valid()
      ensures forall g, h :: g in Glyphs && h in Elements ==>
        violin[(g, h)] == if h == f then visible else old(violin)[(g, h)]
      ensures line == old(line) && dash == old(dash)
      ensures overlay == old(overlay) && overlayGap == old(overlayGap)
    {
      violin := violin[(Patch, f) := visible][(Whisker, f) := visible][(Quad, f) := visible]
        [(Cap, f) := visible][(Median, f) := visible];
    }

    /** The second loop of `toggle_visibility`: the five glyphs of each element's
        violin. */
    method ShowViolins(active: set<int>, showAll: bool, selected: Element)
      requires Valid()
      modifies this
      ensures Valid()
      ensures forall g, f :: g in Glyphs && f in Elements ==>
        violin[(g, f)] == ViolinShown(active, showAll, selected, f)
      ensures line == old(line) && dash == old(dash)
      ensures overlay == old(overlay) && overlayGap == old(overlayGap)
    {
      ElementsComplete();
      FiltersDistinct();
      var i := 0;
      while i < |Filters|
        invariant 0 <= i <= |Filters| && Valid()
        invariant line == old(line) && dash == old(dash)
        invariant overlay == old(overlay) && overlayGap == old(overlayGap)
        invariant forall g, j :: g in Glyphs && 0 <= j < i ==>
          violin[(g, Filters[j])] == ViolinShown(active, showAll, selected, Filters[j])
      {
        var f := Filters[i];
        var visible := showAll || (!showAll && 0 in active && f == selected);
        ShowViolin(f, visible);
        i := i + 1;
      }
      forall g, f | g in Glyphs && f in Elements
        ensures violin[(g, f)] == ViolinShown(active, showAll, selected, f)
      {
        assert Filters[Position(f)] == f;
      }
    }

    /** `toggle_visibility`, given the ticked component checkboxes, the "show all"
        box and the selected element; the legend is refreshed at the end. */
    method ToggleVisibility(active: set<int>, showAll: bool, selected: Element)
      requires Valid()
      modifies this
      ensures Valid()
      ensures line == LinesAfter(active, showAll) && dash == LinesAfter(active, showAll)
      ensures overlay == OverlaysAfter(showAll) && overlayGap == OverlaysAfter(showAll)
      ensures forall g, f :: g in Glyphs && f in Elements ==>
        violin[(g, f)] == ViolinShown(active, showAll, selected, f)
      ensures selectedLabelVisible == !showAll
      ensures selectedLabelText == "Optical element: " + Name(selected)
      ensures legend == BathtubLegend(line, showAll, overlay)
      ensures legendColumns == LegendColumns(legend)
    {
      line := LinesAfter(active, showAll);
      dash := LinesAfter(active, showAll);
      ShowOverlays(showAll);
      ShowViolins(active, showAll, selected);
      selectedLabelText := "Optical element: " + Name(selected);
      selectedLabelVisible := !showAll;
      RefreshBathtubLegend(showAll);
    }
  }

  // ---------------------------------------------------------------- spectrum panel

  /** The spectrum panel: blank with a "not visible" label, or showing the spectrum
      at a calendar position. */
  datatype Spectrum = NotVisible(day: int) | Visible(index: nat, day: int)

  /** The visibility test in `update`: the day slider's value, truncated, must be a
      calendar day; the spectrum then comes from its first calendar position. */
  function SpectrumFor(calendar: seq<int>, dayValue: real): (s: Spectrum)
    ensures s.day == DashboardInputs.Truncate(dayValue)
    ensures s.Visible? <==> DashboardInputs.Truncate(dayValue) in calendar
    ensures s.Visible? ==> s.index < |calendar| && calendar[s.index] == s.day && s.day !in calendar[..s.index]
  {
    var day := DashboardInputs.Truncate(dayValue);
    var idx := Find(calendar, day);
    if |calendar| > 0 && idx.Some? then Visible(idx.value, day) else NotVisible(day)
  }

  /** The starting day: the initial day if the calendar has it, else the middle
      calendar entry, or 0 for an empty calendar. */
  function InitialDay(calendar: seq<int>, day: int): (d: int)
    ensures |calendar| > 0 ==> d in calendar
    ensures |calendar| == 0 ==> d == 0
    ensures day in calendar ==> d == day
    ensures day !in calendar && |calendar| > 0 ==> d == calendar[|calendar| / 2]
  {
    if day !in calendar && |calendar| > 0 then calendar[|calendar| / 2]
    else if |calendar| == 0 then 0
    else day
  }
}
