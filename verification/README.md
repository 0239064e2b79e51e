# roman_notebooks core, modelled in Dafny

The Roman notebooks repository ships tutorial notebooks for the Nancy Grace
Roman Space Telescope, together with the Python helpers they import. This
project models the stateable logic of those helpers, with every astronomy,
plotting and I/O library call replaced by an input. It proves what each helper
promises.

| module (file) | models |
|---|---|
| `DashboardGaps` (dashboard_gaps.dfy) | the "not visible" shading, NaN breaks and bridging segments of the background dashboard's bathtub plot |
| `DashboardInputs` (dashboard_inputs.dfy) | the dashboard's range-checked text parsers, the commit handlers and the slider-to-text synchronisation with its re-entrancy guard |
| `DashboardView` (dashboard_view.dfy) | which bathtub lines, overlays and violins are visible, the bathtub legend, and the day shown in the spectrum panel |
| `BackgroundCache` (background_cache.dfy) | the straylight cache file name, the binary record layout, the calendar and packed-index selection, the good-days count and the day lookup of the spectrum writer |
| `TargetVisibility` (target_visibility.dfy) | the sample-time grid, the 54°–126° Sun-angle window and the roll and position-angle wrapping, as a class whose results table the two passes fill |
| `SurveyMaps` (survey_maps.dfy) | the survey / element / tier decision table that names a pre-generated exposure-time map |
| `Pointings` (pointings.dfy) | the line-by-line reader of APT pointings files |
| `Rist` (rist.dfy) | the selection state of the Roman Interactive Sensitivity Tool: background keys, resultant options, grid names and lookup, saturation markers |
| `OpenUniverseConverter` (oufac.dfy) | the FITS-to-ASDF converter: header cards, distortion polynomials, bounding box, the lazily filled converter object, transient unpacking and the metadata block |
| `InstallPlan` (install_plan.dfy) | what both revisions of the reference-data installer share: package filtering, URL file names, path joining and the per-package loop with its result dictionary |
| `DataDependencies` (data_deps.dfy) | the first revision of `install_files` |
| `DataDependenciesRev1` (data_deps_rev1.dfy) | the second revision of `install_files`, and `setup_env` |
| `TableOfContents` (toc.dfy) | the Jupyter Book table-of-contents builder: stem paths, grouping by folder, chapter files, sections and the printed entry count |
| `Wrappers`, `Strings`, `Sequences` | Option and Result types with Python's exceptions, ASCII string helpers, and sequence helpers |

Python exceptions become the `Raise` case of a `Result`, carrying a `PyError`.
NaN and `None` become `Option` values, or the `NaN` case of `PyFloat`.
Widgets and objects whose fields the code reassigns become classes with
`modifies` clauses. Loops become methods proved against a specification
function. The Findings below are each modelled twice: once as written, and
once corrected.

## Model

| member | source | states |
|---|---|---|
| BackgroundCache.PaddedIndex | content/notebooks/pandeia/rbt.py:83 | `zfill(6)` gives at least six characters, all digits |
| BackgroundCache.PaddedIndexValue | content/notebooks/pandeia/rbt.py:83 | the zero-padded digits still denote the HEALPix index |
| BackgroundCache.CachePath | content/notebooks/pandeia/rbt.py:80-84 | `myfile_from_healpix`: the directory named by the first four padded digits, then `sl_pix_<padded>.bin`; its properties are the three lemmas below |
| BackgroundCache.CachePathRoundTrip | content/notebooks/pandeia/rbt.py:80-84 | reading a cache path back (directory, `sl_pix_` prefix, digits, `.bin`), and requiring the directory to be the first four of those digits, gives the HEALPix index again |
| BackgroundCache.CachePathInjective | content/notebooks/pandeia/rbt.py:80-84 | distinct HEALPix pixels get distinct cache files |
| BackgroundCache.CachePathLength | content/notebooks/pandeia/rbt.py:82-84 | every pixel of the Nside = 128 sphere has a six-digit name and a 22-character path |
| BackgroundCache.FieldOffsetStep | content/notebooks/pandeia/rbt.py:109-117 | the header fields are packed: each starts where the previous one ends |
| BackgroundCache.HeaderLayout | content/notebooks/pandeia/rbt.py:109-127 | field offsets 0, 8, 16, 40, 40 + 8·nwave; the header record (`itemsize`) is 8 + 8 + 24 + 8·nwave + 4·366 bytes with the date map last |
| BackgroundCache.DayRecordCount | content/notebooks/pandeia/rbt.py:118-128 | `frombuffer` after the header succeeds exactly when the file holds the header, the record size is non-zero and the rest is a whole number of two-spectrum records; then the records end exactly at the end of the file |
| BackgroundCache.DayRecordsInsideFile | content/notebooks/pandeia/rbt.py:118-128 | consecutive day records are adjacent, each 16·nwave bytes, and each lies inside the file |
| BackgroundCache.DaysWithData | content/notebooks/pandeia/rbt.py:134-137 | `np.where(date_map >= 0)[0]`: ascending, and a day is listed exactly when its date-map entry is non-negative |
| BackgroundCache.KeepVisible | content/notebooks/pandeia/rbt.py:148-151 | `calendar[np.isin(...)]`: keeps exactly the days marked visible, in order, taken from the input |
| BackgroundCache.Calendar | content/notebooks/pandeia/rbt.py:137-151 | the calendar: the days with data that are also visible; `CalendarMeans` states what it holds |
| BackgroundCache.CalendarMeans | content/notebooks/pandeia/rbt.py:137-151 | the calendar is ascending and holds exactly the days that have data and are visible |
| BackgroundCache.PackedIndex | content/notebooks/pandeia/rbt.py:155-157 | at most one packed index per calendar day, each below the number of day records |
| BackgroundCache.PackedIndexAligned | content/notebooks/pandeia/rbt.py:137-157 | packed indices are never negative, and when every calendar day has its record they are the date-map entries of the calendar days, in order (so Ndays equals the calendar length) |
| BackgroundCache.PackedPrefix | content/notebooks/pandeia/rbt.py:155-157 | the same for any calendar of days with data |
| BackgroundCache.PackedNonNegative | content/notebooks/pandeia/rbt.py:155 | `date_map[calendar]` is non-negative on days with data |
| BackgroundCache.PackedRecorded | content/notebooks/pandeia/rbt.py:155-157 | when every entry is below the record count the range filter drops nothing |
| BackgroundCache.PackedDropsUnrecorded | content/notebooks/pandeia/rbt.py:157 | a calendar day whose entry is at or past the record count makes Ndays smaller than the calendar |
| BackgroundCache.CalendarOutrunsRecords | content/notebooks/pandeia/rbt.py:151-163 | a visible day with data whose record is missing stays in the returned calendar while Ndays is smaller (see Findings) |
| BackgroundCache.RecordedCalendar | content/notebooks/pandeia/rbt.py:155-157 | the calendar trimmed with the same filter keeps only calendar days |
| BackgroundCache.RecordedCalendarAligned | content/notebooks/pandeia/rbt.py:155-163 | the trimmed calendar has one day per packed index and day `i` is stored at record `packed[i]` |
| BackgroundCache.TotalBackground | content/notebooks/pandeia/rbt.py:176 | one total per day, each as long as the wavelength grid |
| BackgroundCache.ModifyTotals | content/notebooks/pandeia/rbt.py:179-185 | with no days `mod_total_bg` is never bound (UnboundLocalError); otherwise one modified total per day, each the modification of that day's total |
| BackgroundCache.RealMin | content/notebooks/pandeia/rbt.py:279 | `np.min`: an element no larger than any other |
| BackgroundCache.CountBelow | content/notebooks/pandeia/rbt.py:280 | the count of days below the limit is at most the number of days |
| BackgroundCache.CountBelowMeans | content/notebooks/pandeia/rbt.py:280 | the count is zero exactly when no day is strictly below the limit |
| BackgroundCache.CountBelowMonotone | content/notebooks/pandeia/rbt.py:280 | a higher limit never counts fewer days |
| BackgroundCache.GoodDays | content/notebooks/pandeia/rbt.py:279-280 | good_days lies in 0..Ndays, is at least one exactly when the limit exceeds the minimum, and is 0 when the limit is at most the minimum (thresh = 1) |
| BackgroundCache.BathtubHasGoodDay | content/notebooks/pandeia/rbt.py:279-280 | when every daily total is positive, the bathtub counts at least one good day exactly when thresh > 1 |
| BackgroundCache.BathtubThresholdMonotone | content/notebooks/pandeia/rbt.py:279-280 | for non-negative totals, a larger thresh never gives fewer good days |
| BackgroundCache.Background.constructor | content/notebooks/pandeia/rbt.py:64-73 | the state `__init__` has before its first bathtub: the wavelength, threshold and calendar are recorded and there is no bathtub yet |
| BackgroundCache.NewBackground | content/notebooks/pandeia/rbt.py:45-76 | `__init__` as a whole: with no recorded day it raises UnboundLocalError before any bathtub is made; otherwise it succeeds exactly when the wavelength lies in the grid (else ValueError), and the new object records the inputs and holds the bathtub `make_bathtub` makes from the modified per-day totals at that wavelength |
| BackgroundCache.BathtubTotals | content/notebooks/pandeia/rbt.py:176-185 | one value per day: each day's total background, modified and then read off at the wavelength (`total_thiswave`, line 275) |
| BackgroundCache.Background.MakeBathtub | content/notebooks/pandeia/rbt.py:266-290 | the wavelength is recorded first; outside the grid or with no days it raises and keeps the old bathtub; otherwise the bathtub holds the wavelength, the minimum, the strict good-day count for `min * thresh` and the totals |
| BackgroundCache.Background.WriteBackgroundRow | content/notebooks/pandeia/rbt.py:310-317 | nothing is written when the day is not given or not in the calendar; otherwise the row is the first calendar position holding that day |
| DashboardGaps.InternalGaps | content/notebooks/background_visualization_tool/rbvt.py:67-79 | the spans between consecutive days more than one apart, (d[i] + 0.5, d[i+1] − 0.5) each, in order; `InternalGapsCount`, `InternalGapsWithin` and `InternalGapsCoverMissingDays` state what they are |
| DashboardGaps.GapSpans | content/notebooks/background_visualization_tool/rbvt.py:67-79 | the loop over consecutive pairs returns exactly the spans of `InternalGaps` |
| DashboardGaps.InternalGapsCount | content/notebooks/background_visualization_tool/rbvt.py:67-79 | one span per pair of consecutive days more than one apart, none for fewer than two days, each span with left < right |
| DashboardGaps.InternalGapsWithin | content/notebooks/background_visualization_tool/rbvt.py:67-79 | for ascending days every internal span lies between the first day + 0.5 and the last day − 0.5 |
| DashboardGaps.GapBetweenCovers | content/notebooks/background_visualization_tool/rbvt.py:74-78 | the span emitted for a pair (d[i] + 0.5, d[i+1] − 0.5) shades exactly the integer days strictly between them |
| DashboardGaps.InternalGapsBeyond | content/notebooks/background_visualization_tool/rbvt.py:67-79 | no internal span shades a day after the last day |
| DashboardGaps.InternalGapsCoverMissingDays | content/notebooks/background_visualization_tool/rbvt.py:67-79 | between the first and the last day, a day is shaded by an internal span exactly when it is missing from the calendar |
| DashboardGaps.SeqMin | content/notebooks/background_visualization_tool/rbvt.py:88 | `np.min`: a day of the list no larger than any other |
| DashboardGaps.KeepProper | content/notebooks/background_visualization_tool/rbvt.py:94 | the comprehension keeps exactly the spans with R > L |
| DashboardGaps.EdgeSpans | content/notebooks/background_visualization_tool/rbvt.py:81-94 | no days gives exactly [(0, 365)]; otherwise (0, first − 0.5) is present exactly when first > 0 and (last + 0.5, 365) exactly when last < 365, at most two spans, each with R > L |
| DashboardGaps.EdgeSpansCover | content/notebooks/background_visualization_tool/rbvt.py:81-94 | for an ascending calendar the edge spans shade exactly the days of the year before the first day and after the last |
| DashboardGaps.ShadeSpans | content/notebooks/background_visualization_tool/rbvt.py:548-552 | the internal spans followed by the edge spans; `ShadingMarksMissingDays` states that they shade exactly the days missing from the calendar |
| DashboardGaps.RecomputeShading | content/notebooks/background_visualization_tool/rbvt.py:548-564 | one quad and one "Not visible" label per internal-then-edge span, with the span's left and right, the label x exactly the midpoint (left + right) / 2 and so strictly inside the span |
| DashboardGaps.ShadingMarksMissingDays | content/notebooks/background_visualization_tool/rbvt.py:548-552 | for an ascending calendar inside 0..365 a day of the year is shaded exactly when it is not in the calendar |
| DashboardGaps.Separated | content/notebooks/background_visualization_tool/rbvt.py:96-105 | the first sample, then for each later sample a NaN break before it when it jumps more than a day; `SeparatedLength` and `SeparatedSamples` state its length, its breaks and its samples |
| DashboardGaps.InsertNansForGaps | content/notebooks/background_visualization_tool/rbvt.py:96-105 | the loop produces `Separated(x, y)`: the first sample, then for each later sample a NaN break when its day jumps by more than one, then the sample |
| DashboardGaps.SeparatedLength | content/notebooks/background_visualization_tool/rbvt.py:96-105 | the output holds n + (number of jumps) points, of which exactly the jumps are breaks |
| DashboardGaps.SeparatedSamples | content/notebooks/background_visualization_tool/rbvt.py:96-105 | dropping the breaks gives back the input samples, in order |
| DashboardGaps.Bridges | content/notebooks/background_visualization_tool/rbvt.py:107-114 | one segment per jump whose two ends both have a value, in pair order; `BridgesJoinJumps` and `BridgesCount` state what each segment joins and how many there are |
| DashboardGaps.GapSegments | content/notebooks/background_visualization_tool/rbvt.py:107-114 | the loop returns exactly the bridges of `Bridges(x, y)`, in pair order |
| DashboardGaps.BridgesJoinJumps | content/notebooks/background_visualization_tool/rbvt.py:111-113 | every segment joins two consecutive samples across a jump, both with a finite value |
| DashboardGaps.BridgesCount | content/notebooks/background_visualization_tool/rbvt.py:107-114 | at most one segment per jump, exactly one per jump when every value is finite, so as many segments as the line has breaks |
| DashboardInputs.RangeChecked | content/notebooks/background_visualization_tool/rbvt.py:415-431 | as written: a parsed value is kept exactly when it is NaN or a finite value inside the closed range, and is then returned unchanged |
| DashboardInputs.ParseRa | content/notebooks/background_visualization_tool/rbvt.py:415-419 | `_parse_ra` accepts exactly the finite values in [0, 360], and NaN |
| DashboardInputs.ParseDec | content/notebooks/background_visualization_tool/rbvt.py:421-425 | `_parse_dec` accepts exactly the finite values in [−90, 90], and NaN |
| DashboardInputs.ParseThresh | content/notebooks/background_visualization_tool/rbvt.py:427-431 | `_parse_thresh` accepts exactly the finite values in [1, 2], and NaN |
| DashboardInputs.ParsersAcceptNaN | content/notebooks/background_visualization_tool/rbvt.py:415-431 | the text "nan" passes all three range checks (see Findings) |
| DashboardInputs.FiniteInRange | content/notebooks/background_visualization_tool/rbvt.py:415-431 | the intended check: a value is kept exactly when it is finite and inside the closed range |
| DashboardInputs.FiniteInRangeAgrees | content/notebooks/background_visualization_tool/rbvt.py:415-431 | apart from NaN, the intended check and the code agree on every input |
| DashboardInputs.Truncate | content/notebooks/background_visualization_tool/rbvt.py:435 | `int(x)` truncates toward zero: the floor for non-negative values, the ceiling for negative ones |
| DashboardInputs.ParseDay | content/notebooks/background_visualization_tool/rbvt.py:433-440 | `_parse_day` succeeds exactly for finite values in (−1, 366), giving their truncation, which lies in 0..365; unparseable text, infinities and NaN give None |
| DashboardInputs.CommitValue | content/notebooks/background_visualization_tool/rbvt.py:443-473 | as written: an RA, Dec or threshold handler moves its slider exactly when the guard is clear, the text gets past its parser (NaN or a finite value in range) and the value is not `isclose` to the slider, and moves it to the parsed value; the day handler exactly when the guard is clear, `_parse_day` succeeds and the day differs from `int(slider)` |
| DashboardInputs.IntendedCommitValue | content/notebooks/background_visualization_tool/rbvt.py:443-465 | the intended handler: a slider only ever moves to a finite value inside its field's range, and never to a value `isclose` to the one it holds |
| DashboardInputs.CommitIntendedAgrees | content/notebooks/background_visualization_tool/rbvt.py:443-465 | the written and intended handlers agree on every input except the text "nan", which the written RA, Dec and threshold handlers (and only they, with the guard clear) store in the slider and the intended ones ignore |
| DashboardInputs.NaNCommitRepeats | content/notebooks/background_visualization_tool/rbvt.py:443-465 | a slider holding NaN is moved, and `update` runs, every time "nan" is committed again, because NaN is never `isclose` to itself |
| DashboardInputs.CommitCurrentIsNoOp | content/notebooks/background_visualization_tool/rbvt.py:443-473 | committing the finite in-range value a slider already holds never moves the slider |
| DashboardInputs.Dashboard.constructor | content/notebooks/background_visualization_tool/rbvt.py:396-407 | the sliders hold the initial values, the text boxes show them and every guard is clear |
| DashboardInputs.Dashboard.Commit | content/notebooks/background_visualization_tool/rbvt.py:443-473 | the slider takes the as-written commit value (NaN included) and `update` runs once exactly when there is one; after such a move every text box shows its slider and every guard is clear (the sync that ends `update`, line 669); with no move, guards and text boxes are unchanged; the day slider stays a whole number |
| DashboardInputs.Dashboard.ShowGuarded | content/notebooks/background_visualization_tool/rbvt.py:481 | one text box is written with its guard set around the write, the guard is clear afterwards, and no slider moves and no update runs |
| DashboardInputs.Dashboard.SyncInputsFromSliders | content/notebooks/background_visualization_tool/rbvt.py:480-484 | each text box shows its slider's value (the day, a whole number, as `int(day)`), every guard is clear afterwards, and no slider moves and no update runs |
| DashboardView.BathtubLegend | content/notebooks/background_visualization_tool/rbvt.py:495-507 | the visible components in order, then under "show all" the visible overlays; `LegendAfterToggle` and `View.RefreshBathtubLegend` state what it lists |
| DashboardView.VisibleOverlays | content/notebooks/background_visualization_tool/rbvt.py:503-505 | at most one legend item per element, for the visible overlays in `overlay_filters` order |
| DashboardView.AllOverlaysVisible | content/notebooks/background_visualization_tool/rbvt.py:502-505 | with every overlay visible, every element is listed, in order |
| DashboardView.LegendAfterToggle | content/notebooks/background_visualization_tool/rbvt.py:495-507 | after a toggle, "show all" lists exactly the elements in order; otherwise the legend lists exactly the ticked components in the order Total, Zodi, Thermal, ISM+CIB |
| DashboardView.LegendColumns | content/notebooks/background_visualization_tool/rbvt.py:507 | `max(1, len(items))` |
| DashboardView.Position | content/notebooks/background_visualization_tool/rbvt.py:492 | every element of the select has a place in `overlay_filters` |
| DashboardView.FiltersDistinct | content/notebooks/background_visualization_tool/rbvt.py:492 | no element is listed twice in `overlay_filters` |
| DashboardView.View.RefreshBathtubLegend | content/notebooks/background_visualization_tool/rbvt.py:495-507 | the legend becomes the visible components in order followed, under "show all", by the visible overlay elements; the column count is `max(1, n)`; no renderer changes |
| DashboardView.View.ShowOverlays | content/notebooks/background_visualization_tool/rbvt.py:720-723 | every overlay line and its gap segments get the "show all" state; lines and violins are untouched |
| DashboardView.View.ShowViolin | content/notebooks/background_visualization_tool/rbvt.py:726-731 | the five glyphs of one element get the given visibility and every other element's glyphs are unchanged |
| DashboardView.View.ShowViolins | content/notebooks/background_visualization_tool/rbvt.py:725-731 | element f's violin is visible exactly under "show all", or when Total is ticked and f is the selected element |
| DashboardView.View.ToggleVisibility | content/notebooks/background_visualization_tool/rbvt.py:696-736 | component lines and their dashes are shown only outside "show all" and when ticked; overlays take the "show all" state; the violin rule above; the element label and its visibility; the legend refreshed |
| DashboardView.SpectrumFor | content/notebooks/background_visualization_tool/rbvt.py:598-622 | the spectrum is shown exactly when `int(day)` is a calendar day, from the first calendar position holding it |
| DashboardView.InitialDay | content/notebooks/background_visualization_tool/rbvt.py:61-64 | a day not in a non-empty calendar becomes the middle calendar day, an empty calendar gives day 0, and a calendar day is kept |
| TargetVisibility.TargetsOf | content/notebooks/pandeia/tgt_vis.py:69-72 | a list of targets is kept as it is; anything else becomes a one-element list |
| TargetVisibility.Ceil | content/notebooks/pandeia/tgt_vis.py:164 | the least integer not below x, the length rule of `np.arange` |
| TargetVisibility.Arange | content/notebooks/pandeia/tgt_vis.py:164 | `np.arange(0, stop, step)`: entry k is k·step, for `ArangeCount` entries |
| TargetVisibility.ArangeCountMeans | content/notebooks/pandeia/tgt_vis.py:164 | k·step is on the grid exactly when it is below the stop (positive step) or above it (negative step) |
| TargetVisibility.StartOf | content/notebooks/pandeia/tgt_vis.py:138-148 | no start time gives 2024-01-01; a `Time` is kept; an ISO string is parsed; anything else fails the `assert False` |
| TargetVisibility.SampledTimes | content/notebooks/pandeia/tgt_vis.py:130-164 | a bad start fails; a step larger than the duration fails the `assert False`; otherwise the times are start + k·step for the `arange` grid (defaults: duration 365, step 1) |
| TargetVisibility.SampledTimesGrid | content/notebooks/pandeia/tgt_vis.py:150-164 | start + k·step is sampled exactly when 0 ≤ k·step < duration (for a positive step) |
| TargetVisibility.DefaultSampling | content/notebooks/pandeia/tgt_vis.py:138-164 | with every argument left out the grid is the 365 days from 2024-01-01 |
| TargetVisibility.GoodAngleMeans | content/notebooks/pandeia/tgt_vis.py:81-82 | `good_angles` holds exactly when 54° ≤ separation ≤ 126°, both ends included |
| TargetVisibility.Wrap360 | content/notebooks/pandeia/tgt_vis.py:237 | the `np.where(x >= 0, x, x + 360)` wrap adds 360 only to negative angles, giving [0, 360) for angles in [−360, 360) |
| TargetVisibility.NominalRoll | content/notebooks/pandeia/tgt_vis.py:228-237 | a negative Sun Z projection adds 180°; a negative roll gains 360°; for phi in (−180°, 180°] the roll lies in [0°, 360°] |
| TargetVisibility.PositionAnglesOf | content/notebooks/pandeia/tgt_vis.py:239-249 | pa_obs_y = roll − 90, pa_fpa_local_x = roll − 30, pa_fpa_local_y = roll − 120, each + 360 when negative, all in [0, 360) |
| TargetVisibility.PositionAnglesOffsets | content/notebooks/pandeia/tgt_vis.py:241-249 | modulo a full turn the focal-plane +X axis stays 60° ahead of the observatory +Y axis and the focal-plane +Y axis 30° behind it |
| TargetVisibility.WithAngles | content/notebooks/pandeia/tgt_vis.py:171-176 | a row gets the Sun's RA and Dec, the separation and its window flag; no other column changes |
| TargetVisibility.WithRoll | content/notebooks/pandeia/tgt_vis.py:264-270 | a row gets the nominal roll of its phi and Sun Z projection, the three position angles `PositionAnglesOf` gives for that roll (each in [0, 360)) and the Sun angles; the earlier columns are kept |
| TargetVisibility.ComputeVisibility.constructor | content/notebooks/pandeia/tgt_vis.py:67-83 | once `set_sampled_times` has succeeded on the interval: the targets as wrapped, the grid `SampledTimes` gives for the interval, the 54°/126° limits and an empty row per target and time |
| TargetVisibility.NewComputeVisibility | content/notebooks/pandeia/tgt_vis.py:67-83 | `compute_visibility(...)` raises exactly the error `SampledTimes` gives for the interval (bad start, step above the duration, zero step); otherwise it is a fresh object over the wrapped targets and that grid, every row empty |
| TargetVisibility.GoodAngle | content/notebooks/pandeia/tgt_vis.py:81-82 | `good_angles`: the separation between the two limits, both included; `GoodAngleMeans` states the window |
| TargetVisibility.ComputeVisibility.GetGoodAngles | content/notebooks/pandeia/tgt_vis.py:166-176 | every row of every target gets its angle columns, the loop leaving the table's shape alone |
| TargetVisibility.ComputeVisibility.GetRollPaSunang | content/notebooks/pandeia/tgt_vis.py:178-270 | every row of every target gets its roll, position-angle and Sun-angle columns |
| TargetVisibility.ComputedRowsComplete | content/notebooks/pandeia/tgt_vis.py:166-270 | after both passes the window flag agrees with 54..126, the roll lies in [0, 360] and every position angle in [0, 360) |
| SurveyMaps.ParseSurvey | notebooks/footprint_visualization/footprint_utils.py:202-207 | a survey is recognised exactly when its upper-cased name is one of HLTDS, HLWAS, GBTDS and GPS, and it is that survey |
| SurveyMaps.ParseBand | notebooks/footprint_visualization/footprint_utils.py:203-210 | an element is recognised exactly when its upper-cased name is one of the ten WFI elements, and it is that element |
| SurveyMaps.ParseTier | notebooks/footprint_visualization/footprint_utils.py:204-236 | an HLWAS tier is recognised exactly when its upper-cased name is ALL, DEEP, WIDE, MEDIUM, ULTRA-DEEP or ULTRADEEP, both ultra-deep spellings naming the same tier |
| SurveyMaps.MapPath | notebooks/footprint_visualization/footprint_utils.py:216 | ./aux_data/map_<stem>.hsp; `MapPathShape` states the form of every answer |
| SurveyMaps.MapPathShape | notebooks/footprint_visualization/footprint_utils.py:216 | every answer has the form ./aux_data/map_<stem>.hsp |
| SurveyMaps.HlwasStem | notebooks/footprint_visualization/footprint_utils.py:237-280 | which elements each HLWAS tier has a map for (WIDE only F158; MEDIUM F106, F129, F158 and GRISM; DEEP all but F062 and PRISM; ULTRADEEP F106, F129 and F158; ALL all but F062 and PRISM) and which map each gets: MEDIUM and ULTRADEEP share the `_F158` map among F106, F129 and F158, DEEP shares `_F213` among its six filters, F146 and GRISM keep their own; ALL gives F087, F184 and F213 `HLWAS-deep_F213`, F146 `HLWAS-deep_F146`, F106 and F129 `HLWAS-all_F106`, F158 and GRISM their own `HLWAS-all_` maps |
| SurveyMaps.HlwasMap | notebooks/footprint_visualization/footprint_utils.py:233-280 | with a tier given, HLWAS raises for an unknown tier and for an element the tier has no map for, and otherwise answers with the path of the map `HlwasStem` names for the tier and its lower-case text |
| SurveyMaps.HltdsMap | notebooks/footprint_visualization/footprint_utils.py:282-294 | HLTDS has a map for every element except F146, F213 and GRISM: F184 gets `HLTDS-deep_F184`, F062 `HLTDS-wide_F062`, and PRISM, F158, F129, F106 and F087 their own `HLTDS-deep+wide_` map |
| SurveyMaps.SurveyMapsUri | notebooks/footprint_visualization/footprint_utils.py:184-294 | an unknown survey or element raises; every answer is a map path; the answer is None exactly for HLWAS without a tier; HLWAS with a tier answers as `HlwasMap`, HLTDS as `HltdsMap` |
| SurveyMaps.HlwasMapNames | notebooks/footprint_visualization/footprint_utils.py:237-280 | from the caller's strings, the map each HLWAS tier gives each element: WIDE F158 its own; MEDIUM F106, F129, F158 the `-medium_F158` map and GRISM its own; DEEP the six filters the `_F213` map, F146 and GRISM their own; ULTRADEEP F106, F129, F158 the `_F158` map; ALL F087, F184, F213 `HLWAS-deep_F213`, F146 `HLWAS-deep_F146`, F158 `HLWAS-all_F158`, GRISM `HLWAS-all_GRISM`, F106 and F129 `HLWAS-all_F106` |
| SurveyMaps.HltdsMapNames | notebooks/footprint_visualization/footprint_utils.py:282-294 | from the caller's strings and whatever the tier: HLTDS F184 gets `HLTDS-deep_F184`, F062 `HLTDS-wide_F062`, PRISM, F158, F129, F106 and F087 `HLTDS-deep+wide_` with the upper-cased element, and F146, F213 and GRISM raise |
| SurveyMaps.OwnMapSurveys | notebooks/footprint_visualization/footprint_utils.py:212-222 | GBTDS and GPS raise exactly for the element spelled "PRISM" and "F146" respectively, and otherwise answer with the map named after the survey and the upper-cased element |
| SurveyMaps.HltdsIgnoresTier | notebooks/footprint_visualization/footprint_utils.py:282-294 | for HLTDS the tier, given or not, does not change the answer |
| SurveyMaps.UltraDeepSpelling | notebooks/footprint_visualization/footprint_utils.py:260-264 | only the exact spelling "ULTRA-DEEP" and the ULTRADEEP spellings give the "ultradeep" map; "ultra-deep" or "Ultra-Deep" give a path with "ultra-deep" in it |
| SurveyMaps.UltraDeepRewrite | notebooks/footprint_visualization/footprint_utils.py:260-262 | "ULTRA-DEEP" and "ULTRADEEP" are the same tier and contribute the same text to the path |
| SurveyMaps.SameTierSameUri | notebooks/footprint_visualization/footprint_utils.py:233-280 | two tier spellings with the same tier and the same path text give the same answer |
| SurveyMaps.SurveyMapsUriIntended | notebooks/footprint_visualization/footprint_utils.py:184-294 | the lookup with the fixes of the findings below: unknown survey or element raises and every answer is a map path |
| SurveyMaps.IntendedAlwaysAnswers | notebooks/footprint_visualization/footprint_utils.py:212-222 | the corrected lookup only ever raises a ValueError, and refuses the GBTDS prism and the GPS F146 however they are spelled |
| SurveyMaps.IntendedAgrees | notebooks/footprint_visualization/footprint_utils.py:206-294 | for an upper-case element, a given tier and no mis-cased ultra-deep, the corrected lookup answers exactly when the original does, with the same path |
| SurveyMaps.IntendedDefaultTier | notebooks/footprint_visualization/footprint_utils.py:228-231 | in the corrected lookup HLWAS without a tier answers as for tier ALL |
| SurveyMaps.HlwasWithoutTierReturnsNothing | notebooks/footprint_visualization/footprint_utils.py:228-232 | as written, HLWAS F158 with no tier returns None where the sum-of-all-tiers map ./aux_data/map_HLWAS-all_F158.hsp was announced |
| SurveyMaps.LowerCasePrismGetsMap | notebooks/footprint_visualization/footprint_utils.py:212-216 | as written, GBTDS with "prism" is given a PRISM map path; the corrected lookup raises |
| SurveyMaps.IntendedUltraDeep | notebooks/footprint_visualization/footprint_utils.py:260-264 | in the corrected lookup every spelling of ultra-deep gives the ultradeep F158 map for F106, F129 and F158 |
| Pointings.AfterLastColon | notebooks/footprint_visualization/footprint_utils.py:156 | the text after the last ':' (its first character dropped) holds no ':' |
| Pointings.FloatsOf | notebooks/footprint_visualization/footprint_utils.py:173 | the conversion fails exactly when one token does not convert; otherwise one value per token, each the token's conversion |
| Pointings.HeaderKindOf | notebooks/footprint_visualization/footprint_utils.py:149-163 | the five header tests run in order and the first that matches wins: a line is a step line exactly when it mentions "Survey Step", an observation line exactly when it mentions "Observation" but not "Survey Step", and so on down to "Planned Orient:" |
| Pointings.ReadLine | notebooks/footprint_visualization/footprint_utils.py:149-178 | one line: a step or observation line sets that value to the `int` of its last word, raising IndexError when it has no words and ValueError when the word is no integer; a region-target line sets the region to the text after its last ':'; a reference line sets RA and Dec to the `float`s of its two comma-separated parts, raising ValueError when there are not exactly two or one does not convert; an orient line sets the orient to the `float` of its first field, raising IndexError or ValueError; each header line changes nothing else. Any other line keeps the header; it raises (ValueError) exactly when it is an exposure or region row one of whose values does not convert; an exposure row records its 11 values under (step, observation, tile, exposure), a region row its 4 values under (region, index, RA, Dec, orient), and every other line changes nothing |
| Pointings.ReadPointingsFile | notebooks/footprint_visualization/footprint_utils.py:147-178 | the reading loop gives the line-by-line reader run over the file, stopping at the first error |
| Pointings.Run | notebooks/footprint_visualization/footprint_utils.py:147-178 | the line loop: `ReadLine` applied line by line, stopping at the first error; `ReadPointingsFile`, `RunConcat` and `ExposureCarriesHeader` state its properties |
| Pointings.RunConcat | notebooks/footprint_visualization/footprint_utils.py:148 | for any one-line step, the reader run over two stretches of lines is the run over the first, then the run over the second from where the first left off; an error in the first ends the run |
| Pointings.HeaderKeptByDataLines | notebooks/footprint_visualization/footprint_utils.py:149-165 | lines that are not header lines leave the step, observation, region, reference position and orient as they were |
| Pointings.RowsPersist | notebooks/footprint_visualization/footprint_utils.py:173-178 | no line removes a recorded row: both tables only gain keys |
| Pointings.ExposureRecorded | notebooks/footprint_visualization/footprint_utils.py:166-173 | an exposure line is recorded under the current step and observation and is still there after all later lines |
| Pointings.ExposureCarriesHeader | notebooks/footprint_visualization/footprint_utils.py:147-173 | the exposure line at any position is recorded under the step and observation the lines before it left current, and survives to the end |
| Rist.BackgroundKey | notebooks/rist/plot_rist.py:214-225 | each of the five drop-down labels becomes its grid key; any other value passes through unchanged |
| Rist.BackgroundKeysDistinct | notebooks/rist/plot_rist.py:134-225 | the five labels give five different keys, and no key is itself a label |
| Rist.TableOf | notebooks/rist/plot_rist.py:231-242 | the MA table drop-down value is recognised exactly when it is one of the six table names |
| Rist.LeadingNumberOfLabel | notebooks/rist/plot_rist.py:250-254 | `int(split(text, '(')[0])` of a shown label is the label's count |
| Rist.LabelTextInjective | notebooks/rist/plot_rist.py:248 | different labels show different texts, so the membership test on texts is a test on labels |
| Rist.Renormalize | notebooks/rist/plot_rist.py:248-287 | a label the new table offers is kept; otherwise the count is kept, or lowered to the table's maximum label |
| Rist.OptionLabelRange | notebooks/rist/plot_rist.py:233-242 | every label any table offers has a count from 2 to 10 |
| Rist.RenormalizeLandsInOptions | notebooks/rist/plot_rist.py:245-287 | a count from 2 to 10 carried over to any table lands on one of that table's options |
| Rist.StripSuffix | notebooks/rist/plot_rist.py:290-293 | the seven suffixed labels lose their "(Rec. Min)" or "(Max)", leaving the bare count |
| Rist.StripSuffixOfOption | notebooks/rist/plot_rist.py:290-293 | for every option of every table the stored count is the bare number, with no '(' in it |
| Rist.GridName | notebooks/rist/plot_rist.py:361 | the selection's name: MA table, count and background joined by '_', the name `RetrieveGridProperties` gives each grid and `LookupGrid` searches for |
| Rist.RetrieveGridProperties | notebooks/rist/plot_rist.py:403-411 | one name per grid, in grid order: MA table name, count and background joined by '_' |
| Rist.LookupGrid | notebooks/rist/plot_rist.py:361-364 | the index of the first grid with the selection's name, and an IndexError exactly when no grid has it |
| Rist.LookupFindsGrid | notebooks/rist/plot_rist.py:362 | a name that grid j carries is found, at j or at an earlier grid |
| Rist.SaturationMarker | notebooks/rist/plot_rist.py:313-314 | a marker is either absent (0) or at most 1.1 × ymin |
| Rist.SaturationMarksLowPoints | notebooks/rist/plot_rist.py:313-314 | with a positive floor a marker is drawn exactly for points at or below 1.1 × ymin; a saturated point (SNR 0) is drawn at 1.1 × ymin, any other low point at its own SNR |
| Rist.SaturationMarkers | notebooks/rist/plot_rist.py:309-314 | one marker per point, each that point's marker |
| Rist.DefaultsConsistent | notebooks/rist/plot_rist.py:38-43 | the widgets' initial values select the same grid as the defaults: the zodiacal label gives minzodi_benchmark, hlwas_imaging offers "5", and "5" is stored bare |
| Rist.RistTool.constructor | notebooks/rist/plot_rist.py:27-49 | the default magnitude, y range, table, count and background; one grid name per grid; the widgets on their initial values; no saturation markers |
| Rist.RistTool.RefreshResultantOptions | notebooks/rist/plot_rist.py:231-287 | the table's options replace the drop-down's and its value is carried over, landing on one of the options; nothing else changes |
| Rist.RistTool.UpdateData | notebooks/rist/plot_rist.py:196-317 | an unknown MA table leaves everything as it was (the options variable is unbound); otherwise the options are refreshed, the stripped count, table and background key are stored, and the grid found is replotted at the slider's magnitude with its saturation markers, or IndexError when none matches |
| Rist.RistTool.StoreAndReplot | notebooks/rist/plot_rist.py:295-317 | the selection is stored; a found grid's interpolated series and its markers replace the plotted ones, a missing grid raises IndexError and leaves them |
| Rist.StoredCountIsPlain | notebooks/rist/plot_rist.py:289-296 | from any option label, whatever table follows, the stored count is a plain number with no suffix |
| OpenUniverseConverter.Get | content/notebooks/open_universe_file_converter/oufac.py:50 | `header[key]` is absent exactly when no card has the keyword |
| OpenUniverseConverter.GetIsFirstCard | content/notebooks/open_universe_file_converter/oufac.py:50 | the value `header[key]` gives is that of the first card with the keyword |
| OpenUniverseConverter.DictOf | content/notebooks/open_universe_file_converter/oufac.py:153-157 | the dictionary has exactly the header's keywords |
| OpenUniverseConverter.LastCardWins | content/notebooks/open_universe_file_converter/oufac.py:155-156 | a card no later card overrides gives its keyword's value in the dictionary |
| OpenUniverseConverter.DistinctKeysKept | content/notebooks/open_universe_file_converter/oufac.py:155-156 | a header with one card per keyword gives back every card from the dictionary |
| OpenUniverseConverter.NumberOf | content/notebooks/open_universe_file_converter/oufac.py:50 | `header[...] + 1` works on numbers (and booleans) and raises TypeError exactly on text |
| OpenUniverseConverter.CoeffsToPoly | content/notebooks/open_universe_file_converter/oufac.py:39-45 | a coefficient is set exactly for the matrix entries whose indices sum to between 1 and the degree, with that entry's value; the constant term stays zero |
| OpenUniverseConverter.MixByCd | content/notebooks/open_universe_file_converter/oufac.py:55-57 | matrices of different sizes raise ValueError; otherwise two fresh matrices of the same size whose entries are the CD-matrix combinations of the SIP entries |
| OpenUniverseConverter.OverwriteLinearTerms | content/notebooks/open_universe_file_converter/oufac.py:58-61 | the four linear terms become the CD entries, and IndexError exactly when a matrix is smaller than 2×2; every other entry is unchanged |
| OpenUniverseConverter.BoxOf | content/notebooks/open_universe_file_converter/oufac.py:50-81 | the box starts at −0.5 on both axes and spans NAXIS + 1 pixels on each |
| OpenUniverseConverter.PixelsInBox | content/notebooks/open_universe_file_converter/oufac.py:81 | the whole pixels inside the box are those from 0 to NAXIS on each axis, one more column and row than the image has |
| OpenUniverseConverter.DistortionPolynomials | content/notebooks/open_universe_file_converter/oufac.py:53-64 | without SIP keywords `w.sip.a` raises AttributeError; matrices of different sizes raise ValueError, matrices smaller than 2×2 IndexError; otherwise the two polynomials carry the mixed coefficients with the CD entries as linear terms, up to each SIP order |
| OpenUniverseConverter.WcsFromFitsHeader | content/notebooks/open_universe_file_converter/oufac.py:19-83 | a missing NAXIS2, NAXIS1 or LONPOLE raises KeyError in reading order, a text value TypeError, a header without SIP keywords AttributeError; a result has the box, shift, reference position, LONPOLE and polynomials the header and WCS give |
| OpenUniverseConverter.UnpackTransients | content/notebooks/open_universe_file_converter/oufac.py:291-320 | it succeeds exactly when every row has the values it needs (IndexError otherwise); each row's template index is its first value and its SALT2 columns are values 1 to 7 when it names more than one parameter, NaN otherwise |
| OpenUniverseConverter.ScaDigits | content/notebooks/open_universe_file_converter/oufac.py:368 | `:02d` formats integers (and booleans) with at least two characters and raises on anything else |
| OpenUniverseConverter.ScaDigitsRoundTrip | content/notebooks/open_universe_file_converter/oufac.py:368 | a detector number below 100 is written with exactly two digits that read back as the number |
| OpenUniverseConverter.ScaDigitsWide | content/notebooks/open_universe_file_converter/oufac.py:368 | a detector number of 100 or more is written in full |
| OpenUniverseConverter.MetaOf | content/notebooks/open_universe_file_converter/oufac.py:361-379 | the block exists exactly when every keyword is present and SCA_NUM formats; a missing FILTER, then SCA_NUM, raises KeyError; the constants ROMAN, WFI, 1 read and gain 1.0; the detector "SCA" + two digits; the raw header exactly when asked for, as the dictionary of the header; FILTER, RA_TARG, DEC_TARG, ZPTMAG, SKY_MEAN, PA_FPA, DATE-OBS, MJD-OBS and EXPTIME each stored as the header's value |
| OpenUniverseConverter.FitsToAsdf.constructor | content/notebooks/open_universe_file_converter/oufac.py:87-125 | the arguments are stored; the header is read; the data arrays only when loading is not lazy; no WCS and no catalogs |
| OpenUniverseConverter.FitsToAsdf.Open | content/notebooks/open_universe_file_converter/oufac.py:113-128 | a path that is not a string raises NotImplementedError; a string gives a fresh converter as the constructor leaves it |
| OpenUniverseConverter.FitsToAsdf.ReadS3Bucket | content/notebooks/open_universe_file_converter/oufac.py:130-147 | the header is always read, the data arrays only when asked for; WCS and catalogs are untouched |
| OpenUniverseConverter.FitsToAsdf.FitsheaderToDict | content/notebooks/open_universe_file_converter/oufac.py:149-160 | ValueError without a header; otherwise every keyword with the value of its last card |
| OpenUniverseConverter.FitsToAsdf.BuildGwcs | content/notebooks/open_universe_file_converter/oufac.py:162-169 | ValueError without a header; otherwise the WCS built from the header; a failure leaves the WCS; nothing else changes |
| OpenUniverseConverter.FitsToAsdf.FetchCatalogs | content/notebooks/open_universe_file_converter/oufac.py:171-330 | the WCS is built first when missing (and kept when present), and a WCS built here is the one the header and `w` give (`BuiltFrom`); a new catalog dictionary has the point sources and galaxies asked for; on success it has exactly the three entries, the transients None unless asked for; a transient row short of values raises, with the first two entries already stored |
| OpenUniverseConverter.FitsToAsdf.EnsureData | content/notebooks/open_universe_file_converter/oufac.py:344-345 | with no data yet, the file is read in full (header and three arrays); otherwise nothing changes |
| OpenUniverseConverter.FitsToAsdf.EnsureWcs | content/notebooks/open_universe_file_converter/oufac.py:351-352 | a WCS already present is kept; otherwise it is built, and a WCS built here is the one the header and `w` give; no header raises; header, data and catalogs are untouched |
| OpenUniverseConverter.FitsToAsdf.EnsureCatalogs | content/notebooks/open_universe_file_converter/oufac.py:356-357 | catalogs already present are kept; otherwise all three kinds are fetched: the point sources and galaxies of `src`, and transients over `src`'s base table; a WCS already present is kept; header and data are untouched |
| OpenUniverseConverter.FitsToAsdf.Write | content/notebooks/open_universe_file_converter/oufac.py:332-381 | data, WCS and catalogs are each produced only when missing; no header raises; a written tree carries the object's data, WCS and catalogs and the metadata block of its header; a WCS built during the call is the one the header and `w` give (`BuiltFrom`), and catalogs fetched during the call hold the point sources, the galaxies and the transients of `src` |
| InstallPlan.Retained | shared/notebook_data_dependencies.py:70-73 | what the filter keeps: only listed packages of the file, every listed package of the file, never more than the file has |
| InstallPlan.RetainedConcat | shared/notebook_data_dependencies.py:70-73 | the filter distributes over concatenation, so file order is kept |
| InstallPlan.RetainedStep | shared/notebook_data_dependencies.py:71 | one more package of the file is kept exactly when its name is listed |
| InstallPlan.PopUnlisted | shared/notebook_data_dependencies.py:70-73 | popping every unlisted key leaves exactly the filtered packages, in file order |
| InstallPlan.PathJoin | shared/notebook_data_dependencies.py:122 | `os.path.join`: the result ends with the second part; an absolute second part replaces the first; otherwise it starts with the first part and adds a '/' only when the first does not end with one |
| InstallPlan.FileName | shared/notebook_data_dependencies.py:110 | `url.split('/')[-1]`: a suffix of the URL with no '/', preceded by a '/' when it is not the whole URL |
| InstallPlan.FetchSteps | shared/notebook_data_dependencies.py:106-116 | one download step per URL, in order, each into the install directory under the URL's file name |
| InstallPlan.Fold | shared/notebook_data_dependencies.py:77-122 | the package loop over outcomes: each entry stored under its variable (a later one replaces an earlier one), the steps appended, the first error ending it; `FoldPrefixRaise` to `FoldNoSteps` state its properties |
| InstallPlan.FoldPrefixRaise | shared/notebook_data_dependencies.py:78-122 | once a package raises, the whole loop raises that error |
| InstallPlan.FoldOk | shared/notebook_data_dependencies.py:78-122 | the loop completes exactly when no package raises |
| InstallPlan.FoldFirstError | shared/notebook_data_dependencies.py:78-122 | a failing loop raises the error of the first package that fails |
| InstallPlan.FoldKeys | shared/notebook_data_dependencies.py:77-122 | the returned dictionary has exactly one key per environment variable of the packages processed |
| InstallPlan.FoldEntryFrom | shared/notebook_data_dependencies.py:86-122 | every entry of the dictionary is the entry some package with that variable produced |
| InstallPlan.FoldLastWins | shared/notebook_data_dependencies.py:86-122 | a variable no later package uses keeps this package's entry |
| InstallPlan.FoldNoSteps | shared/notebook_data_dependencies.py:81-86 | when every package is already installed nothing is created or downloaded |
| DataDependencies.Requested | shared/notebook_data_dependencies.py:66-68 | a string argument names the pieces between commas, spaces included; a list names its items |
| InstallPlan.Selected | shared/notebook_data_dependencies.py:66-73 | no filter keeps every package; a filter keeps the listed ones in file order (both revisions; the later one at notebook_data_dependencies_rev1.py:44-50, with its own reading of the names) |
| DataDependencies.Substitute | shared/notebook_data_dependencies.py:94 | one segment out per segment in; a segment mentioning `${HOME}` becomes HOME, the others are kept; `SubstituteLeading` states it on a path |
| DataDependencies.ReplaceHome | shared/notebook_data_dependencies.py:92-95 | the install path split on '/', substituted, joined back; `ReplaceHomeKeeps` and `ReplaceHomeLeading` state what it does to a path |
| DataDependencies.ReplaceHomeKeeps | shared/notebook_data_dependencies.py:92-95 | a path with no `${HOME}` segment is kept as written |
| DataDependencies.ReplaceHomeLeading | shared/notebook_data_dependencies.py:92-95 | a leading `${HOME}` segment becomes HOME and the rest is kept |
| DataDependencies.SubstituteLeading | shared/notebook_data_dependencies.py:94 | only the `${HOME}` segment is substituted |
| DataDependencies.OutcomeOf | shared/notebook_data_dependencies.py:78-122 | a package raises KeyError without a variable, and otherwise exactly when it is not installed and lacks an install path, URLs or data path; a set variable gives its value, pre-installed, and no work; an unset one gives the data path under the resolved install path, the directory and one download per URL |
| InstallPlan.Outcomes | shared/notebook_data_dependencies.py:78 | one outcome per package, in order, under the revision's per-package rule (`OutcomeOf` of each revision) |
| InstallPlan.RunPackages | shared/notebook_data_dependencies.py:77-122 | the loop of both revisions (the later one at notebook_data_dependencies_rev1.py:55-114) gives the fold of the package outcomes: entries stored under their variables, steps appended, stopping at the first error |
| DataDependencies.InstallFiles | shared/notebook_data_dependencies.py:66-126 | a missing HOME raises KeyError before any package; otherwise the package loop over the selected packages |
| DataDependencies.EntryOfPackage | shared/notebook_data_dependencies.py:81-122 | a selected package whose variable no later package uses leaves its own entry: the environment's value, pre-installed, or the data path under the resolved install path |
| DataDependencies.SpacedListDropsPackage | shared/notebook_data_dependencies.py:66-73 | the list "a, b" names " b", so package b is never installed |
| DataDependenciesRev1.CleanNames | shared/notebook_data_dependencies_rev1.py:46 | the names kept are non-empty and carry no surrounding whitespace |
| DataDependenciesRev1.Requested | shared/notebook_data_dependencies_rev1.py:44-46 | a string argument names its trimmed non-empty pieces; a list names its items |
| DataDependenciesRev1.StripKeeps | shared/notebook_data_dependencies_rev1.py:46 | a name without surrounding whitespace is its own strip |
| DataDependenciesRev1.StripLeadingSpace | shared/notebook_data_dependencies_rev1.py:46 | a space in front of a name is stripped away |
| DataDependenciesRev1.CleanNamesTwo | shared/notebook_data_dependencies_rev1.py:46 | two pieces that strip to non-empty names give those two names |
| DataDependenciesRev1.SpacedListKeepsPackage | shared/notebook_data_dependencies_rev1.py:44-46 | the list "a, b" names both a and b |
| DataDependenciesRev1.Home | shared/notebook_data_dependencies_rev1.py:54 | HOME's value, or "" when it is not set |
| DataDependenciesRev1.Substitute | shared/notebook_data_dependencies_rev1.py:73-77 | one segment out per segment in; a segment mentioning `${HOME}` becomes HOME when HOME is set, the others are kept |
| DataDependenciesRev1.ReplaceHome | shared/notebook_data_dependencies_rev1.py:72-78 | the install path split on '/', substituted, joined back; `EmptyHomeKeepsPath` and `ReplaceHomeLeading` state what it does to a path |
| DataDependenciesRev1.EmptyHomeKeepsPath | shared/notebook_data_dependencies_rev1.py:72-78 | without a HOME the install path is used exactly as written |
| DataDependenciesRev1.ReplaceHomeLeading | shared/notebook_data_dependencies_rev1.py:72-78 | with a HOME a leading `${HOME}` segment becomes HOME and the rest is kept |
| DataDependenciesRev1.SubstituteLeading | shared/notebook_data_dependencies_rev1.py:73-77 | only the `${HOME}` segment is substituted |
| DataDependenciesRev1.OutcomeOf | shared/notebook_data_dependencies_rev1.py:57-114 | a package raises KeyError without a variable, and otherwise exactly when it is not installed and lacks an install path or data path; a set variable gives its value, pre-installed, and no work; an unset one gives the data path under the resolved install path, the directory and one download per URL, none when there are no URLs |
| DataDependenciesRev1.PlanOf | shared/notebook_data_dependencies_rev1.py:55-114 | the fold of the package outcomes with HOME defaulting to ""; `InstallFiles` returns it and `SecondInstallFindsEverything` states what a second run finds |
| DataDependenciesRev1.InstallFiles | shared/notebook_data_dependencies_rev1.py:44-116 | the package loop over the selected packages, with HOME defaulting to "" |
| DataDependenciesRev1.Installed | shared/notebook_data_dependencies_rev1.py:135 | the variables `setup_env` sets are exactly those whose entry is not pre-installed |
| DataDependenciesRev1.Exported | shared/notebook_data_dependencies_rev1.py:133-136 | installed paths are exported, every other variable keeps its value, and no other variable appears |
| DataDependenciesRev1.ProcessEnvironment.constructor | shared/notebook_data_dependencies_rev1.py:133-136 | the process environment `os.environ` starts as the given variables |
| DataDependenciesRev1.ProcessEnvironment.SetupEnv | shared/notebook_data_dependencies_rev1.py:119-139 | the process environment becomes the exported one |
| DataDependenciesRev1.SecondInstallFindsEverything | shared/notebook_data_dependencies_rev1.py:142-147 | installing again after `setup_env` finds every package in place: same variables, each pre-installed with the first run's path, nothing to download |
| TableOfContents.LastDot | toc.py:14 | the position of the last '.' of a name, absent exactly when there is none |
| TableOfContents.WithoutSuffix | toc.py:14 | `with_suffix("")`: a prefix of the name that, when shorter, stops at the last '.', which is neither first nor last |
| TableOfContents.NotebookStem | toc.py:14 | removing the suffix of "<stem>.ipynb" gives back the stem |
| TableOfContents.StemPath | toc.py:12-14 | `stem_path`: the components, the last without its suffix, joined by '/' with backslashes turned into '/'; `StemPathIsJoin` and `StemPathSplits` state it |
| TableOfContents.StemPathIsJoin | toc.py:12-14 | the stem path is the components, the last without its suffix, joined by '/' with backslashes then turned into '/' |
| TableOfContents.IndexIsNotebook | toc.py:38 | a folder's index.ipynb is a notebook the scan would find |
| TableOfContents.StemPathOfNotebook | toc.py:12-14 | the stem path of dirs/<stem>.ipynb is dirs and stem joined by '/' |
| TableOfContents.PlainJoin | toc.py:14 | components without backslashes are joined unchanged |
| TableOfContents.StemPathSplits | toc.py:12-14 | splitting the stem path of a plain notebook path on '/' gives back its directories and its stem |
| TableOfContents.RootIndexSkipped | toc.py:23-25 | the book-root skip: a notebook named index whose parent is the repository root (as written) or notebooks/ (intended); `AsWrittenGroupsEverything` and `IntendedSkipsBookRoot` state its effect |
| TableOfContents.GroupKey | toc.py:22-31 | a notebook is grouped exactly when the skip does not apply and it lies under notebooks/, and its group is the first component below notebooks/ |
| TableOfContents.InGroup | toc.py:31 | a group holds exactly the scanned notebooks with its key |
| TableOfContents.Grouped | toc.py:22-31 | `by_dir` after the grouping loop; `GroupedIsFilter` and `GroupedStep` state it |
| TableOfContents.GroupedIsFilter | toc.py:22-31 | the grouping loop's dictionary has exactly the non-empty groups, each holding that group's notebooks in scan order |
| TableOfContents.GroupedStep | toc.py:22-31 | one more notebook leaves the dictionary as it was when it has no key and appends it to its group otherwise |
| TableOfContents.GroupNotebooks | toc.py:20-31 | the loop builds exactly the grouping dictionary |
| TableOfContents.LeastExists | toc.py:33 | a non-empty set of names has a least one |
| TableOfContents.SortedNames | toc.py:33 | `sorted(by_dir)`: strictly increasing, with exactly the dictionary's keys |
| TableOfContents.SortedDistinct | toc.py:33 | a strictly increasing list has no repeats |
| TableOfContents.ChapterFile | toc.py:36-42 | the folder's index.ipynb when it exists, else its index.md when that exists, else the group's first notebook |
| TableOfContents.Others | toc.py:46-48 | the sections are exactly the group's notebooks other than the chapter file |
| TableOfContents.OthersLength | toc.py:46-48 | with no repeats, one fewer notebook when the chapter file is in the group, all of them otherwise |
| TableOfContents.StemPaths | toc.py:49 | one stem path per notebook, in order |
| TableOfContents.SectionsOf | toc.py:45-49 | the section loop gives the stem paths of the group's notebooks other than the chapter file |
| TableOfContents.ChapterOf | toc.py:34-54 | the chapter of one group: the chapter file's stem path, and a sections list of the other notebooks when there are any; `ChapterSections` states it |
| TableOfContents.ChapterSections | toc.py:44-54 | a chapter has a sections key exactly when its group holds a notebook other than the chapter file, and then one section per such notebook |
| TableOfContents.GroupedWellFormed | toc.py:31 | every group is a non-empty list of notebooks |
| TableOfContents.ChaptersOf | toc.py:33-54 | one chapter per group name |
| TableOfContents.ChaptersOfAt | toc.py:33-54 | chapter i is the chapter of the i-th group name |
| TableOfContents.BuildChapter | toc.py:34-54 | the loop body builds the chapter of a group |
| TableOfContents.BuildChapters | toc.py:33-54 | the chapter loop builds one chapter per group name, in order |
| TableOfContents.SortedScanDistinct | toc.py:17 | a sorted scan lists no notebook twice |
| TableOfContents.InGroupSorted | toc.py:17-34 | every group of a sorted scan is itself sorted, so `sorted(by_dir[dirname])` is the group in the order the loop collected it |
| TableOfContents.BuildToc | toc.py:17-60 | from a sorted scan: format jb-book, root index, and one chapter per non-empty group in sorted order, every group already sorted |
| TableOfContents.EntryCount | toc.py:65 | at least one entry per chapter |
| TableOfContents.OutsideChapters | toc.py:42-47 | at most one per group: the chapters whose file is not in their group |
| TableOfContents.InGroupDistinct | toc.py:31 | a scan without repeats gives groups without repeats |
| TableOfContents.EntryCountSplits | toc.py:65 | the printed count is the notebooks of the named groups plus one for each chapter whose file lies outside its group |
| TableOfContents.GroupSizesStep | toc.py:31 | one more notebook adds one to the group sizes exactly when its group is named |
| TableOfContents.GroupSizesCover | toc.py:31-33 | when every group is named, the group sizes add up to the grouped notebooks |
| TableOfContents.GroupSizesEmpty | toc.py:31 | no notebooks, no group sizes |
| TableOfContents.EntryCountOfToc | toc.py:65 | the count printed is the number of grouped notebooks plus the number of chapters whose file is an index page outside the group |
| TableOfContents.OutsideChapterIsIndexPage | toc.py:38-42 | when the scan is complete, a chapter file outside its group can only be the folder's index.md |
| TableOfContents.AsWrittenGroupsEverything | toc.py:23-31 | as written the skip never fires for notebooks under notebooks/: every scanned notebook is grouped |
| TableOfContents.NotebooksIndexBecomesChapter | toc.py:23-31 | as written notebooks/index.ipynb becomes a chapter of its own, in group "index.ipynb" |
| TableOfContents.IntendedSkipsBookRoot | toc.py:23-25 | with the intended skip no group holds notebooks/index.* |
| TableOfContents.IntendedKeepsChapters | toc.py:26-31 | with the intended skip every other notebook under notebooks/ is still grouped under its folder |

## Left out

- Plotting and UI: bokeh and matplotlib figures, glyph styling, layouts, label placement, CSV buttons and callback registration. Only the visibility flags, the legend items and the widget values are modelled.
- Re-entrant widget callbacks: assigning a widget value in the code fires its callback again. The model runs each handler once, and the sync guard is modelled as the state it sets.
- Floating-point numerics: spectra interpolation, NaN arithmetic on arrays, polyfit, the violin kernel density estimate and percentiles, the log-scale autoscale, and xarray `interp`. Interpolated values are inputs. Day numbers, angles and thresholds are exact reals.
- The bathtub's component curves are not modelled. The `modify_background` correction and the interpolation at the wavelength are inputs of `NewBackground` (`adjust`, `atWavelength`); the cache file's spectra, already on the thermal grid, are its other inputs, and it is not tied to the calendar those spectra were packed for.
- float32 rounding of recorded values (pointings rows, NumPy arrays) is not modelled.
- Astronomy libraries: healpy `ang2pix`, astropy `get_body`, `separation`, `Time` and coordinate frames, the arctan2/arccos roll geometry, gwcs frames and `world_to_pixel`, and pysiaf, hpgeom and healsparse. The HEALPix index, the Sun separations, the roll angle phi with the sign of the Sun's Z projection, and the WCS values astropy reads are inputs.
- Parsing and formatting: Python's `float()` and `int()` on text are inputs (None when they raise). `.3f` and `:5.4f` formatting of text boxes and output files is not modelled. Upper and lower case mapping is ASCII only.
- Strings.IsSpace: only the six ASCII whitespace characters are whitespace; Python's `split()` and `strip()` also treat \x1c-\x1f, \x85 and the Unicode space characters as whitespace.
- I/O and networking: URL fetches and `frombuffer` decoding (the file size is an input), S3 and parquet reads, catalog merges, FITS and ASDF reading and writing, HTTP downloads, tar extraction and file removal, YAML load and dump, GITHUB_ENV writing, warnings and prints. Their results are given sequences and maps. Downloads are recorded as plan steps.
- NumPy's error messages are replaced by tags naming what NumPy finds wrong.
- pandas DataFrame plumbing: rows are sequences or maps, and `.loc` assignment is insert-or-overwrite. `reset_index` and duplicate index labels are not modelled.
- Dictionary key order of the installer result: the result is a Dafny map.
- The table-of-contents builder works on POSIX paths as component sequences. The `rglob` scan is an input, required to be sorted (`SortedScan`, Python's component-by-component path order) and so without repeats. `resolve()` is path equality, so symlinks are not modelled.
- The catalog queries in `fetch_catalogs` are inputs: the point sources, galaxies and transients already cut to the detector. The detector-corner box and `world_to_pixel` are not modelled.
- Rist.RistTool.constructor: the initial lookup and interpolation of the default grid are an input (`initialSnr`). The count 5 is stored as the text "5", which `str()` gives in the grid name.
- OpenUniverseConverter.FitsToAsdf.FetchCatalogs: the transient entry is stated by its base table only. The unpacked columns are stated by `UnpackTransients`, which it calls.
- OpenUniverseConverter.Get: commentary cards (COMMENT, HISTORY), for which astropy returns every value, are not modelled; a lookup gives the first card with the keyword.
- OpenUniverseConverter.WcsFromFitsHeader: the SIP matrices are required to be square, as astropy builds them.
- OpenUniverseConverter.MetaOf: the observation date and MJD are kept as header values; astropy `Time` parsing is left out.
- DataDependencies.InstallFiles and DataDependenciesRev1.InstallFiles: a download or extraction failure is not modelled. The plan records the steps, and an exception raised after some steps discards the plan.
- TargetVisibility.SampledTimes: a zero step is modelled as the ZeroDivisionError NumPy's `arange` raises for it.

## Findings

| source | as written | input that shows it | evidently intended | confidence | as-written member | corrected member |
|---|---|---|---|---|---|---|
| content/notebooks/background_visualization_tool/rbvt.py:415-431 | the RA, Dec and threshold parsers reject a value only when it is below the minimum or above the maximum | the text "nan": both comparisons with NaN are false, so NaN is accepted and drives the slider | only finite values inside the range are accepted | high (not executed) | DashboardInputs.NaNCommitRepeats | DashboardInputs.IntendedCommitValue |
| content/notebooks/pandeia/rbt.py:155-163 | the packed indices drop days whose date-map entry is not below the record count, but the calendar keeps them | a visible day whose date-map entry is 5 in a file holding one day record: the calendar is one longer than the packed indices, and later calendar positions no longer line up with their records; `write_background` then writes a later day's spectrum for the dropped day and the days after it, and for the last calendar day indexes `total_bg` and `zodi_bg` one row past their end and raises IndexError (rbt.py:337-338) | the calendar is trimmed together with the packed indices | low (not executed) | BackgroundCache.CalendarOutrunsRecords | BackgroundCache.RecordedCalendarAligned |
| notebooks/footprint_visualization/footprint_utils.py:228-232 | HLWAS without a tier sets tier "ALL", but the tier dispatch is in the else branch, so the function returns None | `get_survey_maps_uri("HLWAS", "F158")` returns None | the sum-of-all-tiers map the warning announces, ./aux_data/map_HLWAS-all_F158.hsp | high (not executed) | SurveyMaps.HlwasWithoutTierReturnsNothing | SurveyMaps.IntendedDefaultTier |
| notebooks/footprint_visualization/footprint_utils.py:212-222 | the GBTDS "PRISM" and GPS "F146" exclusions compare the element without `upper()` | `get_survey_maps_uri("GBTDS", "prism")` returns a PRISM map path | the exclusions apply however the element is spelled, as the survey and element checks do | medium (not executed) | SurveyMaps.LowerCasePrismGetsMap | SurveyMaps.IntendedAlwaysAnswers |
| notebooks/footprint_visualization/footprint_utils.py:260-264 | only the exact spelling "ULTRA-DEEP" is rewritten to "ULTRADEEP" before it goes into the path | tier "ultra-deep" passes the upper-cased check and gives ./aux_data/map_HLWAS-ultra-deep_F158.hsp | every spelling of ultra-deep gives the ultradeep map | medium (not executed) | SurveyMaps.UltraDeepSpelling | SurveyMaps.IntendedUltraDeep |
| toc.py:23-25 | the book-root skip tests `nb.parent == ROOT`, which no notebook found under notebooks/ satisfies | notebooks/index.ipynb becomes a chapter of its own, in group "index.ipynb" | skip a notebook named index directly under notebooks/, as the comment beside it says | medium (not executed) | TableOfContents.NotebooksIndexBecomesChapter | TableOfContents.IntendedSkipsBookRoot |
| shared/notebook_data_dependencies.py:66-73 | a packages string is split on ',' without trimming | packages "a, b" names " b", so package b is never installed | names are trimmed, as the later revision does | medium (not executed) | DataDependencies.SpacedListDropsPackage | DataDependenciesRev1.SpacedListKeepsPackage |
