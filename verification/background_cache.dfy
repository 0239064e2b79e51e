/** The background model's access to the straylight cache: which file holds a sky
    position, how a cache file is laid out, which calendar days survive the
    file's date map and the Sun-angle visibility mask, the "good days" count of
    the bathtub, and the calendar lookup of the spectrum writer. The HEALPix
    index, the visibility mask, the file size and the per-day totals interpolated
    at a wavelength are inputs. */
module BackgroundCache {
  import opened Wrappers
  import opened Strings
  import opened Sequences

  // ---------------------------------------------------------------- cache file name

  /** The HEALPix resolution of the cache partitioning. */
  const Nside: nat := 128

  /** The number of HEALPix pixels at `Nside`, 12 * Nside^2. */
  const PixelCount: nat := 12 * Nside * Nside

  /** `str(idx).zfill(6)` */
  function PaddedIndex(healpix: nat): (pad: string)
    ensures |pad| >= 6 && AllDigits(pad)
  {
    var s := NatToString(healpix);
    LeadingZeros(if |s| < 6 then 6 - |s| else 0, s);
    ZeroPad(s, 6)
  }

  /** `myfile_from_healpix`: the first four padded digits name the directory. */
  function CachePath(healpix: nat): string {
    var pad := PaddedIndex(healpix);
    pad[..4] + "/sl_pix_" + pad + ".bin"
  }

  /** Reads the HEALPix index back out of a cache path: a directory, then
      `sl_pix_<digits>.bin`, where the directory is the first four digits. */
  function PixelOfPath(path: string): Option<nat> {
    var parts := Split(path, '/');
    if |parts| != 2 then None
    else
      var name := parts[1];
      if |name| < 11 || name[..7] != "sl_pix_" || name[|name| - 4..] != ".bin" then None
      else
        var digits := name[7..|name| - 4];
        if |digits| < 4 || parts[0] != digits[..4] then None else ParseNat(digits)
  }

  /** The padded digits stand for the index. */
  lemma PaddedIndexValue(healpix: nat)
    ensures DigitsValue(PaddedIndex(healpix)) == healpix
  {
    var s := NatToString(healpix);
    DigitsOfNat(healpix);
    if |s| < 6 {
      LeadingZeros(6 - |s|, s);
    }
  }

  /** The path names its pixel: reading it back gives the index, so distinct
      pixels never share a cache file. */
  lemma CachePathRoundTrip(healpix: nat)
    ensures PixelOfPath(CachePath(healpix)) == Some(healpix)
  {
    var pad := PaddedIndex(healpix);
    var dir := pad[..4];
    var name := "sl_pix_" + pad + ".bin";
    assert CachePath(healpix) == dir + ['/'] + name;
    assert '/' !in dir by {
      assert forall i :: 0 <= i < |dir| ==> IsDigit(dir[i]);
    }
    assert '/' !in name by {
      assert forall i :: 7 <= i < 7 + |pad| ==> name[i] == pad[i - 7];
    }
    SplitTwo(dir, name, '/');
    assert name[..7] == "sl_pix_";
    assert name[|name| - 4..] == ".bin";
    assert name[7..|name| - 4] == pad;
    assert Split(CachePath(healpix), '/')[0] == pad[..4];
    PaddedIndexValue(healpix);
  }

  lemma CachePathInjective(i: nat, j: nat)
    requires CachePath(i) == CachePath(j)
    ensures i == j
  {
    CachePathRoundTrip(i);
    CachePathRoundTrip(j);
  }

  /** Every pixel of the Nside = 128 sphere has a six-digit name, so every cache
      path is 22 characters long. */
  lemma CachePathLength(healpix: nat)
    requires healpix < PixelCount
    ensures |PaddedIndex(healpix)| == 6
    ensures |CachePath(healpix)| == 22
  {
    assert Pow10(6) == 1000000;
    NatToStringLength(healpix, 6);
  }

  // ---------------------------------------------------------------- record layout

  /** The number of day-of-year slots in a file's date map. */
  const DateMapLength: nat := 366

  /** The fields of the header record, in file order. */
  datatype HeaderField = PixRa | PixDec | Upos | NonzodiBg | IdayIndex

  const HeaderFields: seq<HeaderField> := [PixRa, PixDec, Upos, NonzodiBg, IdayIndex]

  /** Field sizes in bytes: f8 scalars, a three-f8 unit vector, `nwave` f8 values
      and the date map of 366 i4 values. */
  function FieldSize(f: HeaderField, nwave: nat): nat {
    match f
    case PixRa => 8
    case PixDec => 8
    case Upos => 3 * 8
    case NonzodiBg => 8 * nwave
    case IdayIndex => 4 * DateMapLength
  }

  /** The total size of a run of fields. */
  function FieldsSize(fs: seq<HeaderField>, nwave: nat): nat {
    if fs == [] then 0 else FieldsSize(fs[..|fs| - 1], nwave) + FieldSize(fs[|fs| - 1], nwave)
  }

  /** The byte offset of the `k`-th header field: the fields are packed. */
  function FieldOffset(k: nat, nwave: nat): nat
    requires k < |HeaderFields|
  {
    FieldsSize(HeaderFields[..k], nwave)
  }

  /** The size of the header record, `nonzodi_pix_dtype.itemsize`. */
  function HeaderSize(nwave: nat): nat {
    FieldsSize(HeaderFields, nwave)
  }

  /** The size of one day record: the zodiacal and the stray-light spectra. */
  function DayRecordSize(nwave: nat): nat {
    8 * nwave + 8 * nwave
  }

  /** Where day record `k` starts. */
  function DayOffset(k: nat, nwave: nat): nat {
    HeaderSize(nwave) + k * DayRecordSize(nwave)
  }

  /** Each header field starts where the previous one ends. */
  lemma FieldOffsetStep(k: nat, nwave: nat)
    requires k + 1 < |HeaderFields|
    ensures FieldOffset(k + 1, nwave) == FieldOffset(k, nwave) + FieldSize(HeaderFields[k], nwave)
  {
    assert HeaderFields[..k + 1][..k] == HeaderFields[..k];
  }

  /** The header is 8 + 8 + 24 + 8 nwave + 4 * 366 bytes, with the date map as its
      last field. */
  lemma HeaderLayout(nwave: nat)
    ensures FieldOffset(0, nwave) == 0 && FieldOffset(1, nwave) == 8 && FieldOffset(2, nwave) == 16
    ensures FieldOffset(3, nwave) == 40 && FieldOffset(4, nwave) == 40 + 8 * nwave
    ensures FieldOffset(4, nwave) + FieldSize(IdayIndex, nwave) == HeaderSize(nwave)
    ensures HeaderSize(nwave) == 8 + 8 + 24 + 8 * nwave + 4 * 366
  {
    assert HeaderFields[..0] == [];
    FieldOffsetStep(0, nwave);
    FieldOffsetStep(1, nwave);
    FieldOffsetStep(2, nwave);
    FieldOffsetStep(3, nwave);
    assert HeaderFields[..5] == HeaderFields;
    assert HeaderFields[..5][..4] == HeaderFields[..4];
  }

  /** How many day records `np.frombuffer` finds after the header: it raises when
      the file is shorter than the header, when the record size is zero, and when
      the rest is not a whole number of records (each error is tagged with what
      NumPy finds wrong, not with NumPy's message). */
  function DayRecordCount(fileSize: nat, nwave: nat): (r: Result<nat>)
    ensures r.Ok? <==>
      nwave > 0 && HeaderSize(nwave) <= fileSize && (fileSize - HeaderSize(nwave)) % DayRecordSize(nwave) == 0
    ensures r.Ok? ==> DayOffset(r.value, nwave) == fileSize
  {
    var header := HeaderSize(nwave);
    if fileSize < header then Raise(ValueError("header"))
    else if nwave == 0 then Raise(ValueError("itemsize"))
    else
      var rest: nat := fileSize - header;
      var size: nat := DayRecordSize(nwave);
      if rest % size == 0 then
        ExactDivision(rest, size);
        Ok(rest / size)
      else Raise(ValueError("multiple"))
  }

  lemma ExactDivision(a: nat, d: nat)
    requires d > 0 && a % d == 0
    ensures (a / d) * d == a
  {
  }

  /** Consecutive day records are adjacent, and each record of a well-formed file
      lies inside it. */
  lemma DayRecordsInsideFile(fileSize: nat, nwave: nat, k: nat)
    requires DayRecordCount(fileSize, nwave).Ok?
    requires k < DayRecordCount(fileSize, nwave).value
    ensures DayOffset(k + 1, nwave) == DayOffset(k, nwave) + DayRecordSize(nwave)
    ensures DayOffset(k, nwave) + DayRecordSize(nwave) <= fileSize
  {
    var n := DayRecordCount(fileSize, nwave).value;
    assert (k + 1) * DayRecordSize(nwave) <= n * DayRecordSize(nwave) by {
      MulMonotone(k + 1, n, DayRecordSize(nwave));
    }
  }

  lemma MulMonotone(a: nat, b: nat, c: nat)
    requires a <= b
    ensures a * c <= b * c
  {
  }

  // ---------------------------------------------------------------- calendar

  predicate StrictlyIncreasing(d: seq<int>) {
    forall i, j :: 0 <= i < j < |d| ==> d[i] < d[j]
  }

  /** `np.where(date_map >= 0)[0]`: the days the file has data for. */
  function DaysWithData(dateMap: seq<int>): (days: seq<int>)
    ensures StrictlyIncreasing(days)
    ensures forall k :: k in days <==> 0 <= k < |dateMap| && dateMap[k] >= 0
    ensures forall i :: 0 <= i < |days| ==> 0 <= days[i] < |dateMap|
  {
    if dateMap == [] then []
    else
      var n := |dateMap|;
      var prev := DaysWithData(dateMap[..n - 1]);
      assert forall k :: 0 <= k < n - 1 ==> dateMap[..n - 1][k] == dateMap[k];
      prev + (if dateMap[n - 1] >= 0 then [n - 1] else [])
  }

  /** `np.where(good_angles)[0]`: the sampled days at which the Sun angle allows
      observing. */
  predicate IsGood(visible: seq<bool>, k: int) {
    0 <= k < |visible| && visible[k]
  }

  /** `calendar[np.isin(calendar, good_indices)]`: keeps the visible days, in order. */
  function KeepVisible(days: seq<int>, visible: seq<bool>): (r: seq<int>)
    ensures |r| <= |days|
    ensures forall k :: k in r <==> k in days && IsGood(visible, k)
    ensures StrictlyIncreasing(days) ==> StrictlyIncreasing(r)
    ensures forall i :: 0 <= i < |r| ==> exists j :: 0 <= j < |days| && r[i] == days[j]
  {
    if days == [] then []
    else
      var n := |days|;
      var prev := KeepVisible(days[..n - 1], visible);
      assert forall k :: k in days <==> k in days[..n - 1] || k == days[n - 1];
      assert StrictlyIncreasing(days) ==> StrictlyIncreasing(days[..n - 1]);
      prev + (if IsGood(visible, days[n - 1]) then [days[n - 1]] else [])
  }

  /** The calendar of `read_bkg_data_from_url`. */
  function Calendar(dateMap: seq<int>, visible: seq<bool>): seq<int> {
    KeepVisible(DaysWithData(dateMap), visible)
  }

  /** A day is in the calendar exactly when the file has data for it and the
      position is visible that day; the calendar is ascending. */
  lemma CalendarMeans(dateMap: seq<int>, visible: seq<bool>)
    ensures StrictlyIncreasing(Calendar(dateMap, visible))
    ensures forall k :: k in Calendar(dateMap, visible) <==>
      0 <= k < |dateMap| && dateMap[k] >= 0 && IsGood(visible, k)
  {
  }

  // ---------------------------------------------------------------- packed indices

  /** `date_map[calendar]` with the entries at or past the record count dropped. */
  function PackedIndex(dateMap: seq<int>, calendar: seq<int>, records: nat): (packed: seq<int>)
    requires forall i :: 0 <= i < |calendar| ==> 0 <= calendar[i] < |dateMap|
    ensures |packed| <= |calendar|
    ensures forall i :: 0 <= i < |packed| ==> packed[i] < records
  {
    if calendar == [] then []
    else
      var n := |calendar|;
      var p := dateMap[calendar[n - 1]];
      PackedIndex(dateMap, calendar[..n - 1], records) + (if p < records then [p] else [])
  }

  /** Days of the calendar whose packed index is a record of the file. */
  predicate AllRecorded(dateMap: seq<int>, calendar: seq<int>, records: nat)
    requires forall i :: 0 <= i < |calendar| ==> 0 <= calendar[i] < |dateMap|
  {
    forall i :: 0 <= i < |calendar| ==> dateMap[calendar[i]] < records
  }

  /** Packed indices point at records: never negative for calendar days, and one
      per calendar day, in calendar order, when every day's record exists. */
  lemma {:induction false} PackedIndexAligned(dateMap: seq<int>, visible: seq<bool>, records: nat)
    ensures var cal := Calendar(dateMap, visible);
      var packed := PackedIndex(dateMap, cal, records);
      (forall i :: 0 <= i < |packed| ==> 0 <= packed[i]) &&
      (AllRecorded(dateMap, cal, records) ==>
        |packed| == |cal| && forall i :: 0 <= i < |cal| ==> packed[i] == dateMap[cal[i]])
  {
    var cal := Calendar(dateMap, visible);
    CalendarMeans(dateMap, visible);
    PackedPrefix(dateMap, cal, records);
  }

  lemma PackedPrefix(dateMap: seq<int>, cal: seq<int>, records: nat)
    requires forall i :: 0 <= i < |cal| ==> 0 <= cal[i] < |dateMap| && dateMap[cal[i]] >= 0
    ensures var packed := PackedIndex(dateMap, cal, records);
      (forall i :: 0 <= i < |packed| ==> 0 <= packed[i]) &&
      (AllRecorded(dateMap, cal, records) ==>
        |packed| == |cal| && forall i :: 0 <= i < |cal| ==> packed[i] == dateMap[cal[i]])
  {
    PackedNonNegative(dateMap, cal, records);
    if AllRecorded(dateMap, cal, records) {
      PackedRecorded(dateMap, cal, records);
    }
  }

  lemma {:induction false} PackedNonNegative(dateMap: seq<int>, cal: seq<int>, records: nat)
    requires forall i :: 0 <= i < |cal| ==> 0 <= cal[i] < |dateMap| && dateMap[cal[i]] >= 0
    ensures forall i :: 0 <= i < |PackedIndex(dateMap, cal, records)| ==> 0 <= PackedIndex(dateMap, cal, records)[i]
  {
    if cal != [] {
      var n := |cal|;
      var init := cal[..n - 1];
      assert forall i :: 0 <= i < |init| ==> init[i] == cal[i];
      PackedNonNegative(dateMap, init, records);
      var p := dateMap[cal[n - 1]];
      var tail: seq<int> := if p < records then [p] else [];
      assert PackedIndex(dateMap, cal, records) == PackedIndex(dateMap, init, records) + tail;
      assert forall i :: 0 <= i < |tail| ==> 0 <= tail[i];
    }
  }

  lemma {:induction false} PackedRecorded(dateMap: seq<int>, cal: seq<int>, records: nat)
    requires forall i :: 0 <= i < |cal| ==> 0 <= cal[i] < |dateMap|
    requires AllRecorded(dateMap, cal, records)
    ensures |PackedIndex(dateMap, cal, records)| == |cal|
    ensures forall i :: 0 <= i < |cal| ==> PackedIndex(dateMap, cal, records)[i] == dateMap[cal[i]]
  {
    if cal != [] {
      var n := |cal|;
      var init := cal[..n - 1];
      assert forall i :: 0 <= i < |init| ==> init[i] == cal[i];
      PackedRecorded(dateMap, init, records);
      var p := dateMap[cal[n - 1]];
      assert p < records;
      assert PackedIndex(dateMap, cal, records) == PackedIndex(dateMap, init, records) + [p];
    }
  }

  /** A calendar day whose date-map entry points past the last record is dropped
      from the packed indices but not from the calendar, so the calendar outruns
      the per-day data. */
  lemma {:induction false} PackedDropsUnrecorded(dateMap: seq<int>, calendar: seq<int>, records: nat, k: nat)
    requires forall i :: 0 <= i < |calendar| ==> 0 <= calendar[i] < |dateMap|
    requires k < |calendar| && dateMap[calendar[k]] >= records
    ensures |PackedIndex(dateMap, calendar, records)| < |calendar|
  {
    var n := |calendar|;
    if k < n - 1 {
      PackedDropsUnrecorded(dateMap, calendar[..n - 1], records, k);
    }
  }

  /** A visible day with data whose date-map entry is at least the record count
      (a date map pointing at record 5 of a file holding one record, say) stays in
      the calendar while the packed indices lose it. */
  lemma CalendarOutrunsRecords(dateMap: seq<int>, visible: seq<bool>, records: nat, d: nat)
    requires d < |dateMap| && 0 <= dateMap[d] && records <= dateMap[d] && IsGood(visible, d)
    ensures d in Calendar(dateMap, visible)
    ensures |PackedIndex(dateMap, Calendar(dateMap, visible), records)| < |Calendar(dateMap, visible)|
  {
    var cal := Calendar(dateMap, visible);
    CalendarMeans(dateMap, visible);
    var k :| 0 <= k < |cal| && cal[k] == d;
    PackedDropsUnrecorded(dateMap, cal, records, k);
  }

  /** The calendar trimmed together with the packed indices. */
  function RecordedCalendar(dateMap: seq<int>, calendar: seq<int>, records: nat): (r: seq<int>)
    requires forall i :: 0 <= i < |calendar| ==> 0 <= calendar[i] < |dateMap|
    ensures forall i :: 0 <= i < |r| ==> 0 <= r[i] < |dateMap| && r[i] in calendar
  {
    if calendar == [] then []
    else
      var n := |calendar|;
      var c := calendar[n - 1];
      RecordedCalendar(dateMap, calendar[..n - 1], records) + (if dateMap[c] < records then [c] else [])
  }

  /** The trimmed calendar has one day per packed index, and day `i` is stored at
      record `packed[i]`. */
  lemma {:induction false} RecordedCalendarAligned(dateMap: seq<int>, calendar: seq<int>, records: nat)
    requires forall i :: 0 <= i < |calendar| ==> 0 <= calendar[i] < |dateMap|
    ensures var r := RecordedCalendar(dateMap, calendar, records);
      var packed := PackedIndex(dateMap, calendar, records);
      |r| == |packed| && forall i :: 0 <= i < |r| ==> packed[i] == dateMap[r[i]]
  {
    if calendar != [] {
      RecordedCalendarAligned(dateMap, calendar[..|calendar| - 1], records);
    }
  }

  // ---------------------------------------------------------------- spectra

  /** `np.tile(nonzodi + thermal, (Ndays, 1)) + zodi`, with every spectrum already
      interpolated to the thermal wavelength grid. */
  function TotalBackground(nonzodi: seq<real>, thermal: seq<real>, zodi: seq<seq<real>>): (total: seq<seq<real>>)
    requires |nonzodi| == |thermal|
    requires forall d :: 0 <= d < |zodi| ==> |zodi[d]| == |thermal|
    ensures |total| == |zodi|
    ensures forall d :: 0 <= d < |total| ==> |total[d]| == |thermal|
  {
    seq(|zodi|, d requires 0 <= d < |zodi| =>
      seq(|thermal|, w requires 0 <= w < |thermal| => nonzodi[w] + thermal[w] + zodi[d][w]))
  }

  /** The loop that applies the spectral modification to each day's total. The
      result array is created on the first day only, so a calendar with no days
      leaves it unbound. The modification itself is an input. */
  method ModifyTotals(total: seq<seq<real>>, adjust: seq<real> -> seq<real>) returns (r: Result<seq<seq<real>>>)
    ensures |total| == 0 ==> r == Raise(UnboundLocalError("mod_total_bg"))
    ensures |total| > 0 ==> r.Ok? && |r.value| == |total|
    ensures r.Ok? ==> forall d :: 0 <= d < |total| ==> r.value[d] == adjust(total[d])
  {
    if |total| == 0 {
      return Raise(UnboundLocalError("mod_total_bg"));
    }
    var rows: seq<seq<real>> := [];
    var dd := 0;
    while dd < |total|
      invariant 0 <= dd <= |total| && |rows| == dd
      invariant forall d :: 0 <= d < dd ==> rows[d] == adjust(total[d])
    {
      rows := rows + [adjust(total[dd])];
      dd := dd + 1;
    }
    return Ok(rows);
  }

  // ---------------------------------------------------------------- bathtub

  function RealMin(s: seq<real>): (m: real)
    requires |s| > 0
    ensures m in s && forall i :: 0 <= i < |s| ==> m <= s[i]
  {
    if |s| == 1 then s[0]
    else
      var m := RealMin(s[..|s| - 1]);
      assert m in s;
      if s[|s| - 1] < m then s[|s| - 1] else m
  }

  function RealMax(s: seq<real>): (m: real)
    requires |s| > 0
    ensures m in s && forall i :: 0 <= i < |s| ==> s[i] <= m
  {
    if |s| == 1 then s[0]
    else
      var m := RealMax(s[..|s| - 1]);
      assert m in s;
      if s[|s| - 1] > m then s[|s| - 1] else m
  }

  /** `np.sum(total < limit)`: the days whose total is strictly below `limit`. */
  function CountBelow(s: seq<real>, limit: real): (n: nat)
    ensures n <= |s|
  {
    if s == [] then 0 else CountBelow(s[..|s| - 1], limit) + (if s[|s| - 1] < limit then 1 else 0)
  }

  /** Nothing is counted when no day is below the limit, and a day below the
      limit is counted. */
  lemma {:induction false} CountBelowMeans(s: seq<real>, limit: real)
    ensures CountBelow(s, limit) == 0 <==> forall i :: 0 <= i < |s| ==> s[i] >= limit
  {
    if s != [] {
      CountBelowMeans(s[..|s| - 1], limit);
      assert forall i :: 0 <= i < |s| - 1 ==> s[..|s| - 1][i] == s[i];
    }
  }

  /** A higher limit never counts fewer days. */
  lemma {:induction false} CountBelowMonotone(s: seq<real>, lo: real, hi: real)
    requires lo <= hi
    ensures CountBelow(s, lo) <= CountBelow(s, hi)
  {
    if s != [] {
      CountBelowMonotone(s[..|s| - 1], lo, hi);
    }
  }

  /** The good-day count for a limit lies in 0..Ndays and is positive exactly
      when the minimum lies below the limit; in particular a limit at or below
      the minimum (threshold 1) gives no good day. */
  lemma GoodDays(s: seq<real>, limit: real)
    requires |s| > 0
    ensures CountBelow(s, limit) <= |s|
    ensures CountBelow(s, limit) >= 1 <==> RealMin(s) < limit
    ensures limit <= RealMin(s) ==> CountBelow(s, limit) == 0
  {
    var m := RealMin(s);
    CountBelowMeans(s, limit);
    if m < limit {
      var i :| 0 <= i < |s| && s[i] == m;
      assert s[i] < limit;
    }
  }

  /** The good-day limit of `make_bathtub`: `themin * self.thresh`. */
  function GoodDayLimit(totals: seq<real>, thresh: real): real
    requires |totals| > 0
  {
    RealMin(totals) * thresh
  }

  /** With positive totals, `make_bathtub` finds a good day exactly when the
      threshold exceeds 1: the limit then lies above the minimum day, and
      otherwise at or below every day. */
  lemma BathtubHasGoodDay(totals: seq<real>, thresh: real)
    requires |totals| > 0 && RealMin(totals) > 0.0
    ensures CountBelow(totals, GoodDayLimit(totals, thresh)) >= 1 <==> thresh > 1.0
  {
    LimitAboveMin(totals, thresh);
    GoodDays(totals, GoodDayLimit(totals, thresh));
  }

  /** For positive totals, the limit lies above the minimum exactly when the
      threshold exceeds 1. */
  lemma LimitAboveMin(totals: seq<real>, thresh: real)
    requires |totals| > 0 && RealMin(totals) > 0.0
    ensures RealMin(totals) < GoodDayLimit(totals, thresh) <==> thresh > 1.0
  {
    ScaledAbove(RealMin(totals), thresh, GoodDayLimit(totals, thresh));
  }

  /** Scaling a positive value by a factor above 1 raises it, and by a factor
      at most 1 does not. */
  lemma ScaledAbove(m: real, t: real, scaled: real)
    requires m > 0.0 && scaled == m * t
    ensures m < scaled <==> t > 1.0
  {
    if t > 1.0 {
      assert scaled - m == m * (t - 1.0);
      assert m * (t - 1.0) > 0.0;
    } else {
      assert m - scaled == m * (1.0 - t);
      assert m * (1.0 - t) >= 0.0;
    }
  }

  /** For non-negative totals, the limit is monotone in the threshold. */
  lemma LimitMonotone(totals: seq<real>, lo: real, hi: real)
    requires |totals| > 0 && RealMin(totals) >= 0.0 && lo <= hi
    ensures GoodDayLimit(totals, lo) <= GoodDayLimit(totals, hi)
  {
    ScaledMonotone(RealMin(totals), lo, hi, GoodDayLimit(totals, lo), GoodDayLimit(totals, hi));
  }

  /** Scaling a non-negative value is monotone in the factor. */
  lemma ScaledMonotone(m: real, lo: real, hi: real, atLo: real, atHi: real)
    requires m >= 0.0 && lo <= hi && atLo == m * lo && atHi == m * hi
    ensures atLo <= atHi
  {
    assert atHi - atLo == m * (hi - lo);
    assert m * (hi - lo) >= 0.0;
  }

  /** With non-negative totals, a higher threshold never gives fewer good days. */
  lemma BathtubThresholdMonotone(totals: seq<real>, lo: real, hi: real)
    requires |totals| > 0 && RealMin(totals) >= 0.0 && lo <= hi
    ensures CountBelow(totals, GoodDayLimit(totals, lo)) <= CountBelow(totals, GoodDayLimit(totals, hi))
  {
    LimitMonotone(totals, lo, hi);
    CountBelowMonotone(totals, GoodDayLimit(totals, lo), GoodDayLimit(totals, hi));
  }

  /** The bathtub record `make_bathtub` stores (the component curves, plain
      interpolations, are not modelled). */
  datatype Bathtub = Bathtub(wavelength: real, themin: real, goodDays: nat, total: seq<real>)

  /** The wavelength lies in the interpolation range of the grid. */
  predicate InGrid(waveGrid: seq<real>, wavelength: real) {
    |waveGrid| > 0 && RealMin(waveGrid) <= wavelength <= RealMax(waveGrid)
  }

  /** A background model for one sky position. */
  class Background {
    var wavelength: real
    const thresh: real
    /** The calendar days the per-day spectra belong to. */
    const calendar: seq<int>
    var bathtub: Option<Bathtub>

    /** The fields `__init__` sets before it computes the first bathtub;
        `NewBackground` is the whole of `__init__`. */
    constructor(wavelength: real, thresh: real, calendar: seq<int>)
      ensures this.wavelength == wavelength && this.thresh == thresh && this.calendar == calendar
      ensures bathtub.None?
    {
      this.wavelength := wavelength;
      this.thresh := thresh;
      this.calendar := calendar;
      bathtub := None;
    }

    /** `make_bathtub`: `totals` are the per-day totals interpolated at the
        wavelength. The wavelength is recorded first; interpolating outside the
        grid raises, and so does the minimum of zero days. */
    method MakeBathtub(wavelength: real, waveGrid: seq<real>, totals: seq<real>) returns (err: Option<PyError>)
      modifies this
      ensures this.wavelength == wavelength
      ensures !InGrid(waveGrid, wavelength) ==> err.Some? && err.value.ValueError? && bathtub == old(bathtub)
      ensures InGrid(waveGrid, wavelength) && |totals| == 0 ==>
        err.Some? && err.value.ValueError? && bathtub == old(bathtub)
      ensures InGrid(waveGrid, wavelength) && |totals| > 0 ==> err.None?
      ensures InGrid(waveGrid, wavelength) && |totals| > 0 ==>
        bathtub == Some(Bathtub(wavelength, RealMin(totals), CountBelow(totals, GoodDayLimit(totals, thresh)), totals))
    {
      this.wavelength := wavelength;
      if !InGrid(waveGrid, wavelength) {
        return Some(ValueError("wavelength outside the interpolation range"));
      }
      if |totals| == 0 {
        return Some(ValueError("minimum of an empty array"));
      }
      var themin := RealMin(totals);
      var limit := GoodDayLimit(totals, thresh);
      bathtub := Some(Bathtub(wavelength, themin, CountBelow(totals, limit), totals));
      return None;
    }

    /** The calendar position `write_background` reads the spectrum from; None when
        no day is given or the day is not in the calendar, in which case nothing is
        written. */
    function WriteBackgroundRow(thisday: Option<int>): (r: Option<nat>)
      ensures r.None? <==> thisday.None? || thisday.value !in calendar
      ensures r.Some? ==>
        r.value < |calendar| && calendar[r.value] == thisday.value && thisday.value !in calendar[..r.value]
    {
      if thisday.None? then None else Find(calendar, thisday.value)
    }
  }

  /** The per-day totals `make_bathtub` interpolates: the modified totals of
      `read_bkg_data_from_url`, each read off at the wavelength. The spectral
      modification and the interpolation are inputs. */
  function BathtubTotals(nonzodi: seq<real>, thermal: seq<real>, zodi: seq<seq<real>>,
                         adjust: seq<real> -> seq<real>, atWavelength: seq<real> -> real): (t: seq<real>)
    requires |nonzodi| == |thermal|
    requires forall d :: 0 <= d < |zodi| ==> |zodi[d]| == |thermal|
    ensures |t| == |zodi|
  {
    var total := TotalBackground(nonzodi, thermal, zodi);
    seq(|total|, d requires 0 <= d < |total| => atWavelength(adjust(total[d])))
  }

  /** `__init__`: the inputs are recorded, the per-day totals are built and
      modified, and the first bathtub is made at the input wavelength. No
      recorded day leaves `mod_total_bg` unbound before any bathtub is made; a
      wavelength outside the grid raises in `make_bathtub`. The spectra are
      the interpolated ones `read_bkg_data_from_url` reads from the cache file. */
  method NewBackground(wavelength: real, thresh: real, calendar: seq<int>, waveGrid: seq<real>,
                       nonzodi: seq<real>, thermal: seq<real>, zodi: seq<seq<real>>,
                       adjust: seq<real> -> seq<real>, atWavelength: seq<real> -> real)
    returns (r: Result<Background>)
    requires |nonzodi| == |thermal|
    requires forall d :: 0 <= d < |zodi| ==> |zodi[d]| == |thermal|
    ensures |zodi| == 0 ==> r == Raise(UnboundLocalError("mod_total_bg"))
    ensures |zodi| > 0 ==> (r.Ok? <==> InGrid(waveGrid, wavelength))
    ensures |zodi| > 0 && r.Raise? ==> r.error.ValueError?
    ensures r.Ok? ==> fresh(r.value)
    ensures r.Ok? ==> r.value.wavelength == wavelength && r.value.thresh == thresh && r.value.calendar == calendar
    ensures r.Ok? ==> var t := BathtubTotals(nonzodi, thermal, zodi, adjust, atWavelength);
      r.value.bathtub == Some(Bathtub(wavelength, RealMin(t), CountBelow(t, GoodDayLimit(t, thresh)), t))
  {
    var total := TotalBackground(nonzodi, thermal, zodi);
    var modified := ModifyTotals(total, adjust);
    if modified.Raise? {
      return Raise(modified.error);
    }
    var totals := seq(|modified.value|, d requires 0 <= d < |modified.value| => atWavelength(modified.value[d]));
    assert totals == BathtubTotals(nonzodi, thermal, zodi, adjust, atWavelength);
    var b := new Background(wavelength, thresh, calendar);
    var err := b.MakeBathtub(wavelength, waveGrid, totals);
    if err.Some? {
      return Raise(err.value);
    }
    return Ok(b);
  }
}
