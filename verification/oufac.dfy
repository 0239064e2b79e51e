/** The bookkeeping of the Open Universe FITS-to-ASDF converter: the FITS header
    as a list of cards, the distortion polynomials built from the SIP matrices,
    the detector bounding box, the lazily filled `FitsToAsdf` object, the
    unpacking of transient model parameters and the metadata block written to
    the ASDF tree. File reads, the astropy WCS reading of a header and the
    catalog queries are inputs. */
module OpenUniverseConverter {
  import opened Wrappers
  import opened Strings
  import opened Sequences

  // ---------------------------------------------------------------------------
  // FITS headers

  /** A FITS header value as astropy returns it. */
  datatype HeaderValue = IntValue(i: int) | RealValue(r: real) | TextValue(s: string) | BoolValue(b: bool)

  /** One header card. */
  datatype Card = Card(key: string, value: HeaderValue)

  /** A header: its cards in order. A keyword may occur on several cards. */
  type Header = seq<Card>

  function Keys(h: Header): (ks: seq<string>)
    ensures |ks| == |h| && forall i :: 0 <= i < |h| ==> ks[i] == h[i].key
  {
    seq(|h|, i requires 0 <= i < |h| => h[i].key)
  }

  /** `header[key]`: the value of the first card with that keyword, None when
      there is none (astropy raises KeyError). */
  function Get(h: Header, key: string): (r: Option<HeaderValue>)
    ensures r.None? <==> forall i :: 0 <= i < |h| ==> h[i].key != key
  {
    var ks := Keys(h);
    var found := Find(ks, key);
    if found.None? then
      assert forall i :: 0 <= i < |h| ==> ks[i] != key;
      None
    else
      Some(h[found.value].value)
  }

  /** The value `header[key]` gives is that of the first card with the keyword. */
  lemma GetIsFirstCard(h: Header, key: string)
    requires Get(h, key).Some?
    ensures exists i :: (0 <= i < |h| && h[i] == Card(key, Get(h, key).value) &&
                         forall j :: 0 <= j < i ==> h[j].key != key)
  {
    var ks := Keys(h);
    var i := Find(ks, key).value;
    assert forall j :: 0 <= j < i ==> ks[..i][j] != key;
    assert h[i] == Card(key, Get(h, key).value);
  }

  /** The dictionary `{key: value for key, value in header.items()}`: every
      keyword, with the value of its last card. */
  function DictOf(h: Header): (d: map<string, HeaderValue>)
    ensures forall key :: key in d <==> exists i :: 0 <= i < |h| && h[i].key == key
  {
    if |h| == 0 then map[]
    else
      var init := DictOf(h[..|h| - 1]);
      assert forall i :: 0 <= i < |h| - 1 ==> h[..|h| - 1][i] == h[i];
      init[h[|h| - 1].key := h[|h| - 1].value]
  }

  /** A card that no later card overrides gives its keyword's value in the dictionary. */
  lemma {:induction false} LastCardWins(h: Header, i: nat)
    requires i < |h|
    requires forall j :: i < j < |h| ==> h[j].key != h[i].key
    ensures DictOf(h)[h[i].key] == h[i].value
    decreases |h|
  {
    if i < |h| - 1 {
      var init := h[..|h| - 1];
      assert init[i] == h[i];
      LastCardWins(init, i);
    }
  }

  /** A header with one card per keyword gives back every card from the dictionary. */
  lemma DistinctKeysKept(h: Header)
    requires forall i, j :: 0 <= i < j < |h| ==> h[i].key != h[j].key
    ensures forall i :: 0 <= i < |h| ==> DictOf(h)[h[i].key] == h[i].value
  {
    forall i | 0 <= i < |h|
      ensures DictOf(h)[h[i].key] == h[i].value
    {
      LastCardWins(h, i);
    }
  }

  /** A header value used in arithmetic (`header['NAXIS1'] + 1`): numbers and
      booleans work, text raises TypeError. */
  function NumberOf(v: HeaderValue): (r: Option<real>)
    ensures r.None? <==> v.TextValue?
    ensures v.IntValue? ==> r == Some(v.i as real)
    ensures v.RealValue? ==> r == Some(v.r)
  {
    match v
    case IntValue(i) => Some(i as real)
    case RealValue(x) => Some(x)
    case BoolValue(b) => Some(if b then 1.0 else 0.0)
    case TextValue(_) => None
  }

  // ---------------------------------------------------------------------------
  // Distortion polynomials

  /** The CD matrix (`piximg_matrix`) of the FITS WCS. */
  datatype Cd = Cd(m00: real, m01: real, m10: real, m11: real)

  /** A `Polynomial2D` of the given degree with the coefficients that were set
      explicitly; every other coefficient keeps its default of zero. */
  datatype Polynomial2D = Polynomial2D(degree: int, coeffs: map<(nat, nat), real>)

  /** The coefficient `c{i}_{j}` of `p`. */
  function Coefficient(p: Polynomial2D, i: nat, j: nat): real {
    if (i, j) in p.coeffs then p.coeffs[(i, j)] else 0.0
  }

  /** `coeffs_to_poly`: the entries of `mat` whose indices sum to between 1 and
      `degree` become the coefficients of a degree-`degree` polynomial; the
      constant term is never set. */
  method CoeffsToPoly(mat: array2<real>, degree: int) returns (pol: Polynomial2D)
    ensures pol.degree == degree
    ensures forall i: nat, j: nat :: (i, j) in pol.coeffs <==> i < mat.Length0 && j < mat.Length1 && 0 < i + j <= degree
    ensures forall i: nat, j: nat :: i < mat.Length0 && j < mat.Length1 && 0 < i + j <= degree ==>
      Coefficient(pol, i, j) == mat[i, j]
    ensures Coefficient(pol, 0, 0) == 0.0
  {
    var coeffs: map<(nat, nat), real> := map[];
    var i := 0;
    while i < mat.Length0
      invariant 0 <= i <= mat.Length0
      invariant forall p: nat, q: nat :: (p, q) in coeffs <==> p < i && q < mat.Length1 && 0 < p + q <= degree
      invariant forall p: nat, q: nat :: p < i && q < mat.Length1 && 0 < p + q <= degree ==> coeffs[(p, q)] == mat[p, q]
    {
      var j := 0;
      while j < mat.Length1
        invariant 0 <= j <= mat.Length1
        invariant forall p: nat, q: nat :: (p, q) in coeffs <==>
          ((p < i && q < mat.Length1) || (p == i && q < j)) && 0 < p + q <= degree
        invariant forall p: nat, q: nat :: ((p < i && q < mat.Length1) || (p == i && q < j)) && 0 < p + q <= degree ==>
          coeffs[(p, q)] == mat[p, q]
      {
        if 0 < i + j <= degree {
          coeffs := coeffs[(i, j) := mat[i, j]];
        }
        j := j + 1;
      }
      i := i + 1;
    }
    pol := Polynomial2D(degree, coeffs);
  }

  /** A matrix as its rows. */
  type Matrix = seq<seq<real>>

  predicate IsSquare(m: Matrix) {
    forall i :: 0 <= i < |m| ==> |m[i]| == |m|
  }

  /** `np.dot(cd, [a.ravel(), b.ravel()])` reshaped back: each new x coefficient
      is `cd[0,0]·a + cd[0,1]·b` and each new y coefficient `cd[1,0]·a + cd[1,1]·b`.
      The SIP matrices astropy reads are square; matrices of different sizes
      cannot be stacked and numpy raises ValueError. */
  method MixByCd(cd: Cd, sipA: Matrix, sipB: Matrix) returns (r: Result<(array2<real>, array2<real>)>)
    requires IsSquare(sipA) && IsSquare(sipB)
    ensures r.Raise? <==> |sipA| != |sipB|
    ensures r.Raise? ==> r.error.ValueError?
    ensures r.Ok? ==> fresh(r.value.0) && fresh(r.value.1) && r.value.0 != r.value.1
    ensures r.Ok? ==> var (a, b) := r.value;
      a.Length0 == a.Length1 == b.Length0 == b.Length1 == |sipA| &&
      forall i, j :: 0 <= i < a.Length0 && 0 <= j < a.Length1 ==>
        a[i, j] == cd.m00 * sipA[i][j] + cd.m01 * sipB[i][j] &&
        b[i, j] == cd.m10 * sipA[i][j] + cd.m11 * sipB[i][j]
  {
    if |sipA| != |sipB| {
      return Raise(ValueError("inhomogeneous shape"));
    }
    var n := |sipA|;
    var a := new real[n, n];
    var b := new real[n, n];
    for i := 0 to n
      invariant forall p, q :: 0 <= p < i && 0 <= q < n ==>
        a[p, q] == cd.m00 * sipA[p][q] + cd.m01 * sipB[p][q] &&
        b[p, q] == cd.m10 * sipA[p][q] + cd.m11 * sipB[p][q]
    {
      for j := 0 to n
        invariant forall p, q :: 0 <= p < n && 0 <= q < n && (p < i || (p == i && q < j)) ==>
          a[p, q] == cd.m00 * sipA[p][q] + cd.m01 * sipB[p][q] &&
          b[p, q] == cd.m10 * sipA[p][q] + cd.m11 * sipB[p][q]
      {
        a[i, j] := cd.m00 * sipA[i][j] + cd.m01 * sipB[i][j];
        b[i, j] := cd.m10 * sipA[i][j] + cd.m11 * sipB[i][j];
      }
    }
    return Ok((a, b));
  }

  /** The linear terms are replaced by the CD entries, one assignment after the
      other: `a[1,0]`, `a[0,1]`, `b[1,0]`, `b[0,1]`. A matrix too small for one of
      them raises IndexError at that assignment. */
  method OverwriteLinearTerms(cd: Cd, a: array2<real>, b: array2<real>) returns (err: Option<PyError>)
    requires a != b
    modifies a, b
    ensures err.None? <==> a.Length0 >= 2 && a.Length1 >= 2 && b.Length0 >= 2 && b.Length1 >= 2
    ensures err.Some? ==> err == Some(IndexError)
    ensures err.None? ==> a[1, 0] == cd.m00 && a[0, 1] == cd.m01 && b[1, 0] == cd.m10 && b[0, 1] == cd.m11
    ensures forall i, j :: 0 <= i < a.Length0 && 0 <= j < a.Length1 && !(i + j == 1) ==> a[i, j] == old(a[i, j])
    ensures forall i, j :: 0 <= i < b.Length0 && 0 <= j < b.Length1 && !(i + j == 1) ==> b[i, j] == old(b[i, j])
  {
    if a.Length0 < 2 || a.Length1 < 1 { return Some(IndexError); }
    a[1, 0] := cd.m00;
    if a.Length1 < 2 { return Some(IndexError); }
    a[0, 1] := cd.m01;
    if b.Length0 < 2 || b.Length1 < 1 { return Some(IndexError); }
    b[1, 0] := cd.m10;
    if b.Length1 < 2 { return Some(IndexError); }
    b[0, 1] := cd.m11;
    return None;
  }

  /** The x-polynomial coefficient `(i, j)` after mixing and overwriting. */
  function SipX(cd: Cd, sipA: Matrix, sipB: Matrix, i: nat, j: nat): real
    requires i < |sipA| && j < |sipA[i]| && i < |sipB| && j < |sipB[i]|
  {
    if i == 1 && j == 0 then cd.m00
    else if i == 0 && j == 1 then cd.m01
    else cd.m00 * sipA[i][j] + cd.m01 * sipB[i][j]
  }

  /** The y-polynomial coefficient `(i, j)` after mixing and overwriting. */
  function SipY(cd: Cd, sipA: Matrix, sipB: Matrix, i: nat, j: nat): real
    requires i < |sipA| && j < |sipA[i]| && i < |sipB| && j < |sipB[i]|
  {
    if i == 1 && j == 0 then cd.m10
    else if i == 0 && j == 1 then cd.m11
    else cd.m10 * sipA[i][j] + cd.m11 * sipB[i][j]
  }

  /** `((-0.5, nx - 0.5), (-0.5, ny - 0.5))`. */
  datatype BoundingBox = BoundingBox(xLo: real, xHi: real, yLo: real, yHi: real)

  /** The bounding box for `nx, ny = NAXIS1 + 1, NAXIS2 + 1`: it starts half a
      pixel before pixel 0 and spans NAXIS + 1 pixels on each axis. */
  function BoxOf(naxis1: real, naxis2: real): (bb: BoundingBox)
    ensures bb.xLo == -0.5 && bb.yLo == -0.5
    ensures bb.xHi - bb.xLo == naxis1 + 1.0 && bb.yHi - bb.yLo == naxis2 + 1.0
  {
    var nx := naxis1 + 1.0;
    var ny := naxis2 + 1.0;
    BoundingBox(-0.5, nx - 0.5, -0.5, ny - 0.5)
  }

  predicate Inside(bb: BoundingBox, x: real, y: real) {
    bb.xLo < x < bb.xHi && bb.yLo < y < bb.yHi
  }

  /** The whole pixels inside the box are those from 0 to NAXIS on each axis, one
      more column and row than the image has. */
  lemma PixelsInBox(naxis1: int, naxis2: int, x: int, y: int)
    ensures Inside(BoxOf(naxis1 as real, naxis2 as real), x as real, y as real) <==>
      0 <= x <= naxis1 && 0 <= y <= naxis2
  {
  }

  /** What astropy's `WCS(header)` supplies: the reference pixel, the reference
      sky position, the CD matrix and the SIP matrices with their orders.
      `hasSip` is false when the header carries no SIP keywords: astropy then
      leaves `w.sip` as None and the matrices here mean nothing. */
  datatype FitsWcs = FitsWcs(crpix: (real, real), crval: (real, real), cd: Cd,
                             sipA: Matrix, sipB: Matrix, aOrder: int, bOrder: int,
                             hasSip: bool)

  /** The SIP matrices astropy builds are square. */
  predicate SquareSip(w: FitsWcs) {
    IsSquare(w.sipA) && IsSquare(w.sipB)
  }

  /** The parts of the generalized WCS that the converter decides: the pixel
      shift, the two distortion polynomials, the celestial rotation and the
      bounding box. The frames and the projection are astropy's. */
  datatype Gwcs = Gwcs(shift: (real, real), polx: Polynomial2D, poly: Polynomial2D,
                       crval: (real, real), lonpole: HeaderValue, bbox: BoundingBox)

  /** `polx` and `poly` are the distortion polynomials of `w`: the mixed SIP
      coefficients with the CD entries as linear terms, up to each order. */
  ghost predicate PolynomialsFrom(w: FitsWcs, polx: Polynomial2D, poly: Polynomial2D) {
    var n := |w.sipA|;
    w.hasSip && SquareSip(w) && |w.sipB| == n &&
    polx.degree == w.aOrder && poly.degree == w.bOrder &&
    (forall i: nat, j: nat :: (i, j) in polx.coeffs <==> i < n && j < n && 0 < i + j <= w.aOrder) &&
    (forall i: nat, j: nat :: (i, j) in poly.coeffs <==> i < n && j < n && 0 < i + j <= w.bOrder) &&
    (forall i: nat, j: nat :: i < n && j < n && 0 < i + j <= w.aOrder ==>
      Coefficient(polx, i, j) == SipX(w.cd, w.sipA, w.sipB, i, j)) &&
    (forall i: nat, j: nat :: i < n && j < n && 0 < i + j <= w.bOrder ==>
      Coefficient(poly, i, j) == SipY(w.cd, w.sipA, w.sipB, i, j))
  }

  /** The SIP part of `wcs_from_fits_header`: mix the matrices by the CD matrix,
      overwrite the linear terms, and turn each matrix into a polynomial of its
      SIP order. Without SIP keywords, reading `w.sip.a` off None raises
      AttributeError. */
  method DistortionPolynomials(w: FitsWcs) returns (r: Result<(Polynomial2D, Polynomial2D)>)
    requires SquareSip(w)
    ensures r.Ok? <==> w.hasSip && |w.sipA| == |w.sipB| && |w.sipA| >= 2
    ensures !w.hasSip ==> r == Raise(AttributeError("a"))
    ensures w.hasSip && |w.sipA| != |w.sipB| ==> r.Raise? && r.error.ValueError?
    ensures w.hasSip && |w.sipA| == |w.sipB| < 2 ==> r == Raise(IndexError)
    ensures r.Ok? ==> PolynomialsFrom(w, r.value.0, r.value.1)
  {
    if !w.hasSip { return Raise(AttributeError("a")); }
    var mixed := MixByCd(w.cd, w.sipA, w.sipB);
    if mixed.Raise? { return Raise(mixed.error); }
    var (a, b) := mixed.value;
    var e := OverwriteLinearTerms(w.cd, a, b);
    if e.Some? { return Raise(e.value); }
    forall i: nat, j: nat | i < a.Length0 && j < a.Length1
      ensures a[i, j] == SipX(w.cd, w.sipA, w.sipB, i, j) && b[i, j] == SipY(w.cd, w.sipA, w.sipB, i, j)
    {
      if i + j != 1 {
        assert a[i, j] == w.cd.m00 * w.sipA[i][j] + w.cd.m01 * w.sipB[i][j];
      }
    }
    var polx := CoeffsToPoly(a, w.aOrder);
    var poly := CoeffsToPoly(b, w.bOrder);
    return Ok((polx, poly));
  }

  /** `g` is the generalized WCS that `header` and `w` give. */
  ghost predicate BuiltFrom(header: Header, w: FitsWcs, g: Gwcs) {
    Has(header, "NAXIS1") && Has(header, "NAXIS2") && Has(header, "LONPOLE") &&
    NumberOf(Get(header, "NAXIS1").value).Some? && NumberOf(Get(header, "NAXIS2").value).Some? &&
    g.bbox == BoxOf(NumberOf(Get(header, "NAXIS1").value).value, NumberOf(Get(header, "NAXIS2").value).value) &&
    g.lonpole == Get(header, "LONPOLE").value &&
    g.shift == (-w.crpix.0, -w.crpix.1) && g.crval == w.crval &&
    PolynomialsFrom(w, g.polx, g.poly)
  }

  /** `wcs_from_fits_header`: NAXIS2 and NAXIS1 for the bounding box, the
      distortion polynomials, then LONPOLE for the rotation. A missing keyword
      raises KeyError, in the order the code reads them. */
  method WcsFromFitsHeader(header: Header, w: FitsWcs) returns (r: Result<Gwcs>)
    requires SquareSip(w)
    ensures !Has(header, "NAXIS2") ==> r == Raise(KeyError("NAXIS2"))
    ensures Has(header, "NAXIS2") && NumberOf(Get(header, "NAXIS2").value).None? ==> r == Raise(TypeError)
    ensures r.Ok? <==>
      (Has(header, "NAXIS2") && NumberOf(Get(header, "NAXIS2").value).Some? &&
       Has(header, "NAXIS1") && NumberOf(Get(header, "NAXIS1").value).Some? &&
       w.hasSip && |w.sipA| == |w.sipB| && |w.sipA| >= 2 && Has(header, "LONPOLE"))
    ensures r.Ok? ==> BuiltFrom(header, w, r.value)
  {
    var naxis2 := Get(header, "NAXIS2");
    if naxis2.None? { return Raise(KeyError("NAXIS2")); }
    var n2 := NumberOf(naxis2.value);
    if n2.None? { return Raise(TypeError); }
    var naxis1 := Get(header, "NAXIS1");
    if naxis1.None? { return Raise(KeyError("NAXIS1")); }
    var n1 := NumberOf(naxis1.value);
    if n1.None? { return Raise(TypeError); }
    var polys := DistortionPolynomials(w);
    if polys.Raise? { return Raise(polys.error); }
    var lonpole := Get(header, "LONPOLE");
    if lonpole.None? { return Raise(KeyError("LONPOLE")); }
    return Ok(Gwcs((-w.crpix.0, -w.crpix.1), polys.value.0, polys.value.1, w.crval, lonpole.value, BoxOf(n1.value, n2.value)));
  }

  // ---------------------------------------------------------------------------
  // Transient catalog rows

  /** The model parameters of one transient. */
  datatype TransientRow = TransientRow(paramNames: seq<string>, paramValues: seq<real>)

  /** The seven SALT2 parameters, stored together or not at all. */
  datatype Salt2 = Salt2(x0: real, x1: real, c: real, mB: real, alpha: real, beta: real, gammaDM: real)

  /** The unpacked columns; None stands for the NaN the column starts with. */
  datatype TransientColumns = TransientColumns(templateIndex: seq<Option<real>>, salt2: seq<Option<Salt2>>)

  /** A row the loop can unpack: it has a first value, and all eight values when
      it names more than one parameter. */
  predicate Unpackable(row: TransientRow) {
    |row.paramValues| >= 1 && (|row.paramNames| > 1 ==> |row.paramValues| >= 8)
  }

  /** The transient loop of `fetch_catalogs`: every row's template index is its
      first parameter value; the SALT2 columns take values 1 to 7 when the row
      names more than one parameter and stay NaN otherwise. A row short of the
      values it needs raises IndexError. */
  method UnpackTransients(rows: seq<TransientRow>) returns (r: Result<TransientColumns>)
    ensures r.Ok? <==> forall k :: 0 <= k < |rows| ==> Unpackable(rows[k])
    ensures r.Raise? ==> r.error == IndexError
    ensures r.Ok? ==> |r.value.templateIndex| == |rows| && |r.value.salt2| == |rows|
    ensures r.Ok? ==> forall k :: 0 <= k < |rows| ==> r.value.templateIndex[k] == Some(rows[k].paramValues[0])
    ensures r.Ok? ==> forall k :: 0 <= k < |rows| ==>
      var v := rows[k].paramValues;
      r.value.salt2[k] == if |rows[k].paramNames| > 1 then Some(Salt2(v[1], v[2], v[3], v[4], v[5], v[6], v[7])) else None
  {
    var templates := new Option<real>[|rows|](_ => None);
    var salt2s := new Option<Salt2>[|rows|](_ => None);
    for k := 0 to |rows|
      invariant forall m :: 0 <= m < k ==> Unpackable(rows[m])
      invariant forall m :: 0 <= m < k ==> templates[m] == Some(rows[m].paramValues[0])
      invariant forall m :: k <= m < |rows| ==> salt2s[m] == None
      invariant forall m :: 0 <= m < k ==>
        var v := rows[m].paramValues;
        salt2s[m] == if |rows[m].paramNames| > 1 then Some(Salt2(v[1], v[2], v[3], v[4], v[5], v[6], v[7])) else None
    {
      var v := rows[k].paramValues;
      if |v| < 1 { return Raise(IndexError); }
      templates[k] := Some(v[0]);
      if |rows[k].paramNames| > 1 {
        if |v| < 8 { return Raise(IndexError); }
        salt2s[k] := Some(Salt2(v[1], v[2], v[3], v[4], v[5], v[6], v[7]));
      }
    }
    return Ok(TransientColumns(templates[..], salt2s[..]));
  }

  // ---------------------------------------------------------------------------
  // Catalogs, metadata and the converter object

  /** Image data of one HDU. */
  type Pixels = seq<seq<real>>

  /** What reading the FITS file gives: the header of HDU 1 and the data of HDUs 1 to 3. */
  datatype FitsFile = FitsFile(header: Header, sci: Pixels, err: Pixels, dq: Pixels)

  /** A catalog already cut to the sources on the detector and merged with its
      fluxes, one column map per row. */
  type SourceTable = seq<map<string, real>>

  datatype TransientTable = TransientTable(base: SourceTable, columns: TransientColumns)

  /** A value of the `catalogs` dictionary; NoCatalog is a catalog not asked for. */
  datatype CatalogEntry = NoCatalog | Sources(sources: SourceTable) | Transients(transients: TransientTable)

  /** What the catalog queries return for this detector. */
  datatype CatalogSources = CatalogSources(pointSources: SourceTable, galaxies: SourceTable,
                                           transientBase: SourceTable, transientRows: seq<TransientRow>)

  /** The `meta` block of the ASDF tree. The observation date and MJD are kept as
      the header values that astropy turns into times. */
  datatype Meta = Meta(rawHeader: Option<map<string, HeaderValue>>, telescope: string, instrument: string,
                       opticalElement: HeaderValue, detector: string,
                       raPointing: HeaderValue, decPointing: HeaderValue, zptmag: HeaderValue,
                       skyMean: HeaderValue, paFpa: HeaderValue, obsDate: HeaderValue, mjdObs: HeaderValue,
                       expTime: HeaderValue, nreads: int, gain: real)

  /** `f'{n:02d}'`: at least two digits, zero-padded, with the sign in front of a
      negative number. Only integers (and booleans) have a `d` format; anything
      else raises ValueError. */
  function ScaDigits(v: HeaderValue): (r: Option<string>)
    ensures r.Some? <==> v.IntValue? || v.BoolValue?
    ensures r.Some? ==> |r.value| >= 2
  {
    match v
    case IntValue(n) => Some(if n >= 0 then ZeroPad(NatToString(n), 2) else "-" + NatToString(-n))
    case BoolValue(b) => Some(ZeroPad(if b then "1" else "0", 2))
    case _ => None
  }

  /** A detector number below 100 is written with exactly two digits that read back as the number. */
  lemma ScaDigitsRoundTrip(n: nat)
    requires n < 100
    ensures ScaDigits(IntValue(n)).Some?
    ensures var s := ScaDigits(IntValue(n)).value; |s| == 2 && ParseNat(s) == Some(n)
  {
    var d := NatToString(n);
    assert Pow10(2) == 100;
    NatToStringLength(n, 2);
    var s := ZeroPad(d, 2);
    assert s == Zeros(2 - |d|) + d;
    LeadingZeros(2 - |d|, d);
    DigitsOfNat(n);
  }

  /** A larger detector number is written in full, never cut to two digits. */
  lemma ScaDigitsWide(n: nat)
    requires n >= 100
    ensures ScaDigits(IntValue(n)) == Some(NatToString(n))
  {
    assert Pow10(2) == 100;
    NatToStringLength(n, 2);
  }

  predicate Has(h: Header, key: string) {
    Get(h, key).Some?
  }

  /** Every keyword the metadata block reads. */
  predicate HasMetaKeys(h: Header) {
    Has(h, "FILTER") && Has(h, "SCA_NUM") && Has(h, "RA_TARG") && Has(h, "DEC_TARG") &&
    Has(h, "ZPTMAG") && Has(h, "SKY_MEAN") && Has(h, "PA_FPA") && Has(h, "DATE-OBS") &&
    Has(h, "MJD-OBS") && Has(h, "EXPTIME")
  }

  /** The metadata block of `write` for a loaded header: the raw header first
      when asked for, then the fixed telescope and instrument, the header values
      read in order (a missing one raises KeyError), the two-digit detector name
      and the constant read count and gain. */
  function MetaOf(h: Header, includeRawHeader: bool): (r: Result<Meta>)
    ensures r.Ok? <==> HasMetaKeys(h) && ScaDigits(Get(h, "SCA_NUM").value).Some?
    ensures !Has(h, "FILTER") ==> r == Raise(KeyError("FILTER"))
    ensures Has(h, "FILTER") && !Has(h, "SCA_NUM") ==> r == Raise(KeyError("SCA_NUM"))
    ensures Has(h, "FILTER") && Has(h, "SCA_NUM") && ScaDigits(Get(h, "SCA_NUM").value).None? ==> r.Raise? && r.error.ValueError?
    ensures r.Raise? ==> r.error.KeyError? || r.error.ValueError?
    ensures r.Ok? ==> r.value.telescope == "ROMAN" && r.value.instrument == "WFI" && r.value.nreads == 1 && r.value.gain == 1.0
    ensures r.Ok? ==> r.value.detector == "SCA" + ScaDigits(Get(h, "SCA_NUM").value).value
    ensures r.Ok? ==> (r.value.rawHeader.Some? <==> includeRawHeader)
    ensures r.Ok? && includeRawHeader ==> r.value.rawHeader == Some(DictOf(h))
    ensures r.Ok? ==> Some(r.value.opticalElement) == Get(h, "FILTER") && Some(r.value.raPointing) == Get(h, "RA_TARG")
    ensures r.Ok? ==> Some(r.value.decPointing) == Get(h, "DEC_TARG") && Some(r.value.expTime) == Get(h, "EXPTIME")
    ensures r.Ok? ==> Some(r.value.zptmag) == Get(h, "ZPTMAG") && Some(r.value.skyMean) == Get(h, "SKY_MEAN")
    ensures r.Ok? ==> Some(r.value.paFpa) == Get(h, "PA_FPA")
    ensures r.Ok? ==> Some(r.value.obsDate) == Get(h, "DATE-OBS") && Some(r.value.mjdObs) == Get(h, "MJD-OBS")
  {
    var raw := if includeRawHeader then Some(DictOf(h)) else None;
    var filter := Get(h, "FILTER");
    if filter.None? then Raise(KeyError("FILTER")) else
    var sca := Get(h, "SCA_NUM");
    if sca.None? then Raise(KeyError("SCA_NUM")) else
    var digits := ScaDigits(sca.value);
    if digits.None? then Raise(ValueError("Unknown format code 'd'")) else
    var ra := Get(h, "RA_TARG");
    if ra.None? then Raise(KeyError("RA_TARG")) else
    var dec := Get(h, "DEC_TARG");
    if dec.None? then Raise(KeyError("DEC_TARG")) else
    var zpt := Get(h, "ZPTMAG");
    if zpt.None? then Raise(KeyError("ZPTMAG")) else
    var sky := Get(h, "SKY_MEAN");
    if sky.None? then Raise(KeyError("SKY_MEAN")) else
    var pa := Get(h, "PA_FPA");
    if pa.None? then Raise(KeyError("PA_FPA")) else
    var date := Get(h, "DATE-OBS");
    if date.None? then Raise(KeyError("DATE-OBS")) else
    var mjd := Get(h, "MJD-OBS");
    if mjd.None? then Raise(KeyError("MJD-OBS")) else
    var exp := Get(h, "EXPTIME");
    if exp.None? then Raise(KeyError("EXPTIME")) else
    Ok(Meta(raw, "ROMAN", "WFI", filter.value, "SCA" + digits.value, ra.value, dec.value, zpt.value,
            sky.value, pa.value, date.value, mjd.value, exp.value, 1, 1.0))
  }

  /** The tree written under the `roman` key. */
  datatype Tree = Tree(data: Option<Pixels>, err: Option<Pixels>, dq: Option<Pixels>, wcs: Gwcs,
                       catalogs: map<string, CatalogEntry>, meta: Meta)

  /** The `fitspath` argument: a string, or anything else. */
  datatype PathArg = StrPath(path: string) | OtherPath

  const NotAPathMessage := "Expected path to FITS file. No other mode available yet."
  const NoHeaderMessage := "self.fitsheader is empty, please load the header first"
  const NoHeaderForWcsMessage := "self.fitsheader is empty!"
  const NoHeaderForWriteMessage := "`self.fitsheader` is empty. Please load a FITS header."

  /** The point-source and galaxy entries of a catalog dictionary. */
  predicate FirstCatalogs(cats: map<string, CatalogEntry>, addPointSources: bool, addGalaxies: bool, src: CatalogSources) {
    "point_sources" in cats && "galaxies" in cats &&
    cats["point_sources"] == (if addPointSources then Sources(src.pointSources) else NoCatalog) &&
    cats["galaxies"] == (if addGalaxies then Sources(src.galaxies) else NoCatalog)
  }

  /** The converter object. Data, WCS, catalogs and header start empty and are
      filled on demand. */
  class FitsToAsdf {
    const fitspath: string
    const fileInS3: bool
    const lazyLoad: bool
    var data: Option<Pixels>
    var err: Option<Pixels>
    var dq: Option<Pixels>
    var wcs: Option<Gwcs>
    var catalogs: Option<map<string, CatalogEntry>>
    var fitsheader: Option<Header>

    /** `__init__` for a string path: the header is always read; the three data
        arrays only when loading is not lazy, whether the file is in S3 or local. */
    constructor (fitspath: string, fileInS3: bool, lazyLoad: bool, file: FitsFile)
      ensures this.fitspath == fitspath && this.fileInS3 == fileInS3 && this.lazyLoad == lazyLoad
      ensures fitsheader == Some(file.header)
      ensures lazyLoad ==> data.None? && err.None? && dq.None?
      ensures !lazyLoad ==> data == Some(file.sci) && err == Some(file.err) && dq == Some(file.dq)
      ensures wcs.None? && catalogs.None?
    {
      this.fitspath := fitspath;
      this.fileInS3 := fileInS3;
      this.lazyLoad := lazyLoad;
      data, err, dq := None, None, None;
      wcs, catalogs, fitsheader := None, None, None;
      new;
      if fileInS3 {
        ReadS3Bucket(!lazyLoad, file);
      } else if !lazyLoad {
        fitsheader := Some(file.header);
        data, err, dq := Some(file.sci), Some(file.err), Some(file.dq);
      } else {
        fitsheader := Some(file.header);
      }
    }

    /** `FitsToAsdf(fitspath, ...)`: anything but a string path raises
        NotImplementedError. */
    static method Open(fitspath: PathArg, fileInS3: bool, lazyLoad: bool, file: FitsFile)
      returns (r: Result<FitsToAsdf>)
      ensures r.Raise? <==> fitspath.OtherPath?
      ensures r.Raise? ==> r.error == NotImplementedError(NotAPathMessage)
      ensures r.Ok? ==> fresh(r.value) && r.value.fitspath == fitspath.path
      ensures r.Ok? ==> r.value.fitsheader == Some(file.header) && (r.value.data.Some? <==> !lazyLoad)
      ensures r.Ok? ==> r.value.wcs.None? && r.value.catalogs.None?
    {
      if fitspath.OtherPath? {
        return Raise(NotImplementedError(NotAPathMessage));
      }
      var conv := new FitsToAsdf(fitspath.path, fileInS3, lazyLoad, file);
      return Ok(conv);
    }

    /** `read_s3bucket`: the header always, the data arrays when asked for. */
    method ReadS3Bucket(loadData: bool, file: FitsFile)
      modifies this
      ensures fitsheader == Some(file.header)
      ensures loadData ==> data == Some(file.sci) && err == Some(file.err) && dq == Some(file.dq)
      ensures !loadData ==> data == old(data) && err == old(err) && dq == old(dq)
      ensures wcs == old(wcs) && catalogs == old(catalogs)
    {
      if loadData {
        fitsheader := Some(file.header);
        data, err, dq := Some(file.sci), Some(file.err), Some(file.dq);
      } else {
        fitsheader := Some(file.header);
      }
    }

    /** `fitsheader_to_dict`: ValueError without a header, otherwise every
        keyword with the value of its last card. */
    method FitsheaderToDict() returns (r: Result<map<string, HeaderValue>>)
      ensures fitsheader.None? ==> r == Raise(ValueError(NoHeaderMessage))
      ensures fitsheader.Some? ==> r == Ok(DictOf(fitsheader.value))
    {
      if fitsheader.None? {
        return Raise(ValueError(NoHeaderMessage));
      }
      var h := fitsheader.value;
      var hdrOut: map<string, HeaderValue> := map[];
      for k := 0 to |h|
        invariant hdrOut == DictOf(h[..k])
      {
        assert h[..k + 1][..k] == h[..k];
        hdrOut := hdrOut[h[k].key := h[k].value];
      }
      assert h[..|h|] == h;
      return Ok(hdrOut);
    }

    /** `build_gwcs`: ValueError without a header; otherwise the WCS built from it. */
    method BuildGwcs(w: FitsWcs) returns (e: Option<PyError>)
      requires SquareSip(w)
      modifies this
      ensures fitsheader.None? ==> e == Some(ValueError(NoHeaderForWcsMessage))
      ensures e.Some? ==> wcs == old(wcs)
      ensures e.None? ==> fitsheader.Some? && wcs.Some? && BuiltFrom(fitsheader.value, w, wcs.value)
      ensures fitsheader == old(fitsheader) && data == old(data) && err == old(err) && dq == old(dq)
      ensures catalogs == old(catalogs)
    {
      if fitsheader.None? {
        return Some(ValueError(NoHeaderForWcsMessage));
      }
      var g := WcsFromFitsHeader(fitsheader.value, w);
      if g.Raise? {
        return Some(g.error);
      }
      wcs := Some(g.value);
      return None;
    }

    /** `fetch_catalogs`: the WCS first when there is none; then a fresh
        dictionary filled in order with the point sources, the galaxies and the
        unpacked transients, each None when not asked for. A failure in the
        transient loop leaves the first two entries in place. */
    method FetchCatalogs(addPointSources: bool, addGalaxies: bool, addTransients: bool,
                         src: CatalogSources, w: FitsWcs) returns (e: Option<PyError>)
      requires SquareSip(w)
      modifies this
      ensures old(wcs).None? && fitsheader.None? ==> e.Some?
      ensures old(wcs).Some? ==> wcs == old(wcs)
      ensures fitsheader == old(fitsheader) && data == old(data) && err == old(err) && dq == old(dq)
      ensures catalogs != old(catalogs) ==> catalogs.Some? && FirstCatalogs(catalogs.value, addPointSources, addGalaxies, src)
      ensures e.None? ==> wcs.Some? && catalogs.Some? && catalogs.value.Keys == {"point_sources", "galaxies", "transients"}
      ensures e.None? && !addTransients ==> catalogs.value["transients"] == NoCatalog
      ensures e.None? && addTransients ==> (catalogs.value["transients"].Transients? &&
                                            catalogs.value["transients"].transients.base == src.transientBase)
      ensures addTransients && (exists k :: 0 <= k < |src.transientRows| && !Unpackable(src.transientRows[k])) ==> e.Some?
      ensures e.Some? && catalogs != old(catalogs) ==> "transients" !in catalogs.value
      ensures old(wcs).None? && e.None? ==> fitsheader.Some? && BuiltFrom(fitsheader.value, w, wcs.value)
    {
      if wcs.None? {
        var built := BuildGwcs(w);
        if built.Some? { return built; }
      }
      var cats: map<string, CatalogEntry> := map[];
      cats := cats["point_sources" := if addPointSources then Sources(src.pointSources) else NoCatalog];
      cats := cats["galaxies" := if addGalaxies then Sources(src.galaxies) else NoCatalog];
      catalogs := Some(cats);
      if addTransients {
        var cols := UnpackTransients(src.transientRows);
        if cols.Raise? { return Some(cols.error); }
        catalogs := Some(cats["transients" := Transients(TransientTable(src.transientBase, cols.value))]);
      } else {
        catalogs := Some(cats["transients" := NoCatalog]);
      }
      return None;
    }

    /** The data step of `write`: the file is read in full when there is no data yet. */
    method EnsureData(file: FitsFile)
      modifies this
      ensures old(data).Some? ==> data == old(data) && err == old(err) && dq == old(dq) && fitsheader == old(fitsheader)
      ensures old(data).None? ==> data == Some(file.sci) && err == Some(file.err) && dq == Some(file.dq) &&
                                   fitsheader == Some(file.header)
      ensures wcs == old(wcs) && catalogs == old(catalogs)
    {
      if data.None? {
        ReadS3Bucket(true, file);
      }
    }

    /** The WCS step of `write`: the WCS is built when there is none yet. */
    method EnsureWcs(w: FitsWcs) returns (e: Option<PyError>)
      requires SquareSip(w)
      modifies this
      ensures old(wcs).Some? ==> e.None? && wcs == old(wcs)
      ensures old(wcs).None? && fitsheader.None? ==> e.Some?
      ensures e.Some? ==> wcs == old(wcs)
      ensures old(wcs).None? && e.None? ==> fitsheader.Some? && wcs.Some? && BuiltFrom(fitsheader.value, w, wcs.value)
      ensures fitsheader == old(fitsheader) && data == old(data) && err == old(err) && dq == old(dq)
      ensures catalogs == old(catalogs)
    {
      e := None;
      if wcs.None? {
        e := BuildGwcs(w);
      }
    }

    /** The catalog step of `write`: with no catalogs yet, all three kinds are
        fetched. */
    method EnsureCatalogs(src: CatalogSources, w: FitsWcs) returns (e: Option<PyError>)
      requires SquareSip(w)
      modifies this
      ensures old(catalogs).Some? ==> e.None? && catalogs == old(catalogs)
      ensures old(wcs).Some? ==> wcs == old(wcs)
      ensures e.None? ==> catalogs.Some?
      ensures old(catalogs).None? && e.None? ==> FirstCatalogs(catalogs.value, true, true, src)
      ensures old(catalogs).None? && e.None? ==>
        ("transients" in catalogs.value && catalogs.value["transients"].Transients? &&
         catalogs.value["transients"].transients.base == src.transientBase)
      ensures fitsheader == old(fitsheader) && data == old(data) && err == old(err) && dq == old(dq)
    {
      e := None;
      if catalogs.None? {
        e := FetchCatalogs(true, true, true, src, w);
      }
    }

    /** `write`: the data, the WCS and the catalogs are each produced only when
        absent, then the metadata block is built from the header; the tree that
        goes to the ASDF file is returned. */
    method Write(includeRawHeader: bool, file: FitsFile, w: FitsWcs, src: CatalogSources) returns (r: Result<Tree>)
      requires SquareSip(w)
      modifies this
      ensures old(data).Some? ==> data == old(data) && fitsheader == old(fitsheader)
      ensures old(data).None? ==> data == Some(file.sci) && fitsheader == Some(file.header)
      ensures old(wcs).Some? ==> wcs == old(wcs)
      ensures old(catalogs).Some? ==> catalogs == old(catalogs)
      ensures fitsheader.None? ==> r.Raise?
      ensures r.Ok? ==> wcs.Some? && catalogs.Some? && fitsheader.Some?
      ensures r.Ok? ==> r.value.data == data && r.value.err == err && r.value.dq == dq
      ensures r.Ok? ==> r.value.wcs == wcs.value && r.value.catalogs == catalogs.value
      ensures r.Ok? ==> MetaOf(fitsheader.value, includeRawHeader) == Ok(r.value.meta)
      ensures old(wcs).None? && r.Ok? ==> BuiltFrom(fitsheader.value, w, wcs.value)
      ensures old(catalogs).None? && r.Ok? ==>
        FirstCatalogs(catalogs.value, true, true, src) && "transients" in catalogs.value &&
        catalogs.value["transients"].Transients? && catalogs.value["transients"].transients.base == src.transientBase
    {
      EnsureData(file);
      var e := EnsureWcs(w);
      if e.Some? { return Raise(e.value); }
      e := EnsureCatalogs(src, w);
      if e.Some? { return Raise(e.value); }
      if fitsheader.None? {
        return Raise(ValueError(NoHeaderForWriteMessage));
      }
      var meta := MetaOf(fitsheader.value, includeRawHeader);
      if meta.Raise? { return Raise(meta.error); }
      return Ok(Tree(data, err, dq, wcs.value, catalogs.value, meta.value));
    }
  }
}
