/** `get_survey_maps_uri`: the decision table that turns a survey name, an
    optical element and an optional tier into the path of a pre-generated
    exposure-time map, or raises. Names are compared after `upper()` except in
    the places noted. The warnings it issues are not modelled. */
module SurveyMaps {
  import opened Wrappers
  import opened Strings

  datatype Survey = HLTDS | HLWAS | GBTDS | GPS

  datatype Band = F062 | F087 | F106 | F129 | F146 | F158 | F184 | F213 | PRISM | GRISM

  datatype Tier = All | Deep | Wide | Medium | UltraDeep

  function SurveyName(s: Survey): string {
    match s
    case HLTDS => "HLTDS"
    case HLWAS => "HLWAS"
    case GBTDS => "GBTDS"
    case GPS => "GPS"
  }

  function BandName(b: Band): string {
    match b
    case F062 => "F062"
    case F087 => "F087"
    case F106 => "F106"
    case F129 => "F129"
    case F146 => "F146"
    case F158 => "F158"
    case F184 => "F184"
    case F213 => "F213"
    case PRISM => "PRISM"
    case GRISM => "GRISM"
  }

  /** The survey whose name `name.upper()` is, if it is one of the four. */
  function ParseSurvey(name: string): (r: Option<Survey>)
    ensures r.Some? ==> SurveyName(r.value) == Upper(name)
    ensures r.None? ==> forall s: Survey :: SurveyName(s) != Upper(name)
  {
    var u := Upper(name);
    if u == "HLTDS" then Some(HLTDS)
    else if u == "HLWAS" then Some(HLWAS)
    else if u == "GBTDS" then Some(GBTDS)
    else if u == "GPS" then Some(GPS)
    else None
  }

  /** The element whose name `band.upper()` is, if it is one of the ten. */
  function ParseBand(band: string): (r: Option<Band>)
    ensures r.Some? ==> BandName(r.value) == Upper(band)
    ensures r.None? ==> forall b: Band :: BandName(b) != Upper(band)
  {
    var u := Upper(band);
    if u == "F062" then Some(F062)
    else if u == "F087" then Some(F087)
    else if u == "F106" then Some(F106)
    else if u == "F129" then Some(F129)
    else if u == "F146" then Some(F146)
    else if u == "F158" then Some(F158)
    else if u == "F184" then Some(F184)
    else if u == "F213" then Some(F213)
    else if u == "PRISM" then Some(PRISM)
    else if u == "GRISM" then Some(GRISM)
    else None
  }

  /** The HLWAS tier `tier.upper()` names; both spellings of ultra-deep count. */
  function ParseTier(tier: string): (r: Option<Tier>)
    ensures r == Some(Wide) ==> Upper(tier) == "WIDE"
    ensures r == Some(Medium) ==> Upper(tier) == "MEDIUM"
    ensures r == Some(Deep) ==> Upper(tier) == "DEEP"
    ensures r == Some(UltraDeep) ==> Upper(tier) == "ULTRADEEP" || Upper(tier) == "ULTRA-DEEP"
    ensures r == Some(All) ==> Upper(tier) == "ALL"
    ensures r.None? ==> Upper(tier) !in ["ALL", "DEEP", "WIDE", "MEDIUM", "ULTRA-DEEP", "ULTRADEEP"]
  {
    var u := Upper(tier);
    if u == "ALL" then Some(All)
    else if u == "DEEP" then Some(Deep)
    else if u == "WIDE" then Some(Wide)
    else if u == "MEDIUM" then Some(Medium)
    else if u == "ULTRA-DEEP" || u == "ULTRADEEP" then Some(UltraDeep)
    else None
  }

  /** Where a map with the given stem lives. */
  function MapPath(stem: string): string {
    "./aux_data/map_" + stem + ".hsp"
  }

  predicate IsMapPath(p: string) {
    |p| >= |"./aux_data/map_"| + |".hsp"| &&
    p[..|"./aux_data/map_"|] == "./aux_data/map_" && p[|p| - |".hsp"|..] == ".hsp"
  }

  lemma MapPathShape(stem: string)
    ensures IsMapPath(MapPath(stem))
  {
    var p := MapPath(stem);
    assert p[..|"./aux_data/map_"|] == "./aux_data/map_";
    assert p[|p| - |".hsp"|..] == ".hsp";
  }

  /** The text a tier contributes to an HLWAS path: `tier.lower()`, after an
      exact "ULTRA-DEEP" has been rewritten to "ULTRADEEP". */
  function TierText(tier: string): string {
    if tier == "ULTRA-DEEP" then Lower("ULTRADEEP") else Lower(tier)
  }

  /** The stem of the HLWAS map for a tier and element, if there is one; `text`
      is what the tier contributes to the stem. */
  function HlwasStem(t: Tier, text: string, b: Band): (stem: Option<string>)
    ensures t == Wide ==> (stem.Some? <==> b == F158)
    ensures t == Medium ==> (stem.Some? <==> b == F106 || b == F129 || b == F158 || b == GRISM)
    ensures t == Deep ==> (stem.Some? <==> b != F062 && b != PRISM)
    ensures t == UltraDeep ==> (stem.Some? <==> b == F106 || b == F129 || b == F158)
    ensures t == All ==> (stem.Some? <==> b.F087? || b.F184? || b.F213? || b.F146? || b.F158? || b.GRISM? || b.F106? || b.F129?)
    ensures t == Wide && b == F158 ==> stem == Some("HLWAS-" + text + "_F158")
    ensures t == Medium && (b == F106 || b == F129 || b == F158) ==> stem == Some("HLWAS-" + text + "_F158")
    ensures t == Medium && b == GRISM ==> stem == Some("HLWAS-" + text + "_GRISM")
    ensures t == Deep && (b == F087 || b == F106 || b == F129 || b == F158 || b == F184 || b == F213) ==>
      stem == Some("HLWAS-" + text + "_F213")
    ensures t == Deep && (b == F146 || b == GRISM) ==> stem == Some("HLWAS-" + text + "_" + BandName(b))
    ensures t == UltraDeep && (b == F106 || b == F129 || b == F158) ==> stem == Some("HLWAS-" + text + "_F158")
    ensures t == All && (b == F087 || b == F184 || b == F213) ==> stem == Some("HLWAS-deep_F213")
    ensures t == All && b == F146 ==> stem == Some("HLWAS-deep_F146")
    ensures t == All && b == F158 ==> stem == Some("HLWAS-all_F158")
    ensures t == All && b == GRISM ==> stem == Some("HLWAS-all_GRISM")
    ensures t == All && (b == F106 || b == F129) ==> stem == Some("HLWAS-all_F106")
  {
    match t
    case Wide => if b == F158 then Some("HLWAS-" + text + "_F158") else None
    case Medium =>
      if b == F106 || b == F129 || b == F158 then Some("HLWAS-" + text + "_F158")
      else if b == GRISM then Some("HLWAS-" + text + "_GRISM")
      else None
    case Deep =>
      if b == F087 || b == F106 || b == F129 || b == F158 || b == F184 || b == F213 then Some("HLWAS-" + text + "_F213")
      else if b == F146 || b == GRISM then Some("HLWAS-" + text + "_" + BandName(b))
      else
        assert b == F062 || b == PRISM;
        None
    case UltraDeep =>
      if b == F106 || b == F129 || b == F158 then Some("HLWAS-" + text + "_F158") else None
    case All =>
      if b == F087 || b == F184 || b == F213 then Some("HLWAS-deep_F213")
      else if b == F146 then Some("HLWAS-deep_F146")
      else if b == F158 then Some("HLWAS-all_F158")
      else if b == GRISM then Some("HLWAS-all_GRISM")
      else if b == F106 || b == F129 then Some("HLWAS-all_F106")
      else None
  }

  /** The HLWAS branch once a tier is given: an unknown tier, or an element
      the tier has no map for, raises. */
  function HlwasMap(tier: string, b: Band): (r: Result<Option<string>>)
    ensures r.Ok? ==> r.value.Some? && IsMapPath(r.value.value)
    ensures ParseTier(tier).None? ==> r.Raise?
    ensures ParseTier(tier).Some? ==> (r.Ok? <==> HlwasStem(ParseTier(tier).value, TierText(tier), b).Some?)
    ensures r.Ok? ==> r.value == Some(MapPath(HlwasStem(ParseTier(tier).value, TierText(tier), b).value))
  {
    var t := ParseTier(tier);
    var stem := if t.None? then None else HlwasStem(t.value, TierText(tier), b);
    if stem.None? then Raise(ValueError("tier or element not available for HLWAS"))
    else
      MapPathShape(stem.value);
      Ok(Some(MapPath(stem.value)))
  }

  /** The HLTDS branch: the tier is ignored. */
  function HltdsMap(b: Band): (r: Result<Option<string>>)
    ensures r.Ok? <==> b != F146 && b != F213 && b != GRISM
    ensures r.Ok? ==> r.value.Some? && IsMapPath(r.value.value)
    ensures b == F184 ==> r == Ok(Some(MapPath("HLTDS-deep_F184")))
    ensures b == F062 ==> r == Ok(Some(MapPath("HLTDS-wide_F062")))
    ensures b == PRISM || b == F158 || b == F129 || b == F106 || b == F087 ==>
      r == Ok(Some(MapPath("HLTDS-deep+wide_" + BandName(b))))
  {
    var stem: Option<string> :=
      if b == F184 then Some("HLTDS-deep_F184")
      else if b == F062 then Some("HLTDS-wide_F062")
      else if b == PRISM || b == F158 || b == F129 || b == F106 || b == F087 then Some("HLTDS-deep+wide_" + BandName(b))
      else None;
    if stem.None? then Raise(ValueError("element not available for HLTDS"))
    else
      MapPathShape(stem.value);
      Ok(Some(MapPath(stem.value)))
  }

  /** `get_survey_maps_uri` as written. An unknown survey or element raises
      first; GBTDS refuses "PRISM" and GPS refuses "F146", both compared without
      `upper()`; HLWAS without a tier falls through and returns None. */
  function SurveyMapsUri(survey: string, band: string, tier: Option<string>): (r: Result<Option<string>>)
    ensures ParseSurvey(survey).None? ==> r.Raise?
    ensures ParseBand(band).None? ==> r.Raise?
    ensures r.Ok? && r.value.Some? ==> IsMapPath(r.value.value)
    ensures r == Ok(None) <==> ParseSurvey(survey) == Some(HLWAS) && ParseBand(band).Some? && tier.None?
    ensures ParseSurvey(survey) == Some(HLWAS) && ParseBand(band).Some? && tier.Some? ==>
      r == HlwasMap(tier.value, ParseBand(band).value)
    ensures ParseSurvey(survey) == Some(HLTDS) && ParseBand(band).Some? ==> r == HltdsMap(ParseBand(band).value)
  {
    var s := ParseSurvey(survey);
    var b := ParseBand(band);
    if s.None? then Raise(ValueError("not one of the Community defined surveys"))
    else if b.None? then Raise(ValueError("not available on WFI"))
    else match s.value
      case GBTDS =>
        if band == "PRISM" then Raise(ValueError("no PRISM component for the GBTDS"))
        else
          MapPathShape(SurveyName(GBTDS) + "_" + BandName(b.value));
          Ok(Some(MapPath(SurveyName(GBTDS) + "_" + BandName(b.value))))
      case GPS =>
        if band == "F146" then Raise(ValueError("no F146 component for the GPS"))
        else
          MapPathShape(SurveyName(GPS) + "_" + BandName(b.value));
          Ok(Some(MapPath(SurveyName(GPS) + "_" + BandName(b.value))))
      case HLWAS => if tier.None? then Ok(None) else HlwasMap(tier.value, b.value)
      case HLTDS => HltdsMap(b.value)
  }

  /** GBTDS and GPS give every element its own map, named after the upper-cased
      element, except the one element each refuses by its exact spelling. */
  lemma OwnMapSurveys(survey: string, band: string, tier: Option<string>)
    requires ParseSurvey(survey) in {Some(GBTDS), Some(GPS)} && ParseBand(band).Some?
    ensures var refused := if ParseSurvey(survey) == Some(GBTDS) then "PRISM" else "F146";
      SurveyMapsUri(survey, band, tier).Raise? <==> band == refused
    ensures var refused := if ParseSurvey(survey) == Some(GBTDS) then "PRISM" else "F146";
      band != refused ==>
        SurveyMapsUri(survey, band, tier) == Ok(Some(MapPath(SurveyName(ParseSurvey(survey).value) + "_" + Upper(band))))
  {
  }

  /** The map each HLWAS tier hands out, from the strings the caller passes:
      elements with the same exposure time share one map (MEDIUM and
      ULTRADEEP the F158 one, DEEP the F213 one) and tier ALL reuses the deep
      maps for F087, F184, F213 and F146. The tier text is `tier.lower()`. */
  lemma HlwasMapNames(survey: string, band: string, tier: string)
    requires ParseSurvey(survey) == Some(HLWAS)
    ensures ParseTier(tier) == Some(Wide) && ParseBand(band) == Some(F158) ==>
      SurveyMapsUri(survey, band, Some(tier)) == Ok(Some(MapPath("HLWAS-" + TierText(tier) + "_F158")))
    ensures ParseTier(tier) == Some(Medium) && ParseBand(band) in {Some(F106), Some(F129), Some(F158)} ==>
      SurveyMapsUri(survey, band, Some(tier)) == Ok(Some(MapPath("HLWAS-" + TierText(tier) + "_F158")))
    ensures ParseTier(tier) == Some(Medium) && ParseBand(band) == Some(GRISM) ==>
      SurveyMapsUri(survey, band, Some(tier)) == Ok(Some(MapPath("HLWAS-" + TierText(tier) + "_GRISM")))
    ensures (ParseTier(tier) == Some(Deep) &&
             ParseBand(band) in {Some(F087), Some(F106), Some(F129), Some(F158), Some(F184), Some(F213)}) ==>
      SurveyMapsUri(survey, band, Some(tier)) == Ok(Some(MapPath("HLWAS-" + TierText(tier) + "_F213")))
    ensures ParseTier(tier) == Some(Deep) && ParseBand(band) in {Some(F146), Some(GRISM)} ==>
      SurveyMapsUri(survey, band, Some(tier)) == Ok(Some(MapPath("HLWAS-" + TierText(tier) + "_" + Upper(band))))
    ensures ParseTier(tier) == Some(UltraDeep) && ParseBand(band) in {Some(F106), Some(F129), Some(F158)} ==>
      SurveyMapsUri(survey, band, Some(tier)) == Ok(Some(MapPath("HLWAS-" + TierText(tier) + "_F158")))
    ensures ParseTier(tier) == Some(All) && ParseBand(band) in {Some(F087), Some(F184), Some(F213)} ==>
      SurveyMapsUri(survey, band, Some(tier)) == Ok(Some(MapPath("HLWAS-deep_F213")))
    ensures ParseTier(tier) == Some(All) && ParseBand(band) == Some(F146) ==>
      SurveyMapsUri(survey, band, Some(tier)) == Ok(Some(MapPath("HLWAS-deep_F146")))
    ensures ParseTier(tier) == Some(All) && ParseBand(band) == Some(F158) ==>
      SurveyMapsUri(survey, band, Some(tier)) == Ok(Some(MapPath("HLWAS-all_F158")))
    ensures ParseTier(tier) == Some(All) && ParseBand(band) == Some(GRISM) ==>
      SurveyMapsUri(survey, band, Some(tier)) == Ok(Some(MapPath("HLWAS-all_GRISM")))
    ensures ParseTier(tier) == Some(All) && ParseBand(band) in {Some(F106), Some(F129)} ==>
      SurveyMapsUri(survey, band, Some(tier)) == Ok(Some(MapPath("HLWAS-all_F106")))
  {
  }

  /** The map each HLTDS element gets, whatever the tier: F184 the deep map,
      F062 the wide map, five more elements the combined deep+wide map, and the
      other three none. */
  lemma HltdsMapNames(survey: string, band: string, tier: Option<string>)
    requires ParseSurvey(survey) == Some(HLTDS)
    ensures ParseBand(band) == Some(F184) ==> SurveyMapsUri(survey, band, tier) == Ok(Some(MapPath("HLTDS-deep_F184")))
    ensures ParseBand(band) == Some(F062) ==> SurveyMapsUri(survey, band, tier) == Ok(Some(MapPath("HLTDS-wide_F062")))
    ensures ParseBand(band) in {Some(PRISM), Some(F158), Some(F129), Some(F106), Some(F087)} ==>
      SurveyMapsUri(survey, band, tier) == Ok(Some(MapPath("HLTDS-deep+wide_" + Upper(band))))
    ensures ParseBand(band) in {Some(F146), Some(F213), Some(GRISM)} ==> SurveyMapsUri(survey, band, tier).Raise?
  {
  }

  /** HLTDS ignores the tier. */
  lemma HltdsIgnoresTier(survey: string, band: string, t1: Option<string>, t2: Option<string>)
    requires ParseSurvey(survey) == Some(HLTDS)
    ensures SurveyMapsUri(survey, band, t1) == SurveyMapsUri(survey, band, t2)
  {
  }

  /** The tier in an HLWAS path is the tier's own lower-case spelling, except
      that an exact "ULTRA-DEEP" loses its hyphen: "ultra-deep" or "Ultra-Deep"
      keep theirs. */
  lemma UltraDeepSpelling(tier: string)
    requires ParseTier(tier) == Some(UltraDeep)
    ensures tier == "ULTRA-DEEP" ==> TierText(tier) == "ultradeep"
    ensures Upper(tier) == "ULTRADEEP" ==> TierText(tier) == "ultradeep"
    ensures tier != "ULTRA-DEEP" && Upper(tier) == "ULTRA-DEEP" ==> TierText(tier) == "ultra-deep"
  {
    LowerOfUpper(tier);
    if tier != "ULTRA-DEEP" && Upper(tier) == "ULTRA-DEEP" {
      assert Lower(tier) == Lower("ULTRA-DEEP");
    }
  }

  // ---------------------------------------------------------------- as intended

  /** The lookup as its comments describe it: the element exclusions compared
      after `upper()`, any spelling of ultra-deep mapped to the ultradeep map,
      and HLWAS without a tier answering with the sum of all tiers, as its
      warning announces. */
  function SurveyMapsUriIntended(survey: string, band: string, tier: Option<string>): (r: Result<string>)
    ensures ParseSurvey(survey).None? || ParseBand(band).None? ==> r.Raise?
    ensures r.Ok? ==> IsMapPath(r.value)
  {
    UpperIdempotent(band);
    var t := if tier.None? then Some("ALL")
      else if Upper(tier.value) == "ULTRA-DEEP" then Some("ULTRADEEP")
      else tier;
    var written := SurveyMapsUri(survey, Upper(band), t);
    match written
    case Raise(e) => Raise(e)
    case Ok(p) => if p.Some? then Ok(p.value) else Raise(AssertionError)
  }

  /** The intended lookup always answers with a path or an error, and refuses
      GBTDS prisms and GPS F146 however they are spelled. */
  lemma IntendedAlwaysAnswers(survey: string, band: string, tier: Option<string>)
    requires ParseSurvey(survey).Some? && ParseBand(band).Some?
    ensures SurveyMapsUriIntended(survey, band, tier).Raise? ==>
      SurveyMapsUriIntended(survey, band, tier).error.ValueError?
    ensures ParseSurvey(survey) == Some(GBTDS) ==>
      (SurveyMapsUriIntended(survey, band, tier).Raise? <==> ParseBand(band) == Some(PRISM))
    ensures ParseSurvey(survey) == Some(GPS) ==>
      (SurveyMapsUriIntended(survey, band, tier).Raise? <==> ParseBand(band) == Some(F146))
  {
    UpperIdempotent(band);
    assert ParseBand(Upper(band)) == ParseBand(band);
  }

  /** Where the code already behaves as intended (upper-case element, a tier
      given and not a mis-cased ultra-deep), the two agree. */
  lemma IntendedAgrees(survey: string, band: string, tier: string)
    requires Upper(band) == band
    requires Upper(tier) != "ULTRA-DEEP" || tier == "ULTRA-DEEP"
    ensures SurveyMapsUriIntended(survey, band, Some(tier)).Ok? <==> SurveyMapsUri(survey, band, Some(tier)).Ok?
    ensures SurveyMapsUriIntended(survey, band, Some(tier)).Ok? ==>
      SurveyMapsUri(survey, band, Some(tier)) == Ok(Some(SurveyMapsUriIntended(survey, band, Some(tier)).value))
  {
    var written := SurveyMapsUri(survey, band, Some(tier));
    if Upper(tier) == "ULTRA-DEEP" {
      UltraDeepRewrite();
      SameTierSameUri(survey, band, tier, "ULTRADEEP");
    }
    assert SurveyMapsUriIntended(survey, band, Some(tier)) ==
      match written
      case Raise(e) => Raise(e)
      case Ok(p) => if p.Some? then Ok(p.value) else Raise(AssertionError);
    assert written != Ok(None);
  }

  /** The two spellings the code maps to the ultradeep tier. */
  lemma UltraDeepRewrite()
    ensures ParseTier("ULTRA-DEEP") == Some(UltraDeep) && ParseTier("ULTRADEEP") == Some(UltraDeep)
    ensures TierText("ULTRA-DEEP") == TierText("ULTRADEEP")
  {
    UpperOfStable("ULTRA-DEEP");
    UpperOfStable("ULTRADEEP");
  }

  /** The lookup sees a tier only through the tier it names and the text it
      puts in the path. */
  lemma SameTierSameUri(survey: string, band: string, t1: string, t2: string)
    requires ParseTier(t1) == ParseTier(t2) && TierText(t1) == TierText(t2)
    ensures SurveyMapsUri(survey, band, Some(t1)) == SurveyMapsUri(survey, band, Some(t2))
  {
    if ParseBand(band).Some? {
      assert HlwasMap(t1, ParseBand(band).value) == HlwasMap(t2, ParseBand(band).value);
    }
  }

  /** Intended: HLWAS without a tier is HLWAS with tier "ALL". */
  lemma IntendedDefaultTier(survey: string, band: string)
    requires ParseSurvey(survey) == Some(HLWAS)
    ensures SurveyMapsUriIntended(survey, band, None) == SurveyMapsUriIntended(survey, band, Some("ALL"))
  {
    assert Upper("ALL") == "ALL";
  }

  /** As written, HLWAS without a tier returns nothing for F158, where the
      intended lookup returns the F158 map of all tiers. */
  lemma HlwasWithoutTierReturnsNothing(survey: string, band: string)
    requires ParseSurvey(survey) == Some(HLWAS) && ParseBand(band) == Some(F158)
    ensures SurveyMapsUri(survey, band, None) == Ok(None)
    ensures SurveyMapsUriIntended(survey, band, None) == Ok(MapPath("HLWAS-all_F158"))
  {
    UpperIdempotent(band);
    assert ParseBand(Upper(band)) == Some(F158);
    assert Upper("ALL") == "ALL";
    assert ParseTier("ALL") == Some(All);
  }

  /** As written, a GBTDS "prism" spelled in lower case gets past the exact
      comparison and is sent to a PRISM map the survey does not have. */
  lemma LowerCasePrismGetsMap(survey: string)
    requires ParseSurvey(survey) == Some(GBTDS)
    ensures SurveyMapsUri(survey, "prism", None) == Ok(Some(MapPath(SurveyName(GBTDS) + "_" + BandName(PRISM))))
    ensures SurveyMapsUriIntended(survey, "prism", None).Raise?
  {
    assert Upper("prism") == "PRISM";
    assert ParseBand("prism") == Some(PRISM);
    IntendedAlwaysAnswers(survey, "prism", None);
  }

  /** Intended: every spelling of ultra-deep selects the same ultradeep map. */
  lemma IntendedUltraDeep(survey: string, band: string, tier: string)
    requires ParseSurvey(survey) == Some(HLWAS) && ParseTier(tier) == Some(UltraDeep)
    requires ParseBand(band) in {Some(F106), Some(F129), Some(F158)}
    ensures SurveyMapsUriIntended(survey, band, Some(tier)) == Ok(MapPath("HLWAS-" + Lower("ULTRADEEP") + "_F158"))
  {
    UpperIdempotent(band);
    assert ParseBand(Upper(band)) == ParseBand(band);
    if Upper(tier) == "ULTRADEEP" {
      LowerOfUpper(tier);
    } else {
      assert Upper("ULTRADEEP") == "ULTRADEEP";
    }
  }
}
