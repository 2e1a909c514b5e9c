/** The tables of `soil_api/models/soil_property.py`: unit metadata and conversion factors per
    property, the depth-label reverse lookup, and the depth top/bottom/unit tables. The
    property and depth enums themselves are the ones of `SoilModels`. */
module SoilPropertyTables {
  import opened Wrappers
  import opened SoilModels

  /** `SoilPropertiesMappedUnits`: the unit of the values stored in the rasters. */
  function MappedUnit(p: SoilProperty): string {
    match p
    case Bdod => "cg/cm³"      case Cec => "mmol(c)/kg"  case Cfvo => "cm³/dm³"
    case Clay => "g/kg"        case Nitrogen => "cg/kg"  case Ocd => "hg/m³"
    case Ocs => "t/ha"         case Phh2o => "pH*10"     case Sand => "g/kg"
    case Silt => "g/kg"        case Soc => "dg/kg"
  }

  /** `SoilPropertiesTargetUnits`: the conventional unit, reached by dividing by the factor. */
  function TargetUnit(p: SoilProperty): string {
    match p
    case Bdod => "kg/dm³"      case Cec => "cmol(c)/kg"  case Cfvo => "cm³/100cm³"
    case Clay => "%"           case Nitrogen => "g/kg"   case Ocd => "hg/m³"
    case Ocs => "kg/m²"        case Phh2o => "pH"        case Sand => "%"
    case Silt => "%"           case Soc => "g/kg"
  }

  /** `SoilPropertiesConversionFactors`. */
  function ConversionFactor(p: SoilProperty): int {
    match p
    case Bdod => 100  case Cec => 10   case Cfvo => 10   case Clay => 10
    case Nitrogen => 100   case Ocd => 10   case Ocs => 10   case Phh2o => 10
    case Sand => 10   case Silt => 10   case Soc => 10
  }

  /** The factor is 100 for bulk density and nitrogen and 10 for every other property,
      so dividing by it is always defined. */
  lemma {:induction false} ConversionFactorPositive(p: SoilProperty)
    ensures ConversionFactor(p) == (if p == Bdod || p == Nitrogen then 100 else 10)
    ensures ConversionFactor(p) > 0
  {
  }

  /** The mapped-unit table agrees entry by entry with `SoilPropertyUnits`, the unit a layer
      is reported in. */
  lemma {:induction false} MappedUnitsAgree(p: SoilProperty)
    ensures MappedUnit(p) == PropertyUnit(p)
  {
  }

  // ---------------------------------------------------------------------------------------------
  // Depth labels

  /** `REVERSE_DEPTH_LOOKUP`: each label mapped to its member's name. */
  function ReverseDepthLookup(): map<string, string> {
    map d | d in AllDepthLabels :: DepthLabel(d) := DepthMemberName(d)
  }

  datatype ValueError = ValueError(message: string)

  /** `get_soil_depth_from_label`: the member name for a label, or the `ValueError` raised for
      any other string. */
  function GetSoilDepthFromLabel(depthString: string): Result<string, ValueError> {
    var lookup := ReverseDepthLookup();
    if depthString in lookup then Success(lookup[depthString])
    else Failure(ValueError("No soil depth label found for '" + depthString + "'"))
  }

  /** The lookup is defined for exactly the 7 labels; any other string raises `ValueError`
      with a message naming it. */
  lemma {:induction false} GetSoilDepthFromLabelDomain(depthString: string)
    ensures GetSoilDepthFromLabel(depthString).Success? <==>
      exists d :: DepthLabel(d) == depthString
    ensures GetSoilDepthFromLabel(depthString).Failure? ==>
      GetSoilDepthFromLabel(depthString).error.message ==
        "No soil depth label found for '" + depthString + "'"
  {
    DepthLabelsDistinct();
  }

  /** Every member's label gives back that member's name, so the member found for a label
      is the one carrying it. */
  lemma {:induction false} GetSoilDepthFromLabelRoundTrip(d: SoilDepthLabel)
    ensures GetSoilDepthFromLabel(DepthLabel(d)) == Success(DepthMemberName(d))
  {
    DepthLabelsDistinct();
    var lookup := ReverseDepthLookup();
    assert DepthLabel(d) in lookup;
    forall e | DepthLabel(e) == DepthLabel(d) ensures DepthMemberName(e) == DepthMemberName(d) {
      DepthLabelInjective(d, e);
    }
  }

  /** `SoilDepthLabels[name]`: the member with that member name, if any. */
  function DepthByMemberName(name: string): (r: Option<SoilDepthLabel>)
    ensures r.Some? ==> DepthMemberName(r.value) == name
  {
    if name == "depth_0_5" then Some(Depth0To5)
    else if name == "depth_0_30" then Some(Depth0To30)
    else if name == "depth_5_15" then Some(Depth5To15)
    else if name == "depth_15_30" then Some(Depth15To30)
    else if name == "depth_30_60" then Some(Depth30To60)
    else if name == "depth_60_100" then Some(Depth60To100)
    else if name == "depth_100_200" then Some(Depth100To200)
    else None
  }

  /** Looking a member up by its own name finds it. */
  lemma {:induction false} DepthByMemberNameRoundTrip(d: SoilDepthLabel)
    ensures DepthByMemberName(DepthMemberName(d)) == Some(d)
  {
  }

  /** Round trip: whenever a label is found, looking the returned member name up again gives a
      member whose label is the input string. */
  lemma {:induction false} GetSoilDepthFromLabelLookupBack(depthString: string)
    ensures GetSoilDepthFromLabel(depthString).Success? ==>
      var back := DepthByMemberName(GetSoilDepthFromLabel(depthString).value);
      back.Some? && DepthLabel(back.value) == depthString
  {
    GetSoilDepthFromLabelDomain(depthString);
    if GetSoilDepthFromLabel(depthString).Success? {
      var d :| DepthLabel(d) == depthString;
      GetSoilDepthFromLabelRoundTrip(d);
      DepthByMemberNameRoundTrip(d);
    }
  }

  // ---------------------------------------------------------------------------------------------
  // Depth ranges

  /** `SoilDepthTop`. */
  function DepthTop(d: SoilDepthLabel): int {
    match d
    case Depth0To5 => 0     case Depth0To30 => 0      case Depth5To15 => 5     case Depth15To30 => 15
    case Depth30To60 => 30  case Depth60To100 => 60   case Depth100To200 => 100
  }

  /** `SoilDepthBottom`. */
  function DepthBottom(d: SoilDepthLabel): int {
    match d
    case Depth0To5 => 5     case Depth0To30 => 30     case Depth5To15 => 15    case Depth15To30 => 30
    case Depth30To60 => 60  case Depth60To100 => 100  case Depth100To200 => 200
  }

  /** `SoilDepthUnits`. */
  function DepthUnit(d: SoilDepthLabel): string {
    match d
    case Depth0To5 => "cm"     case Depth0To30 => "cm"     case Depth5To15 => "cm"
    case Depth15To30 => "cm"   case Depth30To60 => "cm"    case Depth60To100 => "cm"
    case Depth100To200 => "cm"
  }

  /** The range a depth entry of a layer reports for a label. */
  function DepthRangeOf(d: SoilDepthLabel): DepthRange {
    DepthRange(DepthTop(d), DepthBottom(d), DepthUnit(d))
  }

  /** Every interval is non-empty and measured in centimetres. */
  lemma {:induction false} DepthRangesWellFormed(d: SoilDepthLabel)
    ensures DepthRangeOf(d).topDepth < DepthRangeOf(d).bottomDepth
    ensures DepthRangeOf(d).unitDepth == "cm"
  {
  }

  /** The six standard intervals, top to bottom. */
  const StandardDepths: seq<SoilDepthLabel> :=
    [Depth0To5, Depth5To15, Depth15To30, Depth30To60, Depth60To100, Depth100To200]

  /** The standard intervals tile 0..200 cm without gaps or overlaps, and the special
      0-30 cm interval covers exactly the first three of them. */
  lemma {:induction false} StandardDepthsChain()
    ensures DepthTop(StandardDepths[0]) == 0 && DepthBottom(StandardDepths[5]) == 200
    ensures forall i :: 0 <= i < 5 ==> DepthBottom(StandardDepths[i]) == DepthTop(StandardDepths[i + 1])
    ensures DepthTop(Depth0To30) == DepthTop(StandardDepths[0])
    ensures DepthBottom(Depth0To30) == DepthBottom(StandardDepths[2])
    ensures forall d :: d in AllDepthLabels <==> d in StandardDepths || d == Depth0To30
  {
    DepthLabelsDistinct();
  }
}
