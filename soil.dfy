/** The enumerations and record shapes of `soil_api/models/soil.py`, the module the routes
    import their types from. Python enums become datatypes; each enum's member names and values
    become total functions on that datatype. */
module SoilModels {
  import opened Wrappers
  import Text

  // ---------------------------------------------------------------------------------------------
  // SoilTypes: t0 .. t29, then No_information

  /** The members of `SoilTypes`, in declaration order; constructors are named after the values. */
  datatype SoilType =
    | Acrisols | Albeluvisols | Alisols | Andosols | Arenosols
    | Calcisols | Cambisols | Chernozems | Cryosols | Durisols
    | Ferralsols | Fluvisols | Gleysols | Gypsisols | Histosols
    | Kastanozems | Leptosols | Lixisols | Luvisols | Nitisols
    | Phaeozems | Planosols | Plinthosols | Podzols | Regosols
    | Solonchaks | Solonetz | Stagnosols | Umbrisols | Vertisols
    | NoInformation

  /** Position of a member in declaration order. */
  function Index(t: SoilType): (i: nat)
    ensures i < 31
    ensures i == 30 <==> t == NoInformation
  {
    match t
    case Acrisols => 0      case Albeluvisols => 1  case Alisols => 2      case Andosols => 3
    case Arenosols => 4     case Calcisols => 5     case Cambisols => 6    case Chernozems => 7
    case Cryosols => 8      case Durisols => 9      case Ferralsols => 10  case Fluvisols => 11
    case Gleysols => 12     case Gypsisols => 13    case Histosols => 14   case Kastanozems => 15
    case Leptosols => 16    case Lixisols => 17     case Luvisols => 18    case Nitisols => 19
    case Phaeozems => 20    case Planosols => 21    case Plinthosols => 22 case Podzols => 23
    case Regosols => 24     case Solonchaks => 25   case Solonetz => 26    case Stagnosols => 27
    case Umbrisols => 28    case Vertisols => 29    case NoInformation => 30
  }

  /** The member at a position in declaration order. */
  function FromIndex(i: int): SoilType
    requires 0 <= i < 31
  {
    match i
    case 0 => Acrisols      case 1 => Albeluvisols  case 2 => Alisols      case 3 => Andosols
    case 4 => Arenosols     case 5 => Calcisols     case 6 => Cambisols    case 7 => Chernozems
    case 8 => Cryosols      case 9 => Durisols      case 10 => Ferralsols  case 11 => Fluvisols
    case 12 => Gleysols     case 13 => Gypsisols    case 14 => Histosols   case 15 => Kastanozems
    case 16 => Leptosols    case 17 => Lixisols     case 18 => Luvisols    case 19 => Nitisols
    case 20 => Phaeozems    case 21 => Planosols    case 22 => Plinthosols case 23 => Podzols
    case 24 => Regosols     case 25 => Solonchaks   case 26 => Solonetz    case 27 => Stagnosols
    case 28 => Umbrisols    case 29 => Vertisols    case _ => NoInformation
  }

  /** Iterating over `SoilTypes`: every member once, in declaration order. */
  function AllSoilTypes(): seq<SoilType> {
    seq(31, i requires 0 <= i < 31 => FromIndex(i))
  }

  /** The enum's member names: `t0` .. `t29`, "t" followed by the member's position, then
      `No_information`. */
  function MemberName(t: SoilType): string {
    if t == NoInformation then "No_information" else "t" + Text.IntToDecimal(Index(t))
  }

  /** The enum's values, the strings a response carries. */
  function Value(t: SoilType): string {
    match t
    case Acrisols => "Acrisols"       case Albeluvisols => "Albeluvisols" case Alisols => "Alisols"
    case Andosols => "Andosols"       case Arenosols => "Arenosols"       case Calcisols => "Calcisols"
    case Cambisols => "Cambisols"     case Chernozems => "Chernozems"     case Cryosols => "Cryosols"
    case Durisols => "Durisols"       case Ferralsols => "Ferralsols"     case Fluvisols => "Fluvisols"
    case Gleysols => "Gleysols"       case Gypsisols => "Gypsisols"       case Histosols => "Histosols"
    case Kastanozems => "Kastanozems" case Leptosols => "Leptosols"       case Lixisols => "Lixisols"
    case Luvisols => "Luvisols"       case Nitisols => "Nitisols"         case Phaeozems => "Phaeozems"
    case Planosols => "Planosols"     case Plinthosols => "Plinthosols"   case Podzols => "Podzols"
    case Regosols => "Regosols"       case Solonchaks => "Solonchaks"     case Solonetz => "Solonetz"
    case Stagnosols => "Stagnosols"   case Umbrisols => "Umbrisols"       case Vertisols => "Vertisols"
    case NoInformation => "No information available."
  }

  /** The first member of `ts` with the given name; `SoilTypes.__members__.get(name)` when
      `ts` is `AllSoilTypes()`. */
  function FindByName(ts: seq<SoilType>, name: string): (r: Option<SoilType>)
    ensures r.Some? ==> r.value in ts && MemberName(r.value) == name
    ensures r.None? ==> forall t :: t in ts ==> MemberName(t) != name
  {
    if ts == [] then None
    else if MemberName(ts[0]) == name then Some(ts[0])
    else FindByName(ts[1..], name)
  }

  /** `SoilTypes.__members__.get(name)`. */
  function LookupMember(name: string): Option<SoilType> {
    FindByName(AllSoilTypes(), name)
  }

  lemma {:induction false} IndexRoundTrip(t: SoilType)
    ensures FromIndex(Index(t)) == t
  {
  }

  /** `SoilTypes` has exactly 31 members: t0 .. t29 in declaration order, then No_information,
      and every member is listed once. */
  lemma {:induction false} SoilTypesEnumeration()
    ensures |AllSoilTypes()| == 31
    ensures AllSoilTypes()[30] == NoInformation
    ensures forall i :: 0 <= i < 31 ==> Index(AllSoilTypes()[i]) == i
    ensures forall t :: t in AllSoilTypes()
  {
    forall t ensures t in AllSoilTypes() {
      IndexRoundTrip(t);
      assert AllSoilTypes()[Index(t)] == t;
    }
  }

  lemma {:induction false} FromIndexRoundTrip(i: int)
    requires 0 <= i < 31
    ensures Index(FromIndex(i)) == i
  {
  }

  lemma {:induction false} IndexInjective(a: SoilType, b: SoilType)
    ensures Index(a) == Index(b) ==> a == b
  {
    IndexRoundTrip(a);
    IndexRoundTrip(b);
  }

  /** A member name starts with 't' exactly for the 30 numbered members, and the rest of it
      is then the member's position in decimal. */
  lemma {:induction false} MemberNameShape(t: SoilType)
    ensures |MemberName(t)| > 0
    ensures MemberName(t)[0] == 't' <==> t != NoInformation
    ensures t != NoInformation ==> MemberName(t)[1..] == Text.IntToDecimal(Index(t))
  {
  }

  /** Member names are pairwise distinct. */
  lemma {:induction false} MemberNameInjective(a: SoilType, b: SoilType)
    ensures MemberName(a) == MemberName(b) ==> a == b
  {
    MemberNameShape(a);
    MemberNameShape(b);
    if MemberName(a) == MemberName(b) && a != NoInformation {
      Text.IntToDecimalInjective(Index(a), Index(b));
      IndexInjective(a, b);
    }
  }

  /** Looking a member up by its own name finds that member. */
  lemma {:induction false} LookupMemberName(t: SoilType)
    ensures LookupMember(MemberName(t)) == Some(t)
  {
    SoilTypesEnumeration();
    var r := LookupMember(MemberName(t));
    MemberNameInjective(r.value, t);
  }

  /** The `SoilTypes` values are pairwise distinct, so a value determines its member. The values
      are compared in blocks of ten positions, which keeps each proof small. */
  lemma {:induction false} ValueInjective(a: SoilType, b: SoilType)
    ensures Value(a) == Value(b) ==> a == b
  {
    var i, j := Index(a) / 10, Index(b) / 10;
    if i == 0 && j == 0 { ValueInjectiveFirstBlock(a, b); }
    else if i == 1 && j == 1 { ValueInjectiveSecondBlock(a, b); }
    else if i >= 2 && j >= 2 { ValueInjectiveThirdBlock(a, b); }
    else if i == 0 && j == 1 { ValueDistinctFirstSecond(a, b); }
    else if i == 1 && j == 0 { ValueDistinctFirstSecond(b, a); }
    else if i == 0 { ValueDistinctFirstThird(a, b); }
    else if j == 0 { ValueDistinctFirstThird(b, a); }
    else if i == 1 { ValueDistinctSecondThird(a, b); }
    else { ValueDistinctSecondThird(b, a); }
  }

  lemma {:induction false} ValueInjectiveFirstBlock(a: SoilType, b: SoilType)
    requires Index(a) < 10 && Index(b) < 10
    ensures Value(a) == Value(b) ==> a == b
  {
  }

  lemma {:induction false} ValueInjectiveSecondBlock(a: SoilType, b: SoilType)
    requires 10 <= Index(a) < 20 && 10 <= Index(b) < 20
    ensures Value(a) == Value(b) ==> a == b
  {
  }

  lemma {:induction false} ValueInjectiveThirdBlock(a: SoilType, b: SoilType)
    requires 20 <= Index(a) && 20 <= Index(b)
    ensures Value(a) == Value(b) ==> a == b
  {
  }

  lemma {:induction false} ValueDistinctFirstSecond(a: SoilType, b: SoilType)
    requires Index(a) < 10 && 10 <= Index(b) < 20
    ensures Value(a) != Value(b)
  {
  }

  lemma {:induction false} ValueDistinctFirstThird(a: SoilType, b: SoilType)
    requires Index(a) < 10 && 20 <= Index(b)
    ensures Value(a) != Value(b)
  {
  }

  lemma {:induction false} ValueDistinctSecondThird(a: SoilType, b: SoilType)
    requires 10 <= Index(a) < 20 && 20 <= Index(b)
    ensures Value(a) != Value(b)
  {
  }

  // ---------------------------------------------------------------------------------------------
  // Soil type records

  /** `SoilTypeProbability`: a soil type and its sampled probability. */
  datatype SoilTypeProbability = SoilTypeProbability(soilType: SoilType, probability: int)

  /** `SoilTypeInfo`; `probabilities` is optional and defaults to `None`. */
  datatype SoilTypeInfo = SoilTypeInfo(
    soilType: SoilType,
    probabilities: Option<seq<SoilTypeProbability>> := None)

  // ---------------------------------------------------------------------------------------------
  // Soil property tables: SoilPropertiesNames, SoilPropertiesCodes, SoilPropertyUnits

  /** The members shared by the three property enums, in declaration order. */
  datatype SoilProperty = Bdod | Cec | Cfvo | Clay | Nitrogen | Ocd | Ocs | Phh2o | Sand | Silt | Soc

  const AllSoilProperties: seq<SoilProperty> :=
    [Bdod, Cec, Cfvo, Clay, Nitrogen, Ocd, Ocs, Phh2o, Sand, Silt, Soc]

  /** The member names, the same in all three enums. */
  function PropertyMemberName(p: SoilProperty): string {
    match p
    case Bdod => "bdod"   case Cec => "cec"     case Cfvo => "cfvo"   case Clay => "clay"
    case Nitrogen => "nitrogen"   case Ocd => "ocd"   case Ocs => "ocs"   case Phh2o => "phh2o"
    case Sand => "sand"   case Silt => "silt"   case Soc => "soc"
  }

  /** `SoilPropertiesNames`. */
  function PropertyName(p: SoilProperty): string {
    match p
    case Bdod => "Bulk density"
    case Cec => "Cation exchange capacity (CEC pH 7)"
    case Cfvo => "Coarse fragments"
    case Clay => "Clay"
    case Nitrogen => "Nitrogen"
    case Ocd => "Organic carbon density"
    case Ocs => "Organic carbon stocks"
    case Phh2o => "pH water"
    case Sand => "Sand"
    case Silt => "Silt"
    case Soc => "Soil organic carbon"
  }

  /** `SoilPropertiesCodes`. */
  function PropertyCode(p: SoilProperty): string {
    match p
    case Bdod => "bdod"   case Cec => "cec"     case Cfvo => "cfvo"   case Clay => "clay"
    case Nitrogen => "nitrogen"   case Ocd => "ocd"   case Ocs => "ocs"   case Phh2o => "phh2o"
    case Sand => "sand"   case Silt => "silt"   case Soc => "soc"
  }

  /** `SoilPropertyUnits`. */
  function PropertyUnit(p: SoilProperty): string {
    match p
    case Bdod => "cg/cm³"      case Cec => "mmol(c)/kg"  case Cfvo => "cm³/dm³"
    case Clay => "g/kg"        case Nitrogen => "cg/kg"  case Ocd => "hg/m³"
    case Ocs => "t/ha"         case Phh2o => "pH*10"     case Sand => "g/kg"
    case Silt => "g/kg"        case Soc => "dg/kg"
  }

  /** `__members__[name]` on any of the three property enums: the first member with that name. */
  function FindPropertyByName(ps: seq<SoilProperty>, name: string): (r: Option<SoilProperty>)
    ensures r.Some? ==> r.value in ps && PropertyMemberName(r.value) == name
    ensures r.None? ==> forall p :: p in ps ==> PropertyMemberName(p) != name
  {
    if ps == [] then None
    else if PropertyMemberName(ps[0]) == name then Some(ps[0])
    else FindPropertyByName(ps[1..], name)
  }

  lemma {:induction false} PropertyMemberNameInjective(a: SoilProperty, b: SoilProperty)
    ensures PropertyMemberName(a) == PropertyMemberName(b) ==> a == b
  {
  }

  /** The three property enums are keyed by the same 11 names, so looking up a property code
      in any of them succeeds and finds that property; each code equals its member name. */
  lemma {:induction false} PropertyLookupsTotal(p: SoilProperty)
    ensures FindPropertyByName(AllSoilProperties, PropertyCode(p)) == Some(p)
    ensures PropertyCode(p) == PropertyMemberName(p)
    ensures |AllSoilProperties| == 11
  {
    assert p in AllSoilProperties by {
      match p
      case Bdod =>  case Cec =>  case Cfvo =>  case Clay =>  case Nitrogen =>  case Ocd =>
      case Ocs =>   case Phh2o => case Sand =>  case Silt =>  case Soc =>
    }
    var r := FindPropertyByName(AllSoilProperties, PropertyCode(p));
    if r.Some? {
      PropertyMemberNameInjective(r.value, p);
    }
  }

  // ---------------------------------------------------------------------------------------------
  // SoilPropertyValues: the five statistics

  /** The field names of `SoilPropertyValues`, which are also the grouping keys of a request. */
  datatype Statistic = Mean | Q0_05 | Q0_5 | Q0_95 | Uncertainty

  const AllStatistics: seq<Statistic> := [Mean, Q0_05, Q0_5, Q0_95, Uncertainty]

  function StatisticName(s: Statistic): string {
    match s
    case Mean => "mean"  case Q0_05 => "Q0_05"  case Q0_5 => "Q0_5"  case Q0_95 => "Q0_95"
    case Uncertainty => "uncertainty"
  }

  /** `SoilPropertyValues`: every statistic is optional and defaults to `None`. */
  datatype SoilPropertyValues = SoilPropertyValues(
    mean: Option<int> := None,
    q0_05: Option<int> := None,
    q0_5: Option<int> := None,
    q0_95: Option<int> := None,
    uncertainty: Option<int> := None)

  /** The field of a `SoilPropertyValues` named by a statistic. */
  function StatisticField(v: SoilPropertyValues, s: Statistic): Option<int> {
    match s
    case Mean => v.mean  case Q0_05 => v.q0_05  case Q0_5 => v.q0_5  case Q0_95 => v.q0_95
    case Uncertainty => v.uncertainty
  }

  // ---------------------------------------------------------------------------------------------
  // SoilDepthLabels

  /** The members of `SoilDepthLabels`, in declaration order. */
  datatype SoilDepthLabel =
    Depth0To5 | Depth5To15 | Depth15To30 | Depth30To60 | Depth60To100 | Depth100To200 | Depth0To30

  const AllDepthLabels: seq<SoilDepthLabel> :=
    [Depth0To5, Depth5To15, Depth15To30, Depth30To60, Depth60To100, Depth100To200, Depth0To30]

  function DepthMemberName(d: SoilDepthLabel): string {
    match d
    case Depth0To5 => "depth_0_5"       case Depth5To15 => "depth_5_15"
    case Depth15To30 => "depth_15_30"   case Depth30To60 => "depth_30_60"
    case Depth60To100 => "depth_60_100" case Depth100To200 => "depth_100_200"
    case Depth0To30 => "depth_0_30"
  }

  /** The enum's values: the depth strings of requests, file names and responses. */
  function DepthLabel(d: SoilDepthLabel): string {
    match d
    case Depth0To5 => "0-5cm"       case Depth5To15 => "5-15cm"     case Depth15To30 => "15-30cm"
    case Depth30To60 => "30-60cm"   case Depth60To100 => "60-100cm" case Depth100To200 => "100-200cm"
    case Depth0To30 => "0-30cm"
  }

  /** `SoilDepthLabels` has 7 members with pairwise-distinct labels and member names. */
  lemma {:induction false} DepthLabelsDistinct()
    ensures |AllDepthLabels| == 7
    ensures forall d :: d in AllDepthLabels
    ensures forall i, j :: 0 <= i < j < |AllDepthLabels| ==>
      DepthLabel(AllDepthLabels[i]) != DepthLabel(AllDepthLabels[j]) &&
      DepthMemberName(AllDepthLabels[i]) != DepthMemberName(AllDepthLabels[j])
  {
    forall d ensures d in AllDepthLabels {
      match d
      case Depth0To5 =>       case Depth5To15 =>    case Depth15To30 =>  case Depth30To60 =>
      case Depth60To100 =>    case Depth100To200 => case Depth0To30 =>
    }
  }

  lemma {:induction false} DepthLabelInjective(a: SoilDepthLabel, b: SoilDepthLabel)
    ensures DepthLabel(a) == DepthLabel(b) ==> a == b
  {
  }

  // ---------------------------------------------------------------------------------------------
  // Response shapes

  /** `DepthRange`. */
  datatype DepthRange = DepthRange(topDepth: int, bottomDepth: int, unitDepth: string)

  /** `SoilDepth`; the `label` field is `depthLabel` (`label` is a Dafny keyword). */
  datatype SoilDepth = SoilDepth(range: DepthRange, depthLabel: SoilDepthLabel, values: SoilPropertyValues)

  /** `SoilLayer`; `code`, `name` and `unit` hold the values of the three enum members. */
  datatype SoilLayer = SoilLayer(code: string, name: string, unit: string, depths: seq<SoilDepth>)

  /** `PointGeometry`: `[longitude, latitude]`. */
  datatype PointGeometry = PointGeometry(coordinates: seq<real>)

  /** `SoilTypeJSON`. */
  datatype SoilTypeJSON = SoilTypeJSON(geometry: PointGeometry, properties: SoilTypeInfo)

  /** `SoilPropertyJSON`, with `SoilLayerList.layers` as `layers`. */
  datatype SoilPropertyJSON = SoilPropertyJSON(geometry: PointGeometry, layers: seq<SoilLayer>)
}
