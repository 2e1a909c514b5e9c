/** `soil_api/utils/response_generator.py`: turning one property's grouped values into the
    `SoilLayer` of a response. */
module ResponseGenerator {
  import opened Wrappers
  import opened SoilModels
  import opened SoilPropertyTables
  import opened OrderedDict

  /** The grouped values of one property: depth label to statistic to value, with the depths
      in first-insertion order. */
  type DepthValues = Dict<SoilDepthLabel, map<Statistic, int>>

  /** `values.get(s)`: the statistic's value, or absent. */
  function Get(values: map<Statistic, int>, s: Statistic): Option<int> {
    if s in values then Some(values[s]) else None
  }

  /** `SoilPropertyValues(**values)`: each field read from `values`, absent when missing. */
  function ValuesOf(values: map<Statistic, int>): SoilPropertyValues {
    SoilPropertyValues(
      mean := Get(values, Mean), q0_05 := Get(values, Q0_05), q0_5 := Get(values, Q0_5),
      q0_95 := Get(values, Q0_95), uncertainty := Get(values, Uncertainty))
  }

  lemma {:induction false} ValuesOfFields(values: map<Statistic, int>)
    ensures forall s :: StatisticField(ValuesOf(values), s) == Get(values, s)
  {
    forall s ensures StatisticField(ValuesOf(values), s) == Get(values, s) {
      match s
      case Mean => case Q0_05 => case Q0_5 => case Q0_95 => case Uncertainty =>
    }
  }

  /** `generate_soil_depth`: a statistic present in `values` fills its field; every other field
      keeps its default, absent. */
  function GenerateSoilDepth(values: map<Statistic, int>, depth: SoilDepthLabel, range: DepthRange): (r: SoilDepth)
    ensures r.depthLabel == depth && r.range == range
    ensures forall s :: StatisticField(r.values, s) == if s in values then Some(values[s]) else None
  {
    ValuesOfFields(values);
    SoilDepth(range, depth, ValuesOf(values))
  }

  /** The layer `generate_soil_layer` builds: the table entries for the property, and one
      depth entry per key of the grouped values, in key order. */
  function SoilLayerOf(property: SoilProperty, info: DepthValues): (r: SoilLayer)
    requires Valid(info)
    ensures r.code == PropertyCode(property) && r.name == PropertyName(property)
    ensures r.unit == PropertyUnit(property)
    ensures |r.depths| == |info.keys|
    ensures forall i :: 0 <= i < |info.keys| ==>
      r.depths[i].depthLabel == info.keys[i] && r.depths[i].range == DepthRangeOf(info.keys[i])
    ensures forall i, s :: 0 <= i < |info.keys| ==>
      StatisticField(r.depths[i].values, s) == Get(info.entries[info.keys[i]], s)
  {
    var depths := seq(|info.keys|, i requires 0 <= i < |info.keys| =>
      GenerateSoilDepth(info.entries[info.keys[i]], info.keys[i], DepthRangeOf(info.keys[i])));
    SoilLayer(PropertyCode(property), PropertyName(property), PropertyUnit(property), depths)
  }

  /** `generate_soil_layer`: walks the depth keys in order, appending one depth entry each. */
  method GenerateSoilLayer(property: SoilProperty, info: DepthValues) returns (layer: SoilLayer)
    requires Valid(info)
    ensures layer == SoilLayerOf(property, info)
  {
    var depths := info.keys;
    var soilDepths: seq<SoilDepth> := [];
    var i := 0;
    while i < |depths|
      invariant 0 <= i <= |depths|
      invariant |soilDepths| == i
      invariant forall k :: 0 <= k < i ==>
        soilDepths[k] == GenerateSoilDepth(info.entries[depths[k]], depths[k], DepthRangeOf(depths[k]))
    {
      var depth := depths[i];
      var values := info.entries[depth];
      soilDepths := soilDepths + [GenerateSoilDepth(values, depth, DepthRangeOf(depth))];
      i := i + 1;
    }
    layer := SoilLayer(PropertyCode(property), PropertyName(property), PropertyUnit(property), soilDepths);
  }

  /** A layer's code, name and unit depend on the property alone, never on the values sampled,
      and no grouped values gives no depth entries. */
  lemma {:induction false} LayerMetadataIndependent(property: SoilProperty, a: DepthValues, b: DepthValues)
    requires Valid(a) && Valid(b)
    ensures SoilLayerOf(property, a).code == SoilLayerOf(property, b).code
    ensures SoilLayerOf(property, a).name == SoilLayerOf(property, b).name
    ensures SoilLayerOf(property, a).unit == SoilLayerOf(property, b).unit
    ensures a.keys == [] ==> SoilLayerOf(property, a).depths == []
  {
  }
}
