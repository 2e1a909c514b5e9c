/** What the routes share: the raster reads they issue, the order-preserving fan-out that
    issues them (`run_sequential`, and `run_parallel`, which returns the same list), the no-data
    sentinels, and the mapping of a classification raster's integer code to a soil type.

    Reading a raster is outside the model: a route receives `sample`, the value each read
    returns. A read that fails returns -32768 (`soil_api/utils/point_extraction.py:46-47`),
    which is one of the values `sample` may return. */
module Sampling {
  import opened Wrappers
  import opened SoilModels
  import Text

  /** A raster file: its collection directory under the soil-maps location, and its file name.
      The location prefix is the same for every raster and is left abstract. */
  datatype RasterRef = RasterRef(collection: string, fileName: string)

  /** The arguments of one `extract_point_from_raster` call. */
  datatype PointRead = PointRead(raster: RasterRef, latitude: real, longitude: real, transformCrs: bool)

  /** `settings.soil_maps["wrb"]`, from `SOIL_MAPS` in `soil_api/constants.py`. */
  const MostProbableRaster: RasterRef := RasterRef("wrb", "MostProbable.vrt")

  /** `NO_DATA_VALS_SOILGRIDS` together with `NO_DATA_VAL`. */
  const NoDataValues: set<int> := {-32768, 65535, -99999}

  /** Applying `f` to every element, in order. */
  function MapSeq<A, R>(f: A -> R, xs: seq<A>): (r: seq<R>)
    ensures |r| == |xs|
  {
    if xs == [] then [] else [f(xs[0])] + MapSeq(f, xs[1..])
  }

  lemma {:induction false} MapSeqIndex<A, R>(f: A -> R, xs: seq<A>, i: int)
    requires 0 <= i < |xs|
    ensures MapSeq(f, xs)[i] == f(xs[i])
  {
    if i > 0 {
      MapSeqIndex(f, xs[1..], i - 1);
    }
  }

  /** `run_sequential(target, args_list)`: one call per argument tuple, awaited in order, the
      results collected in argument order. `run_parallel` gathers the same calls concurrently
      and also returns them in argument order, so both are this method. */
  method RunSequential<A, R>(target: A -> R, argsList: seq<A>) returns (results: seq<R>)
    ensures |results| == |argsList|
    ensures forall i :: 0 <= i < |argsList| ==> results[i] == target(argsList[i])
    ensures results == MapSeq(target, argsList)
  {
    results := [];
    for i := 0 to |argsList|
      invariant |results| == i
      invariant forall k :: 0 <= k < i ==> results[k] == target(argsList[k])
    {
      var value := target(argsList[i]);
      results := results + [value];
    }
    forall i | 0 <= i < |argsList| ensures results[i] == MapSeq(target, argsList)[i] {
      MapSeqIndex(target, argsList, i);
    }
  }

  /** `zip(xs, ys)`: pairs up to the shorter of the two. */
  function Zip<A, B>(xs: seq<A>, ys: seq<B>): (r: seq<(A, B)>)
    ensures |r| == if |xs| < |ys| then |xs| else |ys|
    ensures forall i :: 0 <= i < |r| ==> r[i] == (xs[i], ys[i])
  {
    if xs == [] || ys == [] then [] else [(xs[0], ys[0])] + Zip(xs[1..], ys[1..])
  }

  /** `SoilTypes.__members__.get(f"t{value}", SoilTypes.No_information)`. */
  function CodeToSoilType(value: int): SoilType {
    match LookupMember("t" + Text.IntToDecimal(value))
    case Some(t) => t
    case None => NoInformation
  }

  /** A code from 0 through 29 maps to the soil type at that position; every other code,
      255 and negative codes included, maps to `No_information`. */
  lemma {:induction false} CodeToSoilTypeRange(value: int)
    ensures CodeToSoilType(value) == if 0 <= value < 30 then FromIndex(value) else NoInformation
  {
    var name := "t" + Text.IntToDecimal(value);
    if 0 <= value < 30 {
      var t := FromIndex(value);
      FromIndexRoundTrip(value);
      assert MemberName(t) == name;
      LookupMemberName(t);
    } else {
      match LookupMember(name)
      case None =>
      case Some(t) =>
        MemberNameShape(t);
        assert t != NoInformation;
        assert MemberName(t)[1..] == name[1..];
        Text.IntToDecimalInjective(value, Index(t));
        assert false;
    }
  }

  /** The mapping in a concrete case: 0 is the first soil type. */
  lemma {:induction false} CodeToSoilTypeFirst()
    ensures CodeToSoilType(0) == Acrisols
  {
    CodeToSoilTypeRange(0);
  }

  /** The mapping in a concrete case: 29 is the last numbered soil type. */
  lemma {:induction false} CodeToSoilTypeLast()
    ensures CodeToSoilType(29) == Vertisols
  {
    CodeToSoilTypeRange(29);
  }

  /** 255, the raster's no-information code, and 99, outside the table, are `No_information`. */
  lemma {:induction false} CodeToSoilTypeNoInformationExamples()
    ensures CodeToSoilType(255) == NoInformation && CodeToSoilType(99) == NoInformation
  {
    CodeToSoilTypeRange(255);
    CodeToSoilTypeRange(99);
  }
}
