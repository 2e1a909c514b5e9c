/** `get_soil_type` (`soil_api/routes/soil_routes.py:47-136`): the most probable reference soil
    group at a point and, optionally, the ranked probabilities of the soil groups there. */
module SoilTypeRoute {
  import opened Wrappers
  import opened SoilModels
  import opened Sampling
  import opened StableSort

  /** A soil type paired with the probability read for it. */
  type Candidate = (SoilType, int)

  function ProbabilityKey(x: Candidate): int { x.1 }

  function EnumPosition(x: Candidate): int { Index(x.0) }

  /** The probability raster of a soil type: `wrb/{value}.vrt`. */
  function ProbabilityRaster(t: SoilType): RasterRef {
    RasterRef("wrb", Value(t) + ".vrt")
  }

  /** `[t for t in SoilTypes if t != SoilTypes.No_information]`: every type but the last. */
  function NamedSoilTypes(): seq<SoilType> {
    AllSoilTypes()[..30]
  }

  /** The named soil types are the 30 members other than `No_information`, each once, in
      declaration order. */
  lemma {:induction false} NamedSoilTypesEnumeration()
    ensures |NamedSoilTypes()| == 30
    ensures forall i :: 0 <= i < 30 ==> Index(NamedSoilTypes()[i]) == i
    ensures forall t :: t in NamedSoilTypes() <==> t != NoInformation
  {
    SoilTypesEnumeration();
    forall t | t != NoInformation ensures t in NamedSoilTypes() {
      assert NamedSoilTypes()[Index(t)] == t;
    }
  }

  /** The soil types whose probability rasters are read: none when the most probable type is
      `No_information`, the most probable type alone when `count == 1`, all named types when
      `count > 1`, and none for any other count. */
  function Candidates(mostProbable: SoilType, count: int): seq<SoilType> {
    if Value(mostProbable) == Value(NoInformation) then []
    else if count == 1 then [mostProbable]
    else if count > 1 then NamedSoilTypes()
    else []
  }

  /** The reads of the probability rasters, without reprojection. */
  function ProbabilityReads(types: seq<SoilType>, latitude: real, longitude: real): (r: seq<PointRead>)
    ensures |r| == |types|
    ensures forall i :: 0 <= i < |types| ==> r[i] == PointRead(ProbabilityRaster(types[i]), latitude, longitude, false)
  {
    seq(|types|, i requires 0 <= i < |types| => PointRead(ProbabilityRaster(types[i]), latitude, longitude, false))
  }

  /** The filter `type_probability not in [0, -99999]`. */
  function Kept(merged: seq<Candidate>): seq<Candidate> {
    if merged == [] then []
    else (if merged[0].1 != 0 && merged[0].1 != -99999 then [merged[0]] else []) + Kept(merged[1..])
  }

  /** `sorted(kept, key=lambda x: x[1], reverse=True)[:count]`. */
  function Ranked(kept: seq<Candidate>, count: int): seq<Candidate> {
    PyPrefix(SortDesc(kept, ProbabilityKey), count)
  }

  /** One `SoilTypeProbability` record per ranked pair, in ranking order. */
  function Records(ranked: seq<Candidate>): (r: seq<SoilTypeProbability>)
    ensures |r| == |ranked|
    ensures forall i :: 0 <= i < |ranked| ==> r[i] == SoilTypeProbability(ranked[i].0, ranked[i].1)
  {
    seq(|ranked|, i requires 0 <= i < |ranked| => SoilTypeProbability(ranked[i].0, ranked[i].1))
  }

  /** The response records for the ranked pairs, `None` in place of an empty list. */
  function Probabilities(ranked: seq<Candidate>): Option<seq<SoilTypeProbability>> {
    if ranked == [] then None else Some(Records(ranked))
  }

  /** The type the classification raster's code at the point maps to. */
  function MostProbableType(latitude: real, longitude: real, sample: PointRead -> int): SoilType {
    CodeToSoilType(sample(PointRead(MostProbableRaster, latitude, longitude, false)))
  }

  /** The pairs a list of candidate types gives: each type with the value read from its own
      probability raster. */
  function MergedPairs(types: seq<SoilType>, latitude: real, longitude: real, sample: PointRead -> int): seq<Candidate> {
    Zip(types, MapSeq(sample, ProbabilityReads(types, latitude, longitude)))
  }

  /** The ranked pairs for a point. */
  function RankedFor(latitude: real, longitude: real, count: int, sample: PointRead -> int): seq<Candidate> {
    var types := Candidates(MostProbableType(latitude, longitude, sample), count);
    Ranked(Kept(MergedPairs(types, latitude, longitude, sample)), count)
  }

  /** The whole response of `get_soil_type` for a point, given what each read returns. */
  function SoilTypeResponse(latitude: real, longitude: real, count: int, sample: PointRead -> int): SoilTypeJSON {
    SoilTypeJSON(PointGeometry([longitude, latitude]),
      SoilTypeInfo(MostProbableType(latitude, longitude, sample), Probabilities(RankedFor(latitude, longitude, count, sample))))
  }

  /** The loop that builds one `SoilTypeProbability` per ranked pair. */
  method BuildRecords(ranked: seq<Candidate>) returns (records: seq<SoilTypeProbability>)
    ensures records == Records(ranked)
  {
    records := [];
    for i := 0 to |ranked|
      invariant |records| == i
      invariant forall k :: 0 <= k < i ==> records[k] == SoilTypeProbability(ranked[k].0, ranked[k].1)
    {
      records := records + [SoilTypeProbability(ranked[i].0, ranked[i].1)];
    }
  }

  /** `get_soil_type`. */
  method GetSoilType(latitude: real, longitude: real, count: int, sample: PointRead -> int)
    returns (response: SoilTypeJSON)
    ensures response == SoilTypeResponse(latitude, longitude, count, sample)
  {
    var value := sample(PointRead(MostProbableRaster, latitude, longitude, false));
    var mostProbable := CodeToSoilType(value);
    var types := Candidates(mostProbable, count);
    var typeReads := ProbabilityReads(types, latitude, longitude);
    var typeProbabilities := RunSequential(sample, typeReads);
    var merged := Zip(types, typeProbabilities);
    assert merged == MergedPairs(types, latitude, longitude, sample);
    var ranked := Ranked(Kept(merged), count);
    var records := BuildRecords(ranked);
    var probabilities: Option<seq<SoilTypeProbability>> := Some(records);
    if records == [] {
      probabilities := None;
    }
    response := SoilTypeJSON(PointGeometry([longitude, latitude]), SoilTypeInfo(mostProbable, probabilities));
  }

  // ---------------------------------------------------------------------------------------------
  // Which rasters are read

  /** No probability raster is read when the most probable type is `No_information`; with
      `count == 1` exactly the most probable type's raster is read; with `count > 1` the 30
      named types' rasters are read, in declaration order. */
  lemma {:induction false} CandidatesByCount(mostProbable: SoilType, count: int)
    ensures mostProbable == NoInformation ==> Candidates(mostProbable, count) == []
    ensures mostProbable != NoInformation && count == 1 ==> Candidates(mostProbable, count) == [mostProbable]
    ensures mostProbable != NoInformation && count > 1 ==>
      |Candidates(mostProbable, count)| == 30 &&
      forall i :: 0 <= i < 30 ==> Candidates(mostProbable, count)[i] == FromIndex(i)
    ensures count < 1 ==> Candidates(mostProbable, count) == []
  {
    ValueInjective(mostProbable, NoInformation);
    NamedSoilTypesEnumeration();
    forall i | 0 <= i < 30 ensures NamedSoilTypes()[i] == FromIndex(i) {
      IndexRoundTrip(NamedSoilTypes()[i]);
    }
  }

  // ---------------------------------------------------------------------------------------------
  // Filtering

  /** Exactly the probabilities 0 and -99999 are dropped; everything else, -32768 included, is
      kept, and the kept pairs keep their order. */
  lemma {:induction false} KeptExactly(merged: seq<Candidate>)
    ensures forall x :: x in Kept(merged) <==> x in merged && x.1 != 0 && x.1 != -99999
    ensures |Kept(merged)| <= |merged|
  {
    if merged != [] {
      KeptExactly(merged[1..]);
      assert merged == [merged[0]] + merged[1..];
    }
  }

  /** The filter keeps a subsequence, so positions that increase along the input still increase
      along the result. */
  lemma {:induction false} KeptPreservesOrder(merged: seq<Candidate>)
    requires StrictlyIncreasing(merged, EnumPosition)
    ensures StrictlyIncreasing(Kept(merged), EnumPosition)
  {
    if merged != [] {
      var rest := merged[1..];
      IncreasingTail(merged, EnumPosition);
      KeptPreservesOrder(rest);
      KeptExactly(rest);
      if merged[0].1 != 0 && merged[0].1 != -99999 {
        IncreasingCons(merged[0], Kept(rest), EnumPosition);
      }
    }
  }

  // ---------------------------------------------------------------------------------------------
  // Ranking

  /** The ranking is in non-increasing probability order, holds exactly as many pairs as
      `[:count]` keeps (min(count, |kept|) for a non-negative count), takes every pair from the
      filtered list, and is its top: a filtered pair left out ranks no higher than any pair kept. */
  lemma {:induction false} RankedIsTopCount(kept: seq<Candidate>, count: int)
    ensures SortedDesc(Ranked(kept, count), ProbabilityKey)
    ensures |Ranked(kept, count)| <= |kept|
    ensures count >= 0 ==> |Ranked(kept, count)| <= count
    ensures count >= 0 ==> |Ranked(kept, count)| == if count < |kept| then count else |kept|
    ensures count < 0 ==> |Ranked(kept, count)| == if |kept| + count > 0 then |kept| + count else 0
    ensures count >= |kept| ==> multiset(Ranked(kept, count)) == multiset(kept)
    ensures multiset(Ranked(kept, count)) <= multiset(kept)
    ensures forall x, y :: x in kept && x !in Ranked(kept, count) && y in Ranked(kept, count) ==> x.1 <= y.1
  {
    var sorted := SortDesc(kept, ProbabilityKey);
    var r := Ranked(kept, count);
    SortDescSorted(kept, ProbabilityKey);
    assert r == sorted[..|r|];
    SortedPrefixIsTop(sorted, |r|, ProbabilityKey);
    if count >= |kept| {
      assert r == sorted;
    }
    forall x | x in kept ensures x in sorted {
      assert x in multiset(kept);
    }
  }

  /** Ties keep declaration order: when the filtered pairs are in declaration order, pairs of
      equal probability stay in declaration order in the ranking. */
  lemma {:induction false} RankedTiesInEnumOrder(kept: seq<Candidate>, count: int)
    requires StrictlyIncreasing(kept, EnumPosition)
    ensures TiesOrderedBy(Ranked(kept, count), ProbabilityKey, EnumPosition)
  {
    SortDescStable(kept, ProbabilityKey, EnumPosition);
    var sorted := SortDesc(kept, ProbabilityKey);
    assert Ranked(kept, count) == sorted[..|Ranked(kept, count)|];
  }

  /** The absent-instead-of-empty rule: `probabilities` is `None` exactly when nothing is ranked,
      and is never an empty list. */
  lemma {:induction false} ProbabilitiesNeverEmpty(ranked: seq<Candidate>)
    ensures Probabilities(ranked).None? <==> ranked == []
    ensures Probabilities(ranked).Some? ==> |Probabilities(ranked).value| == |ranked| > 0
    ensures Probabilities(ranked).Some? ==> forall i :: 0 <= i < |ranked| ==>
      Probabilities(ranked).value[i] == SoilTypeProbability(ranked[i].0, ranked[i].1)
  {
  }

  /** The filter in a concrete case: of the probabilities 70, 0 and 45, only the 0 goes. */
  lemma {:induction false} KeptExample(a: SoilType, b: SoilType, c: SoilType)
    ensures Kept([(a, 70), (b, 0), (c, 45)]) == [(a, 70), (c, 45)]
  {
    var m: seq<Candidate> := [(a, 70), (b, 0), (c, 45)];
    assert m[1..] == [(b, 0), (c, 45)];
    assert m[1..][1..] == [(c, 45)];
    assert m[1..][1..][1..] == [];
    assert Kept(m[1..][1..]) == [(c, 45)];
    assert Kept(m[1..]) == [(c, 45)];
  }

  /** The ranking in a concrete case: probabilities 70, 0 and 45 with `count == 1` give the
      type with 70; 0 is dropped before ranking, and 45 is cut by the count. */
  lemma {:induction false} RankedExample(a: SoilType, b: SoilType, c: SoilType)
    ensures Ranked(Kept([(a, 70), (b, 0), (c, 45)]), 1) == [(a, 70)]
  {
    KeptExample(a, b, c);
    RankedOfSorted([(a, 70), (c, 45)], 1);
  }

  /** A filtered list already in non-increasing order is ranked by cutting it to `count`. */
  lemma {:induction false} RankedOfSorted(kept: seq<Candidate>, count: int)
    requires SortedDesc(kept, ProbabilityKey)
    ensures Ranked(kept, count) == PyPrefix(kept, count)
  {
    SortDescOfSorted(kept, ProbabilityKey);
  }

  // ---------------------------------------------------------------------------------------------
  // The response

  /** A pair carries the value read from its own type's probability raster. */
  predicate ReadFromOwnRaster(x: Candidate, latitude: real, longitude: real, sample: PointRead -> int) {
    x.1 == sample(PointRead(ProbabilityRaster(x.0), latitude, longitude, false))
  }

  lemma {:induction false} MergedPairsRead(types: seq<SoilType>, latitude: real, longitude: real, sample: PointRead -> int)
    ensures |MergedPairs(types, latitude, longitude, sample)| == |types|
    ensures forall i :: 0 <= i < |types| ==>
      MergedPairs(types, latitude, longitude, sample)[i].0 == types[i] &&
      ReadFromOwnRaster(MergedPairs(types, latitude, longitude, sample)[i], latitude, longitude, sample)
  {
    var typeReads := ProbabilityReads(types, latitude, longitude);
    forall i | 0 <= i < |types| ensures MapSeq(sample, typeReads)[i] == sample(typeReads[i]) {
      MapSeqIndex(sample, typeReads, i);
    }
  }

  /** The candidates are named types in strictly increasing declaration order. */
  lemma {:induction false} CandidatesOrdered(mostProbable: SoilType, count: int)
    ensures forall t :: t in Candidates(mostProbable, count) ==> t != NoInformation
    ensures forall i, j :: 0 <= i < j < |Candidates(mostProbable, count)| ==>
      Index(Candidates(mostProbable, count)[i]) < Index(Candidates(mostProbable, count)[j])
  {
    ValueInjective(mostProbable, NoInformation);
    NamedSoilTypesEnumeration();
  }

  /** Candidate types in declaration order give pairs in declaration order. */
  lemma {:induction false} MergedPairsOrdered(types: seq<SoilType>, latitude: real, longitude: real, sample: PointRead -> int)
    requires forall i, j :: 0 <= i < j < |types| ==> Index(types[i]) < Index(types[j])
    ensures StrictlyIncreasing(MergedPairs(types, latitude, longitude, sample), EnumPosition)
  {
    MergedPairsRead(types, latitude, longitude, sample);
  }

  /** Every ranked pair is a filtered pair: it comes from the merged list and is neither 0 nor
      -99999. */
  lemma {:induction false} RankedFromMerged(merged: seq<Candidate>, count: int)
    ensures forall x :: x in Ranked(Kept(merged), count) ==> x in merged && x.1 != 0 && x.1 != -99999
  {
    KeptExactly(merged);
    RankedIsTopCount(Kept(merged), count);
    forall x | x in Ranked(Kept(merged), count) ensures x in Kept(merged) {
      assert x in multiset(Ranked(Kept(merged), count));
    }
  }

  /** The ranking built from candidate types in declaration order: every pair is read from its
      own type's raster and survived the filter, the order is non-increasing with ties in
      declaration order, and at most `count` pairs are kept. */
  lemma {:induction false} RankedFromCandidates(types: seq<SoilType>, latitude: real, longitude: real, count: int, sample: PointRead -> int)
    requires forall i, j :: 0 <= i < j < |types| ==> Index(types[i]) < Index(types[j])
    ensures var ranked := Ranked(Kept(MergedPairs(types, latitude, longitude, sample)), count);
      (count >= 0 ==> |ranked| <= count) &&
      SortedDesc(ranked, ProbabilityKey) &&
      TiesOrderedBy(ranked, ProbabilityKey, EnumPosition) &&
      (forall x :: x in ranked ==>
        x.0 in types && x.1 != 0 && x.1 != -99999 && ReadFromOwnRaster(x, latitude, longitude, sample))
  {
    RankedCandidatesOrder(types, latitude, longitude, count, sample);
    RankedCandidatesMembers(types, latitude, longitude, count, sample);
  }

  /** The ordering half of `RankedFromCandidates`. */
  lemma {:induction false} RankedCandidatesOrder(types: seq<SoilType>, latitude: real, longitude: real, count: int, sample: PointRead -> int)
    requires forall i, j :: 0 <= i < j < |types| ==> Index(types[i]) < Index(types[j])
    ensures var ranked := Ranked(Kept(MergedPairs(types, latitude, longitude, sample)), count);
      (count >= 0 ==> |ranked| <= count) &&
      SortedDesc(ranked, ProbabilityKey) &&
      TiesOrderedBy(ranked, ProbabilityKey, EnumPosition)
  {
    var merged := MergedPairs(types, latitude, longitude, sample);
    MergedPairsOrdered(types, latitude, longitude, sample);
    KeptPreservesOrder(merged);
    RankedIsTopCount(Kept(merged), count);
    RankedTiesInEnumOrder(Kept(merged), count);
  }

  /** The membership half of `RankedFromCandidates`. */
  lemma {:induction false} RankedCandidatesMembers(types: seq<SoilType>, latitude: real, longitude: real, count: int, sample: PointRead -> int)
    ensures forall x :: x in Ranked(Kept(MergedPairs(types, latitude, longitude, sample)), count) ==>
      x.0 in types && x.1 != 0 && x.1 != -99999 && ReadFromOwnRaster(x, latitude, longitude, sample)
  {
    var merged := MergedPairs(types, latitude, longitude, sample);
    RankedFromMerged(merged, count);
    MergedPairsRead(types, latitude, longitude, sample);
    forall x | x in Ranked(Kept(merged), count)
      ensures x.0 in types && ReadFromOwnRaster(x, latitude, longitude, sample)
    {
      var k :| 0 <= k < |merged| && merged[k] == x;
    }
  }

  /** Nothing survives the filter exactly when every value is 0 or -99999. */
  lemma {:induction false} KeptEmptyExactly(merged: seq<Candidate>)
    ensures Kept(merged) == [] <==> forall i :: 0 <= i < |merged| ==> merged[i].1 == 0 || merged[i].1 == -99999
  {
    if merged != [] {
      KeptEmptyExactly(merged[1..]);
      assert forall i :: 1 <= i < |merged| ==> merged[i] == merged[1..][i - 1];
    }
  }

  /** For a positive count the ranking is empty only when nothing survived the filter. */
  lemma {:induction false} RankedEmptyExactly(kept: seq<Candidate>, count: int)
    requires count >= 1
    ensures Ranked(kept, count) == [] <==> kept == []
  {
  }

  /** The response is located at `[longitude, latitude]` and names the most probable type, and
      when that type is `No_information` it has no probabilities. */
  lemma {:induction false} SoilTypeResponseShape(latitude: real, longitude: real, count: int, sample: PointRead -> int)
    ensures var r := SoilTypeResponse(latitude, longitude, count, sample);
      r.geometry.coordinates == [longitude, latitude] &&
      r.properties.soilType == MostProbableType(latitude, longitude, sample) &&
      (MostProbableType(latitude, longitude, sample) == NoInformation ==> r.properties.probabilities.None?)
  {
    CandidatesByCount(MostProbableType(latitude, longitude, sample), count);
  }

  /** There are no probabilities exactly when the count is below 1 or every candidate's read is
      0 or -99999; an empty list is never returned. */
  lemma {:induction false} SoilTypeResponseAbsent(latitude: real, longitude: real, count: int, sample: PointRead -> int)
    ensures var r := SoilTypeResponse(latitude, longitude, count, sample);
      var types := Candidates(MostProbableType(latitude, longitude, sample), count);
      (r.properties.probabilities.None? <==>
        count < 1 ||
        forall i :: 0 <= i < |types| ==>
          var v := sample(PointRead(ProbabilityRaster(types[i]), latitude, longitude, false)); v == 0 || v == -99999) &&
      (r.properties.probabilities.Some? ==> r.properties.probabilities.value != [])
  {
    var types := Candidates(MostProbableType(latitude, longitude, sample), count);
    var merged := MergedPairs(types, latitude, longitude, sample);
    var ranked := RankedFor(latitude, longitude, count, sample);
    assert SoilTypeResponse(latitude, longitude, count, sample).properties.probabilities == Probabilities(ranked);
    MergedPairsRead(types, latitude, longitude, sample);
    KeptEmptyExactly(merged);
    if count >= 1 {
      RankedEmptyExactly(Kept(merged), count);
    } else {
      CandidatesByCount(MostProbableType(latitude, longitude, sample), count);
    }
  }

  /** The ranking's properties carry over to the records built from it. */
  lemma {:induction false} RecordsKeepRanking(ranked: seq<Candidate>, latitude: real, longitude: real, sample: PointRead -> int)
    requires SortedDesc(ranked, ProbabilityKey)
    requires TiesOrderedBy(ranked, ProbabilityKey, EnumPosition)
    requires forall x :: x in ranked ==>
      x.0 != NoInformation && x.1 != 0 && x.1 != -99999 && ReadFromOwnRaster(x, latitude, longitude, sample)
    ensures var ps := Records(ranked);
      (forall i :: 0 <= i < |ps| ==>
        ps[i].soilType != NoInformation &&
        ReadFromOwnRaster((ps[i].soilType, ps[i].probability), latitude, longitude, sample) &&
        ps[i].probability != 0 && ps[i].probability != -99999) &&
      (forall i, j :: 0 <= i < j < |ps| ==> ps[i].probability >= ps[j].probability) &&
      (forall i, j :: 0 <= i < j < |ps| && ps[i].probability == ps[j].probability ==>
        Index(ps[i].soilType) < Index(ps[j].soilType))
  {
    var ps := Records(ranked);
    forall i | 0 <= i < |ps|
      ensures ps[i].soilType != NoInformation && ps[i].probability != 0 && ps[i].probability != -99999
      ensures ReadFromOwnRaster((ps[i].soilType, ps[i].probability), latitude, longitude, sample)
    {
      assert ranked[i] in ranked;
      assert (ps[i].soilType, ps[i].probability) == ranked[i];
    }
    forall i, j | 0 <= i < j < |ps| ensures ps[i].probability >= ps[j].probability {
      assert ProbabilityKey(ranked[i]) >= ProbabilityKey(ranked[j]);
    }
    forall i, j | 0 <= i < j < |ps| && ps[i].probability == ps[j].probability
      ensures Index(ps[i].soilType) < Index(ps[j].soilType)
    {
      assert ProbabilityKey(ranked[i]) == ProbabilityKey(ranked[j]);
      assert EnumPosition(ranked[i]) < EnumPosition(ranked[j]);
    }
  }

  /** Each reported probability is read from its own type's raster, is neither 0 nor -99999,
      belongs to a named type, and there are at most `count` of them, in non-increasing order
      with ties in declaration order. For `count >= 1` they are the top filtered reads: there are
      min(count, |kept|) of them, and no filtered read left out beats one reported. */
  lemma {:induction false} SoilTypeResponseRanking(latitude: real, longitude: real, count: int, sample: PointRead -> int)
    ensures var r := SoilTypeResponse(latitude, longitude, count, sample);
      r.properties.probabilities.Some? ==>
        var ps := r.properties.probabilities.value;
        0 < |ps| <= count &&
        (forall i :: 0 <= i < |ps| ==>
          ps[i].soilType != NoInformation &&
          ReadFromOwnRaster((ps[i].soilType, ps[i].probability), latitude, longitude, sample) &&
          ps[i].probability != 0 && ps[i].probability != -99999) &&
        (forall i, j :: 0 <= i < j < |ps| ==> ps[i].probability >= ps[j].probability) &&
        (forall i, j :: 0 <= i < j < |ps| && ps[i].probability == ps[j].probability ==>
          Index(ps[i].soilType) < Index(ps[j].soilType))
    ensures var r := SoilTypeResponse(latitude, longitude, count, sample);
      var kept := Kept(MergedPairs(Candidates(MostProbableType(latitude, longitude, sample), count), latitude, longitude, sample));
      count >= 1 ==>
        (r.properties.probabilities.Some? <==> kept != []) &&
        (r.properties.probabilities.Some? ==>
          var ps := r.properties.probabilities.value;
          |ps| == (if count < |kept| then count else |kept|) &&
          forall x, i :: x in kept && SoilTypeProbability(x.0, x.1) !in ps && 0 <= i < |ps| ==> x.1 <= ps[i].probability)
  {
    var mostProbable := MostProbableType(latitude, longitude, sample);
    var types := Candidates(mostProbable, count);
    var ranked := RankedFor(latitude, longitude, count, sample);
    CandidatesOrdered(mostProbable, count);
    RankedFromCandidates(types, latitude, longitude, count, sample);
    RecordsKeepRanking(ranked, latitude, longitude, sample);
    RecordsTop(Kept(MergedPairs(types, latitude, longitude, sample)), count);
  }

  /** The records of a ranking are the top `count` filtered pairs: as many as `[:count]` keeps,
      and no filtered pair left out of them beats one reported. */
  lemma {:induction false} RecordsTop(kept: seq<Candidate>, count: int)
    ensures var ps := Records(Ranked(kept, count));
      count >= 1 ==>
        (Probabilities(Ranked(kept, count)).Some? <==> kept != []) &&
        |ps| == (if count < |kept| then count else |kept|) &&
        forall x, i :: x in kept && SoilTypeProbability(x.0, x.1) !in ps && 0 <= i < |ps| ==> x.1 <= ps[i].probability
  {
    var ranked := Ranked(kept, count);
    var ps := Records(ranked);
    RankedIsTopCount(kept, count);
    if count >= 1 {
      RankedEmptyExactly(kept, count);
      forall x, i | x in kept && SoilTypeProbability(x.0, x.1) !in ps && 0 <= i < |ps|
        ensures x.1 <= ps[i].probability
      {
        assert ranked[i] in ranked;
      }
    }
  }

  /** With `count == 1` the only reported probability, if any, is the most probable type's. */
  lemma {:induction false} SoilTypeResponseSingle(latitude: real, longitude: real, sample: PointRead -> int)
    ensures var r := SoilTypeResponse(latitude, longitude, 1, sample);
      r.properties.probabilities.Some? ==>
        r.properties.probabilities.value ==
          [SoilTypeProbability(r.properties.soilType,
             sample(PointRead(ProbabilityRaster(r.properties.soilType), latitude, longitude, false)))]
  {
    var mostProbable := MostProbableType(latitude, longitude, sample);
    var types := Candidates(mostProbable, 1);
    var ranked := RankedFor(latitude, longitude, 1, sample);
    CandidatesOrdered(mostProbable, 1);
    CandidatesByCount(mostProbable, 1);
    RankedFromCandidates(types, latitude, longitude, 1, sample);
    if ranked != [] {
      assert ranked[0] in ranked;
    }
  }
}
