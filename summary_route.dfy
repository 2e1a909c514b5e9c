/** `get_soil_type_summary` (`soil_api/routes/soil_routes.py:238-282`): the soil types found in a
    bounding box, with how many raster cells each covers, most frequent first, and the box as a
    GeoJSON polygon.

    Counting the cells of the classification raster inside the box is outside the model: the
    route receives `countCells`, which gives the distinct cell values in the box with their
    counts, in the order of the dictionary `extract_bbox_from_raster` returns. */
module SoilTypeSummaryRoute {
  import opened SoilModels
  import opened Sampling
  import opened StableSort
  import opened Validation

  datatype SoilTypeSummary = SoilTypeSummary(soilType: SoilType, count: int)

  /** A GeoJSON polygon: a list of rings, each a list of `[longitude, latitude]` points. */
  datatype PolygonGeometry = PolygonGeometry(coordinates: seq<seq<seq<real>>>)

  datatype SoilTypeSummaryJSON = SoilTypeSummaryJSON(geometry: PolygonGeometry, summaries: seq<SoilTypeSummary>)

  /** An entry of the cell-count dictionary: a raster value and its number of cells. */
  type CellCount = (int, int)

  function CellCountKey(x: CellCount): int { x.1 }

  function SummaryCount(s: SoilTypeSummary): int { s.count }

  /** One summary entry: the value's soil type, looked up by member name, and its count. */
  function ToSummary(x: CellCount): SoilTypeSummary {
    SoilTypeSummary(CodeToSoilType(x.0), x.1)
  }

  /** The summary comprehension over `sorted(types_counts.items(), key=lambda x: x[1], reverse=True)`. */
  function Summaries(typesCounts: seq<CellCount>): seq<SoilTypeSummary> {
    MapSeq(ToSummary, SortDesc(typesCounts, CellCountKey))
  }

  /** The polygon literal: one ring through the four corners, counter-clockwise from the
      lower-left one, and back to it. */
  function BboxPolygon(bbox: Bbox): seq<seq<seq<real>>> {
    [[[bbox.minLon, bbox.minLat], [bbox.maxLon, bbox.minLat], [bbox.maxLon, bbox.maxLat],
      [bbox.minLon, bbox.maxLat], [bbox.minLon, bbox.minLat]]]
  }

  /** `get_soil_type_summary`. */
  function GetSoilTypeSummary(bbox: Bbox, countCells: (RasterRef, Bbox) -> seq<CellCount>): SoilTypeSummaryJSON {
    var typesCounts := countCells(MostProbableRaster, bbox);
    SoilTypeSummaryJSON(PolygonGeometry(BboxPolygon(bbox)), Summaries(typesCounts))
  }

  // ---------------------------------------------------------------------------------------------
  // Sorting then mapping is mapping then sorting

  lemma {:induction false} MapSeqCons<A, R>(f: A -> R, x: A, xs: seq<A>)
    ensures MapSeq(f, [x] + xs) == [f(x)] + MapSeq(f, xs)
  {
    assert ([x] + xs)[1..] == xs;
  }

  lemma {:induction false} MapInsertDesc(x: CellCount, ys: seq<CellCount>)
    ensures MapSeq(ToSummary, InsertDesc(x, ys, CellCountKey)) ==
            InsertDesc(ToSummary(x), MapSeq(ToSummary, ys), SummaryCount)
  {
    if ys == [] {
      assert InsertDesc(x, ys, CellCountKey) == [x] + [];
      MapSeqCons(ToSummary, x, []);
    } else {
      var mapped := MapSeq(ToSummary, ys);
      MapSeqCons(ToSummary, ys[0], ys[1..]);
      assert [ys[0]] + ys[1..] == ys;
      assert mapped[0] == ToSummary(ys[0]) && mapped[1..] == MapSeq(ToSummary, ys[1..]);
      assert SummaryCount(mapped[0]) == CellCountKey(ys[0]);
      assert SummaryCount(ToSummary(x)) == CellCountKey(x);
      if CellCountKey(ys[0]) <= CellCountKey(x) {
        assert InsertDesc(x, ys, CellCountKey) == [x] + ys;
        assert InsertDesc(ToSummary(x), mapped, SummaryCount) == [ToSummary(x)] + mapped;
        MapSeqCons(ToSummary, x, ys);
      } else {
        var tail := InsertDesc(x, ys[1..], CellCountKey);
        assert InsertDesc(x, ys, CellCountKey) == [ys[0]] + tail;
        assert InsertDesc(ToSummary(x), mapped, SummaryCount) ==
          [mapped[0]] + InsertDesc(ToSummary(x), mapped[1..], SummaryCount);
        MapInsertDesc(x, ys[1..]);
        MapSeqCons(ToSummary, ys[0], tail);
      }
    }
  }

  /** Mapping each entry to its summary commutes with the sort, since the summary keeps the
      count it is sorted by. */
  lemma {:induction false} MapSortDesc(xs: seq<CellCount>)
    ensures Summaries(xs) == SortDesc(MapSeq(ToSummary, xs), SummaryCount)
  {
    if xs != [] {
      MapSortDesc(xs[1..]);
      MapSeqCons(ToSummary, xs[0], xs[1..]);
      assert [xs[0]] + xs[1..] == xs;
      var mapped := MapSeq(ToSummary, xs);
      assert mapped[0] == ToSummary(xs[0]) && mapped[1..] == MapSeq(ToSummary, xs[1..]);
      MapInsertDesc(xs[0], SortDesc(xs[1..], CellCountKey));
    }
  }

  // ---------------------------------------------------------------------------------------------
  // Properties of the summary

  /** The summaries are the mapped cell counts reordered: the same entries with the same
      multiplicities, none merged even when two values map to the same type, in non-increasing
      count order, with entries of equal count in their dictionary order. */
  lemma {:induction false} SummariesSpec(typesCounts: seq<CellCount>, k: int)
    ensures |Summaries(typesCounts)| == |typesCounts|
    ensures multiset(Summaries(typesCounts)) == multiset(MapSeq(ToSummary, typesCounts))
    ensures SortedDesc(Summaries(typesCounts), SummaryCount)
    ensures WithKey(Summaries(typesCounts), SummaryCount, k) == WithKey(MapSeq(ToSummary, typesCounts), SummaryCount, k)
  {
    MapSortDesc(typesCounts);
    SortDescSorted(MapSeq(ToSummary, typesCounts), SummaryCount);
    SortDescKeepsTieOrder(MapSeq(ToSummary, typesCounts), SummaryCount, k);
  }

  /** Each summary entry's type is the one its raster value names: the type at that position for
      0 through 29, `No_information` for any other value. */
  lemma {:induction false} ToSummaryType(x: CellCount)
    ensures ToSummary(x).soilType == if 0 <= x.0 < 30 then FromIndex(x.0) else NoInformation
    ensures ToSummary(x).count == x.1
  {
    CodeToSoilTypeRange(x.0);
  }

  /** Two values that both map to `No_information` give two entries, not one: 255 with 5 cells
      and 99 with 3 cells. */
  lemma {:induction false} SummariesNotMerged()
    ensures Summaries([(99, 3), (255, 5)]) ==
      [SoilTypeSummary(NoInformation, 5), SoilTypeSummary(NoInformation, 3)]
  {
    CodeToSoilTypeRange(99);
    CodeToSoilTypeRange(255);
    var xs: seq<CellCount> := [(99, 3), (255, 5)];
    assert xs[1..] == [(255, 5)];
    assert xs[1..][1..] == [];
    assert SortDesc(xs[1..], CellCountKey) == [(255, 5)];
    var ys: seq<CellCount> := [(255, 5)];
    assert ys[1..] == [];
    assert InsertDesc((99, 3), ys, CellCountKey) == [(255, 5), (99, 3)];
    var sorted: seq<CellCount> := [(255, 5), (99, 3)];
    assert sorted[1..] == [(99, 3)] && sorted[1..][1..] == [];
  }

  // ---------------------------------------------------------------------------------------------
  // The polygon

  /** Twice the signed area of a ring by the shoelace formula. */
  function TwiceSignedArea(ring: seq<seq<real>>): real
    requires forall i :: 0 <= i < |ring| ==> |ring[i]| == 2
  {
    if |ring| < 2 then 0.0
    else ring[0][0] * ring[1][1] - ring[1][0] * ring[0][1] + TwiceSignedArea(ring[1..])
  }

  /** The polygon is one closed ring of five `[longitude, latitude]` points whose first four are
      the box's corners, each edge runs along one axis, and the ring's signed area is the box's
      width times its height, so a box that passes validation gives a ring of non-negative signed
      area: counter-clockwise unless the box is degenerate. */
  lemma {:induction false} BboxPolygonSpec(bbox: Bbox)
    ensures |BboxPolygon(bbox)| == 1
    ensures var ring := BboxPolygon(bbox)[0];
      |ring| == 5 && (forall i :: 0 <= i < 5 ==> |ring[i]| == 2) && ring[0] == ring[4] &&
      ring[0] == [bbox.minLon, bbox.minLat] && ring[1] == [bbox.maxLon, bbox.minLat] &&
      ring[2] == [bbox.maxLon, bbox.maxLat] && ring[3] == [bbox.minLon, bbox.maxLat] &&
      (forall i :: 0 <= i < 4 ==> ring[i][0] == ring[i + 1][0] || ring[i][1] == ring[i + 1][1]) &&
      TwiceSignedArea(ring) == 2.0 * (bbox.maxLon - bbox.minLon) * (bbox.maxLat - bbox.minLat)
    ensures ValidateBbox(bbox).Pass? ==> TwiceSignedArea(BboxPolygon(bbox)[0]) >= 0.0
  {
    var ring := BboxPolygon(bbox)[0];
    var x0, y0, x1, y1 := bbox.minLon, bbox.minLat, bbox.maxLon, bbox.maxLat;
    assert ring[4..] == [[x0, y0]];
    assert TwiceSignedArea(ring[4..]) == 0.0;
    assert ring[3..][1..] == ring[4..];
    assert TwiceSignedArea(ring[3..]) == x0 * y0 - x0 * y1;
    assert ring[2..][1..] == ring[3..];
    assert TwiceSignedArea(ring[2..]) == x1 * y1 - x0 * y1 + x0 * y0 - x0 * y1;
    assert ring[1..][1..] == ring[2..];
    assert TwiceSignedArea(ring[1..]) == x1 * y1 - x1 * y0 + x1 * y1 - x0 * y1 + x0 * y0 - x0 * y1;
    assert TwiceSignedArea(ring) == x0 * y0 - x1 * y0 + x1 * y1 - x1 * y0 + x1 * y1 - x0 * y1 + x0 * y0 - x0 * y1;
    assert 2.0 * (x1 - x0) * (y1 - y0) == 2.0 * x1 * y1 - 2.0 * x1 * y0 - 2.0 * x0 * y1 + 2.0 * x0 * y0;
    if ValidateBbox(bbox).Pass? {
      assert x1 - x0 >= 0.0 && y1 - y0 >= 0.0;
      assert (x1 - x0) * (y1 - y0) >= 0.0;
    }
  }

  /** The whole response: the box's polygon and the summaries of the classification raster's
      cells inside it. */
  lemma {:induction false} GetSoilTypeSummarySpec(bbox: Bbox, countCells: (RasterRef, Bbox) -> seq<CellCount>)
    ensures GetSoilTypeSummary(bbox, countCells).geometry.coordinates == BboxPolygon(bbox)
    ensures GetSoilTypeSummary(bbox, countCells).summaries ==
      SortDesc(MapSeq(ToSummary, countCells(MostProbableRaster, bbox)), SummaryCount)
  {
    MapSortDesc(countCells(MostProbableRaster, bbox));
  }
}
