/** `get_soil_property` (`soil_api/routes/soil_routes.py:145-205`): the requested properties,
    depths and statistics are expanded into one raster read each, the values read are grouped
    per property and depth, and one layer is emitted per requested property. */
module SoilPropertyRoute {
  import opened Wrappers
  import opened SoilModels
  import opened SoilPropertyTables
  import opened Sampling
  import opened OrderedDict
  import opened ResponseGenerator
  import opened PropertyRequests
  import opened PropertyGrouping

  /** The `KeyError` that `soil_map_info[property]` raises for a property without a dict. */
  datatype KeyError = KeyError(property: SoilProperty)

  // ---------------------------------------------------------------------------------------------
  // The expansion loop

  /** Each path is the raster of the request at the same position. */
  predicate PathsOf(requests: seq<Request>, paths: seq<RasterRef>) {
    |paths| == |requests| && forall n :: 0 <= n < |paths| ==> paths[n] == PropertyRaster(requests[n])
  }

  /** The triple loop filling the request lists and the raster paths: properties outermost,
      statistics innermost, one path per request. Each loop level is a method of its own. */
  method ExpandRequests(ps: seq<SoilProperty>, ds: seq<SoilDepthLabel>, vs: seq<Statistic>)
    returns (requests: seq<Request>, paths: seq<RasterRef>)
    ensures requests == Requests(ps, ds, vs)
    ensures |paths| == |requests|
    ensures forall n :: 0 <= n < |paths| ==> paths[n] == PropertyRaster(requests[n])
  {
    requests, paths := [], [];
    for i := 0 to |ps|
      invariant requests == Requests(ps[..i], ds, vs)
      invariant PathsOf(requests, paths)
    {
      requests, paths := ExpandDepths(ps[i], ds, vs, requests, paths);
      RequestsSnoc(ps, ds, vs, i);
    }
    assert ps[..|ps|] == ps;
  }

  /** `for depth in depths`, for one property. */
  method ExpandDepths(p: SoilProperty, ds: seq<SoilDepthLabel>, vs: seq<Statistic>,
                      requests0: seq<Request>, paths0: seq<RasterRef>)
    returns (requests: seq<Request>, paths: seq<RasterRef>)
    requires PathsOf(requests0, paths0)
    ensures requests == requests0 + Block(p, ds, vs)
    ensures PathsOf(requests, paths)
  {
    requests, paths := requests0, paths0;
    for j := 0 to |ds|
      invariant requests == requests0 + Block(p, ds[..j], vs)
      invariant PathsOf(requests, paths)
    {
      requests, paths := ExpandStatistics(p, ds[j], vs, requests, paths);
      BlockSnoc(requests0, p, ds, vs, j);
    }
    assert ds[..|ds|] == ds;
  }

  /** `for value_type in value_types`, for one property and depth. */
  method ExpandStatistics(p: SoilProperty, d: SoilDepthLabel, vs: seq<Statistic>,
                          requests0: seq<Request>, paths0: seq<RasterRef>)
    returns (requests: seq<Request>, paths: seq<RasterRef>)
    requires PathsOf(requests0, paths0)
    ensures requests == requests0 + Row(p, d, vs)
    ensures PathsOf(requests, paths)
  {
    requests, paths := requests0, paths0;
    for k := 0 to |vs|
      invariant requests == requests0 + Row(p, d, vs[..k])
      invariant PathsOf(requests, paths)
    {
      var request := Request(p, d, vs[k]);
      RowSnoc(requests0, p, d, vs, k);
      PathsOfSnoc(requests, paths, request);
      requests := requests + [request];
      paths := paths + [PropertyRaster(request)];
    }
    assert vs[..|vs|] == vs;
  }

  /** Appending a request and its raster keeps the paths in step with the requests. */
  lemma {:induction false} PathsOfSnoc(requests: seq<Request>, paths: seq<RasterRef>, r: Request)
    requires PathsOf(requests, paths)
    ensures PathsOf(requests + [r], paths + [PropertyRaster(r)])
  {
    var requests', paths' := requests + [r], paths + [PropertyRaster(r)];
    forall n | 0 <= n < |paths'| ensures paths'[n] == PropertyRaster(requests'[n]) {
      if n < |paths| {
        assert paths'[n] == paths[n] && requests'[n] == requests[n];
      }
    }
  }

  /** One more statistic appends one request to the row (after any prefix `a`). */
  lemma {:induction false} RowSnoc(a: seq<Request>, p: SoilProperty, d: SoilDepthLabel, vs: seq<Statistic>, k: int)
    requires 0 <= k < |vs|
    ensures a + Row(p, d, vs[..k + 1]) == (a + Row(p, d, vs[..k])) + [Request(p, d, vs[k])]
  {
    assert vs[..k + 1][..k] == vs[..k];
  }

  /** One more depth appends its row to the block (after any prefix `a`). */
  lemma {:induction false} BlockSnoc(a: seq<Request>, p: SoilProperty, ds: seq<SoilDepthLabel>, vs: seq<Statistic>, j: int)
    requires 0 <= j < |ds|
    ensures a + Block(p, ds[..j + 1], vs) == (a + Block(p, ds[..j], vs)) + Row(p, ds[j], vs)
  {
    assert ds[..j + 1][..j] == ds[..j];
  }

  lemma {:induction false} RequestsSnoc(ps: seq<SoilProperty>, ds: seq<SoilDepthLabel>, vs: seq<Statistic>, i: int)
    requires 0 <= i < |ps|
    ensures Requests(ps[..i + 1], ds, vs) == Requests(ps[..i], ds, vs) + Block(ps[i], ds, vs)
  {
    assert ps[..i + 1][..i] == ps[..i];
  }

  /** The argument tuples of the raster reads: each path at the queried location, reprojected. */
  function PointReads(paths: seq<RasterRef>, lat: real, lon: real): (r: seq<PointRead>)
    ensures |r| == |paths|
    ensures forall n :: 0 <= n < |paths| ==> r[n] == PointRead(paths[n], lat, lon, true)
  {
    seq(|paths|, n requires 0 <= n < |paths| => PointRead(paths[n], lat, lon, true))
  }

  /** The values read for the requests, in request order. */
  function RequestValues(requests: seq<Request>, lat: real, lon: real, sample: PointRead -> int): (r: seq<int>)
    ensures |r| == |requests|
    ensures forall n :: 0 <= n < |requests| ==>
      r[n] == sample(PointRead(PropertyRaster(requests[n]), lat, lon, true))
  {
    var argsList := PointReads(seq(|requests|, n requires 0 <= n < |requests| => PropertyRaster(requests[n])), lat, lon);
    var values := MapSeq(sample, argsList);
    forall n | 0 <= n < |requests|
      ensures values[n] == sample(PointRead(PropertyRaster(requests[n]), lat, lon, true))
    {
      MapSeqIndex(sample, argsList, n);
    }
    values
  }

  // ---------------------------------------------------------------------------------------------
  // The layer loop

  /** The layer loop over the requested properties: the first property without a dict raises
      `KeyError`. */
  function LayersOf(ps: seq<SoilProperty>, info: SoilMapInfo): Result<seq<SoilLayer>, KeyError>
    requires InfoValid(info)
  {
    if ps == [] then Success([])
    else
      match LayersOf(ps[..|ps| - 1], info)
      case Failure(e) => Failure(e)
      case Success(layers) =>
        var p := ps[|ps| - 1];
        if p in info then Success(layers + [SoilLayerOf(p, info[p])]) else Failure(KeyError(p))
  }

  /** `for property in properties: all_soil_layers.append(generate_soil_layer(...))`. */
  method AssembleLayers(ps: seq<SoilProperty>, info: SoilMapInfo) returns (r: Result<seq<SoilLayer>, KeyError>)
    requires InfoValid(info)
    ensures r == LayersOf(ps, info)
  {
    var layers: seq<SoilLayer> := [];
    for i := 0 to |ps|
      invariant LayersOf(ps[..i], info) == Success(layers)
    {
      assert ps[..i + 1][..i] == ps[..i];
      if ps[i] !in info {
        LayersOfFailureSticks(ps, info, i + 1);
        return Failure(KeyError(ps[i]));
      }
      var layer := GenerateSoilLayer(ps[i], info[ps[i]]);
      layers := layers + [layer];
    }
    assert ps[..|ps|] == ps;
    r := Success(layers);
  }

  /** Once the layer loop has raised, the rest of the properties leave the error as it is. */
  lemma {:induction false} LayersOfFailureSticks(ps: seq<SoilProperty>, info: SoilMapInfo, n: int)
    requires InfoValid(info)
    requires 0 <= n <= |ps| && LayersOf(ps[..n], info).Failure?
    ensures LayersOf(ps, info) == LayersOf(ps[..n], info)
  {
    if n < |ps| {
      assert ps[..|ps| - 1][..n] == ps[..n];
      LayersOfFailureSticks(ps[..|ps| - 1], info, n);
    } else {
      assert ps[..n] == ps;
    }
  }

  /** The layer loop succeeds exactly when every property has a dict. */
  lemma {:induction false} LayersOfSucceeds(ps: seq<SoilProperty>, info: SoilMapInfo)
    requires InfoValid(info)
    ensures LayersOf(ps, info).Success? <==> forall p :: p in ps ==> p in info
  {
    if ps != [] {
      var front := ps[..|ps| - 1];
      LayersOfSucceeds(front, info);
      assert ps == front + [ps[|ps| - 1]];
    }
  }

  /** On success there is one layer per property, in order, each built from its dict. */
  lemma {:induction false} LayersOfValues(ps: seq<SoilProperty>, info: SoilMapInfo)
    requires InfoValid(info)
    ensures LayersOf(ps, info).Success? ==>
      (forall p :: p in ps ==> p in info) && |LayersOf(ps, info).value| == |ps| &&
      forall i :: 0 <= i < |ps| ==> LayersOf(ps, info).value[i] == SoilLayerOf(ps[i], info[ps[i]])
  {
    LayersOfSucceeds(ps, info);
    if ps != [] && LayersOf(ps, info).Success? {
      var front, last := ps[..|ps| - 1], ps[|ps| - 1];
      LayersOfValues(front, info);
      var layers := LayersOf(front, info).value;
      assert LayersOf(ps, info).value == layers + [SoilLayerOf(last, info[last])];
      forall i | 0 <= i < |ps| ensures LayersOf(ps, info).value[i] == SoilLayerOf(ps[i], info[ps[i]]) {
        if i < |front| {
          assert ps[i] == front[i];
        }
      }
    }
  }

  /** On failure the error names the first property without a dict. */
  lemma {:induction false} LayersOfError(ps: seq<SoilProperty>, info: SoilMapInfo)
    requires InfoValid(info)
    ensures LayersOf(ps, info).Failure? ==>
      exists i :: 0 <= i < |ps| && ps[i] !in info && LayersOf(ps, info).error == KeyError(ps[i]) &&
        forall k :: 0 <= k < i ==> ps[k] in info
  {
    if ps != [] {
      var front := ps[..|ps| - 1];
      LayersOfError(front, info);
      LayersOfSucceeds(front, info);
      if LayersOf(front, info).Failure? {
        var i :| 0 <= i < |front| && front[i] !in info && LayersOf(front, info).error == KeyError(front[i]) &&
          forall k :: 0 <= k < i ==> front[k] in info;
        assert ps[i] == front[i];
        assert forall k :: 0 <= k < i ==> ps[k] == front[k];
      } else if LayersOf(ps, info).Failure? {
        assert forall k :: 0 <= k < |front| ==> ps[k] == front[k];
      }
    }
  }

  // ---------------------------------------------------------------------------------------------
  // The route

  /** The grouped values of `get_soil_property` for the expanded requests. */
  function InfoFor(lat: real, lon: real, ps: seq<SoilProperty>, ds: seq<SoilDepthLabel>, vs: seq<Statistic>,
                   sample: PointRead -> int): (r: SoilMapInfo)
    ensures InfoValid(r)
  {
    var requests := Requests(ps, ds, vs);
    GroupValid(Zip(requests, RequestValues(requests, lat, lon, sample)));
    Group(Zip(requests, RequestValues(requests, lat, lon, sample)))
  }

  /** The response of `get_soil_property`, or the `KeyError` it raises. */
  function SoilPropertyResponse(lat: real, lon: real, ps: seq<SoilProperty>, ds: seq<SoilDepthLabel>,
                                vs: seq<Statistic>, sample: PointRead -> int): Result<SoilPropertyJSON, KeyError> {
    match LayersOf(ps, InfoFor(lat, lon, ps, ds, vs, sample))
    case Failure(e) => Failure(e)
    case Success(layers) => Success(SoilPropertyJSON(PointGeometry([lon, lat]), layers))
  }

  /** `get_soil_property`: expansion, the raster reads, grouping and the layer loop. */
  method GetSoilProperty(lat: real, lon: real, ps: seq<SoilProperty>, ds: seq<SoilDepthLabel>,
                         vs: seq<Statistic>, sample: PointRead -> int)
    returns (response: Result<SoilPropertyJSON, KeyError>)
    ensures response == SoilPropertyResponse(lat, lon, ps, ds, vs, sample)
  {
    var requests, paths := ExpandRequests(ps, ds, vs);
    var values := RunSequential(sample, PointReads(paths, lat, lon));
    assert values == RequestValues(requests, lat, lon, sample);
    var info := GroupValues(requests, values);
    GroupValid(Zip(requests, values));
    var layers := AssembleLayers(ps, info);
    match layers {
      case Failure(e) =>
        response := Failure(e);
      case Success(ls) =>
        response := Success(SoilPropertyJSON(PointGeometry([lon, lat]), ls));
    }
  }

  // ---------------------------------------------------------------------------------------------
  // What the response holds

  /** The entries of the grouping loop are the requests, each with the value read for it. */
  lemma {:induction false} EntriesOf(requests: seq<Request>, lat: real, lon: real, sample: PointRead -> int)
    ensures Firsts(Zip(requests, RequestValues(requests, lat, lon, sample))) == requests
    ensures forall n :: 0 <= n < |requests| ==>
      Zip(requests, RequestValues(requests, lat, lon, sample))[n].1 ==
        sample(PointRead(PropertyRaster(Zip(requests, RequestValues(requests, lat, lon, sample))[n].0), lat, lon, true))
  {
  }

  /** A property gets a dict exactly when it was requested with at least one depth and at least
      one statistic. */
  lemma {:induction false} InfoProperties(lat: real, lon: real, ps: seq<SoilProperty>, ds: seq<SoilDepthLabel>,
                       vs: seq<Statistic>, sample: PointRead -> int, p: SoilProperty)
    ensures p in InfoFor(lat, lon, ps, ds, vs, sample) <==> p in ps && ds != [] && vs != []
  {
    var requests := Requests(ps, ds, vs);
    var values := RequestValues(requests, lat, lon, sample);
    assert InfoFor(lat, lon, ps, ds, vs, sample) == Group(Zip(requests, values));
    GroupedProperties(ps, ds, vs, values, p);
  }

  /** `InfoProperties` for any list of sampled values, one per request. */
  lemma {:induction false} GroupedProperties(ps: seq<SoilProperty>, ds: seq<SoilDepthLabel>, vs: seq<Statistic>,
                                             values: seq<int>, p: SoilProperty)
    requires |values| == |Requests(ps, ds, vs)|
    ensures p in Group(Zip(Requests(ps, ds, vs), values)) <==> p in ps && ds != [] && vs != []
  {
    var requests := Requests(ps, ds, vs);
    var es := Zip(requests, values);
    GroupProperties(es, p);
    if p in ps && ds != [] && vs != [] {
      RequestsMembership(ps, ds, vs, Request(p, ds[0], vs[0]));
      var n :| 0 <= n < |requests| && requests[n] == Request(p, ds[0], vs[0]);
      assert es[n].0 == requests[n];
    }
    if p in Group(es) {
      var n :| 0 <= n < |es| && es[n].0.property == p;
      assert es[n].0 == requests[n];
      RequestsMembership(ps, ds, vs, requests[n]);
    }
  }

  /** The route raises `KeyError` exactly when some property was requested but no depth or no
      statistic was, and then for the first property. */
  lemma {:induction false} SoilPropertyFailure(lat: real, lon: real, ps: seq<SoilProperty>, ds: seq<SoilDepthLabel>,
                            vs: seq<Statistic>, sample: PointRead -> int)
    ensures SoilPropertyResponse(lat, lon, ps, ds, vs, sample).Failure? <==> ps != [] && (ds == [] || vs == [])
    ensures SoilPropertyResponse(lat, lon, ps, ds, vs, sample).Failure? ==>
      SoilPropertyResponse(lat, lon, ps, ds, vs, sample).error == KeyError(ps[0])
  {
    var info := InfoFor(lat, lon, ps, ds, vs, sample);
    LayersOfSucceeds(ps, info);
    LayersOfError(ps, info);
    forall p | p in ps ensures p in info <==> ds != [] && vs != [] {
      InfoProperties(lat, lon, ps, ds, vs, sample, p);
    }
  }

  // ---------------------------------------------------------------------------------------------
  // The depth order of the grouped values

  lemma {:induction false} DepthsOfAppend(a: seq<Request>, b: seq<Request>, p: SoilProperty)
    ensures DepthsOf(a + b, p) == DepthsOf(a, p) + DepthsOf(b, p)
  {
    if b == [] {
      assert a + b == a;
    } else {
      var front := b[..|b| - 1];
      DepthsOfAppend(a, front, p);
      assert (a + b)[..|a + b| - 1] == a + front;
    }
  }

  /** A row for property `q` gives `p` one copy of its depth per statistic when `q` is `p`, and
      nothing otherwise. */
  lemma {:induction false} RowDepths(q: SoilProperty, d: SoilDepthLabel, vs: seq<Statistic>, p: SoilProperty)
    ensures |DepthsOf(Row(q, d, vs), p)| == if q == p then |vs| else 0
    ensures forall k :: 0 <= k < |DepthsOf(Row(q, d, vs), p)| ==> DepthsOf(Row(q, d, vs), p)[k] == d
  {
    if vs != [] {
      var front := vs[..|vs| - 1];
      RowDepths(q, d, front, p);
      assert Row(q, d, vs)[..|Row(q, d, vs)| - 1] == Row(q, d, front);
    }
  }

  /** A block for property `q` gives `p` depths drawn from `ds` only, and none when `q` is not `p`. */
  lemma {:induction false} BlockDepths(q: SoilProperty, ds: seq<SoilDepthLabel>, vs: seq<Statistic>, p: SoilProperty)
    ensures forall k :: 0 <= k < |DepthsOf(Block(q, ds, vs), p)| ==> DepthsOf(Block(q, ds, vs), p)[k] in ds
    ensures q != p ==> DepthsOf(Block(q, ds, vs), p) == []
  {
    if ds != [] {
      var front := ds[..|ds| - 1];
      var d := ds[|ds| - 1];
      BlockDepths(q, front, vs, p);
      RowDepths(q, d, vs, p);
      DepthsOfAppend(Block(q, front, vs), Row(q, d, vs), p);
      var a := DepthsOf(Block(q, front, vs), p);
      var r := DepthsOf(Row(q, d, vs), p);
      forall k | 0 <= k < |a + r| ensures (a + r)[k] in ds {
        if k < |a| {
          assert a[k] in front;
        } else {
          assert r[k - |a|] == d;
        }
      }
    }
  }

  /** With at least one statistic, the depths of a property's own block, deduplicated, are the
      requested depths, deduplicated. */
  lemma {:induction false} BlockDepthOrder(p: SoilProperty, ds: seq<SoilDepthLabel>, vs: seq<Statistic>)
    requires vs != []
    ensures Dedup(DepthsOf(Block(p, ds, vs), p)) == Dedup(ds)
  {
    if ds != [] {
      var front := ds[..|ds| - 1];
      var d := ds[|ds| - 1];
      BlockDepthOrder(p, front, vs);
      RowDepths(p, d, vs, p);
      DepthsOfAppend(Block(p, front, vs), Row(p, d, vs), p);
      var a := DepthsOf(Block(p, front, vs), p);
      var r := DepthsOf(Row(p, d, vs), p);
      assert r == [d] + r[1..];
      assert a + r == (a + [d]) + r[1..];
      DedupAppendCovered(a + [d], r[1..]);
      assert (a + [d])[..|a|] == a;
    }
  }

  /** A property that was requested, with at least one statistic, has the requested depths,
      deduplicated in first-request order, as its depth keys. */
  lemma {:induction false} RequestsDepthOrder(ps: seq<SoilProperty>, ds: seq<SoilDepthLabel>, vs: seq<Statistic>, p: SoilProperty)
    requires p in ps && vs != []
    ensures Dedup(DepthsOf(Requests(ps, ds, vs), p)) == Dedup(ds)
  {
    var front := ps[..|ps| - 1];
    var q := ps[|ps| - 1];
    DepthsOfAppend(Requests(front, ds, vs), Block(q, ds, vs), p);
    BlockDepths(q, ds, vs, p);
    var a := DepthsOf(Requests(front, ds, vs), p);
    var b := DepthsOf(Block(q, ds, vs), p);
    if p in front {
      RequestsDepthOrder(front, ds, vs, p);
      DedupMembers(a);
      DedupMembers(ds);
      forall k | 0 <= k < |b| ensures b[k] in a {
        assert b[k] in ds;
        assert b[k] in Dedup(ds);
      }
      DedupAppendCovered(a, b);
    } else {
      assert q == p;
      RequestsOnlyRequested(front, ds, vs);
      DepthsOfAbsent(Requests(front, ds, vs), p);
      BlockDepthOrder(p, ds, vs);
      assert a + b == b;
    }
  }

  // ---------------------------------------------------------------------------------------------
  // The layers of a successful response

  /** With at least one depth and one statistic the route succeeds, at the queried point, with
      one layer per requested property, in request order, each carrying that property's code,
      name and unit. */
  lemma {:induction false} SoilPropertyLayers(lat: real, lon: real, ps: seq<SoilProperty>, ds: seq<SoilDepthLabel>,
                           vs: seq<Statistic>, sample: PointRead -> int)
    requires ds != [] && vs != []
    ensures SoilPropertyResponse(lat, lon, ps, ds, vs, sample).Success?
    ensures SoilPropertyResponse(lat, lon, ps, ds, vs, sample).value.geometry == PointGeometry([lon, lat])
    ensures |SoilPropertyResponse(lat, lon, ps, ds, vs, sample).value.layers| == |ps|
    ensures forall i :: 0 <= i < |ps| ==>
      var layer := SoilPropertyResponse(lat, lon, ps, ds, vs, sample).value.layers[i];
      layer.code == PropertyCode(ps[i]) && layer.name == PropertyName(ps[i]) && layer.unit == PropertyUnit(ps[i])
  {
    SoilPropertyFailure(lat, lon, ps, ds, vs, sample);
    LayersOfValues(ps, InfoFor(lat, lon, ps, ds, vs, sample));
  }

  /** Each requested property's dict has the requested depths as keys, each at its first
      request and none twice, when at least one depth and one statistic were requested. */
  lemma {:induction false} InfoDepthKeys(lat: real, lon: real, ps: seq<SoilProperty>, ds: seq<SoilDepthLabel>,
                      vs: seq<Statistic>, sample: PointRead -> int, p: SoilProperty)
    requires p in ps && ds != [] && vs != []
    ensures p in InfoFor(lat, lon, ps, ds, vs, sample)
    ensures InfoFor(lat, lon, ps, ds, vs, sample)[p].keys == Dedup(ds)
  {
    var requests := Requests(ps, ds, vs);
    var es := Zip(requests, RequestValues(requests, lat, lon, sample));
    EntriesOf(requests, lat, lon, sample);
    InfoProperties(lat, lon, ps, ds, vs, sample, p);
    GroupDepthOrder(es, p);
    RequestsDepthOrder(ps, ds, vs, p);
  }

  /** Under each (property, depth, statistic) the grouped values hold the value read from that
      request's raster exactly when all three were requested and the value is not a no-data
      value. */
  lemma {:induction false} InfoStatistic(lat: real, lon: real, ps: seq<SoilProperty>, ds: seq<SoilDepthLabel>,
                      vs: seq<Statistic>, sample: PointRead -> int, p: SoilProperty, d: SoilDepthLabel, s: Statistic)
    ensures var v := sample(PointRead(PropertyRaster(Request(p, d, s)), lat, lon, true));
      Lookup(InfoFor(lat, lon, ps, ds, vs, sample), p, d, s) ==
        if p in ps && d in ds && s in vs && v !in NoDataValues then Some(v) else None
  {
    var requests := Requests(ps, ds, vs);
    var es := Zip(requests, RequestValues(requests, lat, lon, sample));
    EntriesOf(requests, lat, lon, sample);
    GroupStatistic(es, p, d, s);
    var f := (r: Request) => sample(PointRead(PropertyRaster(r), lat, lon, true));
    LastGoodDetermined(es, Request(p, d, s), f);
    RequestsMembership(ps, ds, vs, Request(p, d, s));
  }

  /** With at least one depth and one statistic, layer `i` lists the requested depths once
      each, in first-request order, each with its label and the depth table's range, and
      each statistic field holds the value read for (property, depth, statistic) exactly
      when that statistic was requested and the value is not a no-data value. A depth whose
      values are all no-data keeps its entry, with every field absent. */
  lemma {:induction false} SoilPropertyDepths(lat: real, lon: real, ps: seq<SoilProperty>, ds: seq<SoilDepthLabel>,
                           vs: seq<Statistic>, sample: PointRead -> int, i: int, j: int, s: Statistic)
    requires ds != [] && vs != [] && 0 <= i < |ps| && 0 <= j < |Dedup(ds)|
    ensures SoilPropertyResponse(lat, lon, ps, ds, vs, sample).Success?
    ensures |SoilPropertyResponse(lat, lon, ps, ds, vs, sample).value.layers| == |ps|
    ensures var layer := SoilPropertyResponse(lat, lon, ps, ds, vs, sample).value.layers[i];
      var v := sample(PointRead(PropertyRaster(Request(ps[i], Dedup(ds)[j], s)), lat, lon, true));
      |layer.depths| == |Dedup(ds)| &&
      layer.depths[j].depthLabel == Dedup(ds)[j] &&
      layer.depths[j].range == DepthRangeOf(Dedup(ds)[j]) &&
      StatisticField(layer.depths[j].values, s) == if s in vs && v !in NoDataValues then Some(v) else None
  {
    var info := InfoFor(lat, lon, ps, ds, vs, sample);
    SoilPropertyLayers(lat, lon, ps, ds, vs, sample);
    LayersOfValues(ps, info);
    InfoDepthKeys(lat, lon, ps, ds, vs, sample, ps[i]);
    InfoStatistic(lat, lon, ps, ds, vs, sample, ps[i], Dedup(ds)[j], s);
    DedupMembers(ds);
    assert Dedup(ds)[j] in ds;
    assert Dedup(ds)[j] in info[ps[i]].entries;
  }

  /** One property, one depth, the mean: a single layer for `bdod` with a single `0-5cm` entry
      from 0 to 5 cm. */
  lemma {:induction false} BdodExample(lat: real, lon: real, sample: PointRead -> int,
                    ps: seq<SoilProperty>, ds: seq<SoilDepthLabel>, vs: seq<Statistic>)
    requires ps == [Bdod] && ds == [Depth0To5] && vs == [Mean]
    ensures var r := SoilPropertyResponse(lat, lon, ps, ds, vs, sample);
      r.Success? && |r.value.layers| == 1 && r.value.layers[0].code == "bdod" &&
      |r.value.layers[0].depths| == 1 &&
      r.value.layers[0].depths[0].depthLabel == Depth0To5 &&
      r.value.layers[0].depths[0].range == DepthRange(0, 5, "cm")
  {
    DedupDistinct(ds);
    SoilPropertyLayers(lat, lon, ps, ds, vs, sample);
    SoilPropertyDepths(lat, lon, ps, ds, vs, sample, 0, 0, Mean);
    BdodExampleTables();
  }

  /** For that request the grouped values hold, under `bdod`, `0-5cm` and `mean`, the value
      read from `bdod_0-5cm_mean.vrt` unless it is a no-data value, and nothing under the
      median, which was not requested. */
  lemma {:induction false} BdodExampleStored(lat: real, lon: real, sample: PointRead -> int,
                          ps: seq<SoilProperty>, ds: seq<SoilDepthLabel>, vs: seq<Statistic>)
    requires ps == [Bdod] && ds == [Depth0To5] && vs == [Mean]
    ensures var v := sample(PointRead(RasterRef("bdod", "bdod_0-5cm_mean.vrt"), lat, lon, true));
      var info := InfoFor(lat, lon, ps, ds, vs, sample);
      Lookup(info, Bdod, Depth0To5, Mean) == (if v in NoDataValues then None else Some(v)) &&
      Lookup(info, Bdod, Depth0To5, Q0_5) == None
  {
    PropertyRasterExample();
    InfoStatistic(lat, lon, ps, ds, vs, sample, Bdod, Depth0To5, Mean);
    InfoStatistic(lat, lon, ps, ds, vs, sample, Bdod, Depth0To5, Q0_5);
  }

  /** The table entries the example reads. */
  lemma {:induction false} BdodExampleTables()
    ensures DepthRangeOf(Depth0To5) == DepthRange(0, 5, "cm") && PropertyCode(Bdod) == "bdod"
  {
  }
}
