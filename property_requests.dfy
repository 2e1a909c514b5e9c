/** The request expansion of `get_soil_property` (`soil_api/routes/soil_routes.py:155-172`): one
    raster read per property, depth and statistic, properties outermost and statistics
    innermost, each with the file name of its raster. */
module PropertyRequests {
  import opened SoilModels
  import opened Sampling
  import Text

  /** One entry of the parallel lists `all_properties`, `all_depths` and `all_value_types`. */
  datatype Request = Request(property: SoilProperty, depth: SoilDepthLabel, statistic: Statistic)

  /** The innermost loop: one request per statistic. */
  function Row(p: SoilProperty, d: SoilDepthLabel, vs: seq<Statistic>): (r: seq<Request>)
    ensures |r| == |vs|
  {
    if vs == [] then [] else Row(p, d, vs[..|vs| - 1]) + [Request(p, d, vs[|vs| - 1])]
  }

  /** The middle loop: one row per depth. */
  function Block(p: SoilProperty, ds: seq<SoilDepthLabel>, vs: seq<Statistic>): seq<Request> {
    if ds == [] then [] else Block(p, ds[..|ds| - 1], vs) + Row(p, ds[|ds| - 1], vs)
  }

  /** The outer loop: one block per property. */
  function Requests(ps: seq<SoilProperty>, ds: seq<SoilDepthLabel>, vs: seq<Statistic>): seq<Request> {
    if ps == [] then [] else Requests(ps[..|ps| - 1], ds, vs) + Block(ps[|ps| - 1], ds, vs)
  }

  // ---------------------------------------------------------------------------------------------
  // Layout of the expansion

  lemma {:induction false} RowLayout(p: SoilProperty, d: SoilDepthLabel, vs: seq<Statistic>)
    ensures forall k :: 0 <= k < |vs| ==> Row(p, d, vs)[k] == Request(p, d, vs[k])
  {
    if vs != [] {
      RowLayout(p, d, vs[..|vs| - 1]);
    }
  }

  lemma {:induction false} RowSlot(p: SoilProperty, d: SoilDepthLabel, vs: seq<Statistic>, k: int)
    requires 0 <= k < |vs|
    ensures Row(p, d, vs)[k] == Request(p, d, vs[k])
  {
    RowLayout(p, d, vs);
  }

  /** `a·b` by repeated addition; the layout proofs below use it so that they stay within
      linear arithmetic. */
  function Times(a: nat, b: nat): nat {
    if a == 0 then 0 else Times(a - 1, b) + b
  }

  lemma {:induction false} TimesIsProduct(a: nat, b: nat)
    ensures Times(a, b) == a * b
  {
    if a > 0 {
      TimesIsProduct(a - 1, b);
      assert (a - 1) * b + b == a * b;
    }
  }

  lemma {:induction false} BlockLength(p: SoilProperty, ds: seq<SoilDepthLabel>, vs: seq<Statistic>)
    ensures |Block(p, ds, vs)| == Times(|ds|, |vs|)
  {
    if ds != [] {
      BlockLength(p, ds[..|ds| - 1], vs);
    }
  }

  lemma {:induction false} RequestsLength(ps: seq<SoilProperty>, ds: seq<SoilDepthLabel>, vs: seq<Statistic>)
    ensures |Requests(ps, ds, vs)| == Times(|ps|, Times(|ds|, |vs|))
  {
    if ps != [] {
      RequestsLength(ps[..|ps| - 1], ds, vs);
      BlockLength(ps[|ps| - 1], ds, vs);
    }
  }

  lemma AppendAssociative<T>(a: seq<T>, b: seq<T>, c: seq<T>)
    ensures (a + b) + c == a + (b + c)
  {
  }

  /** Expanding two lists of depths one after the other is expanding their concatenation. */
  lemma {:induction false} BlockAppend(p: SoilProperty, ds1: seq<SoilDepthLabel>, ds2: seq<SoilDepthLabel>, vs: seq<Statistic>)
    ensures Block(p, ds1 + ds2, vs) == Block(p, ds1, vs) + Block(p, ds2, vs)
  {
    if ds2 == [] {
      assert ds1 + ds2 == ds1;
    } else {
      var m := |ds2| - 1;
      BlockAppend(p, ds1, ds2[..m], vs);
      assert (ds1 + ds2)[..|ds1 + ds2| - 1] == ds1 + ds2[..m];
      assert (ds1 + ds2)[|ds1 + ds2| - 1] == ds2[m];
      var a, b, c := Block(p, ds1, vs), Block(p, ds2[..m], vs), Row(p, ds2[m], vs);
      assert Block(p, ds2, vs) == b + c;
      assert Block(p, ds1 + ds2, vs) == (a + b) + c;
      AppendAssociative(a, b, c);
    }
  }

  /** Expanding two lists of properties one after the other is expanding their concatenation. */
  lemma {:induction false} RequestsAppend(ps1: seq<SoilProperty>, ps2: seq<SoilProperty>, ds: seq<SoilDepthLabel>, vs: seq<Statistic>)
    ensures Requests(ps1 + ps2, ds, vs) == Requests(ps1, ds, vs) + Requests(ps2, ds, vs)
  {
    if ps2 == [] {
      assert ps1 + ps2 == ps1;
    } else {
      var m := |ps2| - 1;
      RequestsAppend(ps1, ps2[..m], ds, vs);
      assert (ps1 + ps2)[..|ps1 + ps2| - 1] == ps1 + ps2[..m];
      assert (ps1 + ps2)[|ps1 + ps2| - 1] == ps2[m];
      var a, b, c := Requests(ps1, ds, vs), Requests(ps2[..m], ds, vs), Block(ps2[m], ds, vs);
      assert Requests(ps2, ds, vs) == b + c;
      assert Requests(ps1 + ps2, ds, vs) == (a + b) + c;
      AppendAssociative(a, b, c);
    }
  }

  lemma MiddleIndex<T>(a: seq<T>, b: seq<T>, c: seq<T>, x: int)
    requires 0 <= x < |b|
    ensures (a + b + c)[|a| + x] == b[x]
  {
  }

  /** A block is the depths before the `j`-th, that depth's row, and the depths after it. */
  lemma {:induction false} BlockSplit(p: SoilProperty, ds: seq<SoilDepthLabel>, vs: seq<Statistic>, j: int)
    requires 0 <= j < |ds|
    ensures Block(p, ds, vs) == Block(p, ds[..j], vs) + Row(p, ds[j], vs) + Block(p, ds[j + 1..], vs)
  {
    var before, after := ds[..j], ds[j + 1..];
    assert ds == before + [ds[j]] + after;
    BlockAppend(p, before + [ds[j]], after, vs);
    BlockAppend(p, before, [ds[j]], vs);
    assert Block(p, [ds[j]], vs) == Row(p, ds[j], vs) by {
      assert [ds[j]][..0] == [];
    }
  }

  /** The expansion is the properties before the `i`-th, that property's block, and the
      properties after it. */
  lemma {:induction false} RequestsSplit(ps: seq<SoilProperty>, ds: seq<SoilDepthLabel>, vs: seq<Statistic>, i: int)
    requires 0 <= i < |ps|
    ensures Requests(ps, ds, vs) == Requests(ps[..i], ds, vs) + Block(ps[i], ds, vs) + Requests(ps[i + 1..], ds, vs)
  {
    var before, after := ps[..i], ps[i + 1..];
    assert ps == before + [ps[i]] + after;
    RequestsAppend(before + [ps[i]], after, ds, vs);
    RequestsAppend(before, [ps[i]], ds, vs);
    assert Requests([ps[i]], ds, vs) == Block(ps[i], ds, vs) by {
      assert [ps[i]][..0] == [];
    }
  }

  /** The request in slot `j·|V| + k` of a block is for the `j`-th depth and `k`-th statistic. */
  lemma {:induction false} BlockSlot(p: SoilProperty, ds: seq<SoilDepthLabel>, vs: seq<Statistic>, j: nat, k: nat)
    requires j < |ds| && k < |vs|
    ensures |Block(p, ds, vs)| == Times(|ds|, |vs|)
    ensures Times(j, |vs|) + k < Times(|ds|, |vs|)
    ensures Block(p, ds, vs)[Times(j, |vs|) + k] == Request(p, ds[j], vs[k])
  {
    BlockRowSlot(p, ds, vs, j, k);
    RowSlot(p, ds[j], vs, k);
  }

  /** Slot `j·|V| + k` of a block is slot `k` of the `j`-th depth's row. */
  lemma {:induction false} BlockRowSlot(p: SoilProperty, ds: seq<SoilDepthLabel>, vs: seq<Statistic>, j: nat, k: nat)
    requires j < |ds| && k < |vs|
    ensures |Block(p, ds, vs)| == Times(|ds|, |vs|)
    ensures Times(j, |vs|) + k < Times(|ds|, |vs|)
    ensures Block(p, ds, vs)[Times(j, |vs|) + k] == Row(p, ds[j], vs)[k]
  {
    BlockSplit(p, ds, vs, j);
    BlockLength(p, ds[..j], vs);
    BlockLength(p, ds, vs);
    MiddleIndex(Block(p, ds[..j], vs), Row(p, ds[j], vs), Block(p, ds[j + 1..], vs), k);
  }

  /** The request in slot `i·B + x` of the expansion, for a block width `B = |D|·|V|`, is slot
      `x` of the `i`-th property's block. */
  lemma {:induction false} RequestsSlot(ps: seq<SoilProperty>, ds: seq<SoilDepthLabel>, vs: seq<Statistic>, i: nat, x: nat,
                                       r: Request)
    requires i < |ps| && x < |Block(ps[i], ds, vs)| && Block(ps[i], ds, vs)[x] == r
    ensures |Requests(ps, ds, vs)| == Times(|ps|, Times(|ds|, |vs|))
    ensures Times(i, Times(|ds|, |vs|)) + x < Times(|ps|, Times(|ds|, |vs|))
    ensures Requests(ps, ds, vs)[Times(i, Times(|ds|, |vs|)) + x] == r
  {
    RequestsSplit(ps, ds, vs, i);
    RequestsLength(ps[..i], ds, vs);
    RequestsLength(ps, ds, vs);
    BlockLength(ps[i], ds, vs);
    MiddleIndex(Requests(ps[..i], ds, vs), Block(ps[i], ds, vs), Requests(ps[i + 1..], ds, vs), x);
  }

  /** The expansion has |P|·(|D|·|V|) requests, and the one at position i·(|D|·|V|) + j·|V| + k
      is for the i-th property, the j-th depth and the k-th statistic: properties outermost,
      statistics innermost. The products are written with `Times`, which `TimesIsProduct`
      shows to be multiplication. */
  lemma {:induction false} RequestsLayout(ps: seq<SoilProperty>, ds: seq<SoilDepthLabel>, vs: seq<Statistic>, i: int, j: int, k: int)
    requires 0 <= i < |ps| && 0 <= j < |ds| && 0 <= k < |vs|
    ensures |Requests(ps, ds, vs)| == Times(|ps|, Times(|ds|, |vs|))
    ensures Times(i, Times(|ds|, |vs|)) + (Times(j, |vs|) + k) < |Requests(ps, ds, vs)|
    ensures Requests(ps, ds, vs)[Times(i, Times(|ds|, |vs|)) + (Times(j, |vs|) + k)] == Request(ps[i], ds[j], vs[k])
  {
    BlockSlot(ps[i], ds, vs, j, k);
    RequestsSlot(ps, ds, vs, i, Times(j, |vs|) + k, Request(ps[i], ds[j], vs[k]));
  }

  /** The expansion has |P|·|D|·|V| requests. */
  lemma {:induction false} RequestsCount(ps: seq<SoilProperty>, ds: seq<SoilDepthLabel>, vs: seq<Statistic>)
    ensures |Requests(ps, ds, vs)| == |ps| * (|ds| * |vs|)
  {
    RequestsLength(ps, ds, vs);
    TimesIsProduct(|ds|, |vs|);
    TimesIsProduct(|ps|, |ds| * |vs|);
  }

  /** A request is in the expansion exactly when its property, depth and statistic were all
      requested. */
  lemma {:induction false} RequestsMembership(ps: seq<SoilProperty>, ds: seq<SoilDepthLabel>, vs: seq<Statistic>, r: Request)
    ensures r in Requests(ps, ds, vs) <==> r.property in ps && r.depth in ds && r.statistic in vs
  {
    if r in Requests(ps, ds, vs) {
      RequestsOnlyRequested(ps, ds, vs);
    }
    if r.property in ps && r.depth in ds && r.statistic in vs {
      var i :| 0 <= i < |ps| && ps[i] == r.property;
      var j :| 0 <= j < |ds| && ds[j] == r.depth;
      var k :| 0 <= k < |vs| && vs[k] == r.statistic;
      RequestsLayout(ps, ds, vs, i, j, k);
    }
  }

  lemma {:induction false} RequestsOnlyRequested(ps: seq<SoilProperty>, ds: seq<SoilDepthLabel>, vs: seq<Statistic>)
    ensures forall r :: r in Requests(ps, ds, vs) ==> r.property in ps && r.depth in ds && r.statistic in vs
  {
    if ps != [] {
      var m := |ps| - 1;
      RequestsOnlyRequested(ps[..m], ds, vs);
      BlockOnlyRequested(ps[m], ds, vs);
      assert forall q :: q in ps[..m] ==> q in ps;
    }
  }

  lemma {:induction false} BlockOnlyRequested(p: SoilProperty, ds: seq<SoilDepthLabel>, vs: seq<Statistic>)
    ensures forall r :: r in Block(p, ds, vs) ==> r.property == p && r.depth in ds && r.statistic in vs
  {
    if ds != [] {
      var m := |ds| - 1;
      BlockOnlyRequested(p, ds[..m], vs);
      RowLayout(p, ds[m], vs);
      assert forall d :: d in ds[..m] ==> d in ds;
      forall r | r in Row(p, ds[m], vs) ensures r.property == p && r.depth in ds && r.statistic in vs {
        var k :| 0 <= k < |vs| && Row(p, ds[m], vs)[k] == r;
      }
    }
  }

  // ---------------------------------------------------------------------------------------------
  // File names

  /** The statistic as it appears in a file name: `_` rewritten to `.`. */
  function FileToken(s: Statistic): string {
    var name := StatisticName(s);
    if '_' in name then Text.ReplaceUnderscores(name) else name
  }

  /** `{soil_maps_url}/{property}/{property}_{depth}_{value_type}.vrt`. */
  function PropertyRaster(r: Request): RasterRef {
    var code := PropertyCode(r.property);
    RasterRef(code, code + "_" + DepthLabel(r.depth) + "_" + FileToken(r.statistic) + ".vrt")
  }

  /** The file-name token is the statistic's name with every `_` rewritten to `.`, so it has no
      `_` at all, while the request keeps the statistic itself: `Q0_05` is read from a
      `Q0.05` file and stored under `Q0_05`. */
  lemma {:induction false} FileTokenRewrite(s: Statistic)
    ensures |FileToken(s)| == |StatisticName(s)|
    ensures forall i :: 0 <= i < |FileToken(s)| ==>
      FileToken(s)[i] == if StatisticName(s)[i] == '_' then '.' else StatisticName(s)[i]
    ensures '_' !in FileToken(s)
  {
    Text.ReplaceRemovesUnderscores(StatisticName(s));
    if '_' !in StatisticName(s) {
      Text.ReplaceWithoutUnderscores(StatisticName(s));
    }
  }

  /** The file-name tokens of the three quantiles carry a `.` where the statistic has `_`. */
  lemma {:induction false} QuantileFileTokens()
    ensures FileToken(Q0_05) == "Q0.05" && FileToken(Q0_5) == "Q0.5" && FileToken(Q0_95) == "Q0.95"
  {
    QuantileFileToken(Q0_05, "Q0.05");
    QuantileFileToken(Q0_5, "Q0.5");
    QuantileFileToken(Q0_95, "Q0.95");
  }

  /** A quantile's file token is its name with the one `_` after the `Q0` turned into `.`. */
  lemma {:induction false} QuantileFileToken(s: Statistic, token: string)
    requires s.Q0_05? || s.Q0_5? || s.Q0_95?
    requires token == StatisticName(s)[..2] + "." + StatisticName(s)[3..]
    ensures FileToken(s) == token
  {
    var name := StatisticName(s);
    assert name[2] == '_' && '_' !in name[..2] + name[3..];
    FileTokenRewrite(s);
    assert forall i :: 0 <= i < |token| ==> FileToken(s)[i] == token[i];
  }

  /** The mean and the uncertainty are read from files named after the statistic itself. */
  lemma {:induction false} PlainFileTokens()
    ensures FileToken(Mean) == "mean" && FileToken(Uncertainty) == "uncertainty"
  {
    assert StatisticName(Mean) == "mean" && '_' !in StatisticName(Mean);
    assert StatisticName(Uncertainty) == "uncertainty" && '_' !in StatisticName(Uncertainty);
  }

  /** The raster of bulk density's mean at 0-5cm. */
  lemma {:induction false} PropertyRasterExample()
    ensures PropertyRaster(Request(Bdod, Depth0To5, Mean)) == RasterRef("bdod", "bdod_0-5cm_mean.vrt")
  {
    FileTokenRewrite(Mean);
  }
}
