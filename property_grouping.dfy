/** The grouping loop of `get_soil_property` (`soil_api/routes/soil_routes.py:182-191`): the
    values read for the expanded requests are collected into the nested dict `soil_map_info`,
    property to depth to statistic to value. */
module PropertyGrouping {
  import opened Wrappers
  import opened SoilModels
  import opened Sampling
  import opened OrderedDict
  import opened ResponseGenerator
  import opened PropertyRequests

  /** One row of the `zip` in the grouping loop: a request and the value read for it. */
  type Entry = (Request, int)

  /** `soil_map_info`. Its outer keys are only ever looked up, never iterated, so their order is
      not kept. */
  type SoilMapInfo = map<SoilProperty, DepthValues>

  predicate InfoValid(info: SoilMapInfo) {
    forall p :: p in info ==> Valid(info[p])
  }

  /** One pass of the grouping loop: the property's dict and the depth's dict are created when
      missing, and the value is stored under its statistic unless it is a no-data value. */
  function GroupEntry(info: SoilMapInfo, e: Entry): (r: SoilMapInfo)
    ensures r.Keys == info.Keys + {e.0.property}
  {
    StoreNested(info, e.0.property, e.0.depth, e.0.statistic, e.1, e.1 !in NoDataValues)
  }

  /** The body of the grouping loop for any key types: `info.setdefault(p, {})`, then
      `setdefault(d, {})` on that, then `[s] = v` when `keep`. */
  function StoreNested<P, D, S, V>(info: map<P, Dict<D, map<S, V>>>, p: P, d: D, s: S, v: V, keep: bool)
    : (r: map<P, Dict<D, map<S, V>>>)
    ensures r.Keys == info.Keys + {p}
  {
    var depths := if p in info then info[p] else Empty();
    var withDepth := if d in depths.entries then depths else Put(depths, d, map[]);
    var stored := if keep then Put(withDepth, d, withDepth.entries[d][s := v]) else withDepth;
    info[p := stored]
  }

  /** `soil_map_info` after the loop has run over `es`. */
  function Group(es: seq<Entry>): SoilMapInfo {
    if es == [] then map[] else GroupEntry(Group(es[..|es| - 1]), es[|es| - 1])
  }

  /** Every dict the loop builds keeps its key order in step with its map. */
  lemma {:induction false} GroupValid(es: seq<Entry>)
    ensures InfoValid(Group(es))
  {
    if es != [] {
      var e := es[|es| - 1];
      GroupValid(es[..|es| - 1]);
      StoreNestedValid(Group(es[..|es| - 1]), e.0.property, e.0.depth, e.0.statistic, e.1, e.1 !in NoDataValues);
    }
  }

  /** A pass of the loop keeps every dict's key order in step with its map. */
  lemma StoreNestedValid<P, D, S, V>(info: map<P, Dict<D, map<S, V>>>, p: P, d: D, s: S, v: V, keep: bool)
    requires forall q :: q in info ==> Valid(info[q])
    ensures forall q :: q in StoreNested(info, p, d, s, v, keep) ==> Valid(StoreNested(info, p, d, s, v, keep)[q])
  {
    var depths := if p in info then info[p] else Empty();
    PutValid(depths, d, map[]);
    var withDepth := if d in depths.entries then depths else Put(depths, d, map[]);
    PutValid(withDepth, d, withDepth.entries[d][s := v]);
  }

  lemma {:induction false} GroupSnoc(es: seq<Entry>, i: int)
    requires 0 <= i < |es|
    ensures Group(es[..i + 1]) == GroupEntry(Group(es[..i]), es[i])
  {
    assert es[..i + 1][..i] == es[..i];
  }

  /** The grouping loop, over the requests zipped with the values read for them. */
  method GroupValues(requests: seq<Request>, values: seq<int>) returns (info: SoilMapInfo)
    ensures info == Group(Zip(requests, values))
  {
    var entries := Zip(requests, values);
    info := map[];
    for i := 0 to |entries|
      invariant info == Group(entries[..i])
    {
      var req := entries[i].0;
      var value := entries[i].1;
      ghost var before := info;
      if req.property !in info {
        info := info[req.property := Empty()];
      }
      // `soil_map_info[property]` is one dict object: updating it through the local name
      // updates it inside `soil_map_info` as well.
      var depths := info[req.property];
      assert depths == if req.property in before then before[req.property] else Empty();
      if req.depth !in depths.entries {
        depths := Put(depths, req.depth, map[]);
      }
      if value !in NoDataValues {
        depths := Put(depths, req.depth, depths.entries[req.depth][req.statistic := value]);
      }
      info := info[req.property := depths];
      assert info == before[req.property := depths];
      GroupSnoc(entries, i);
    }
    assert entries[..|entries|] == entries;
  }

  // ---------------------------------------------------------------------------------------------
  // What the grouped dict holds

  /** The requests of the entries, in order. */
  function Firsts(es: seq<Entry>): (r: seq<Request>)
    ensures |r| == |es| && forall i :: 0 <= i < |es| ==> r[i] == es[i].0
  {
    seq(|es|, i requires 0 <= i < |es| => es[i].0)
  }

  /** The depths of the requests for property `p`, in request order. */
  function DepthsOf(rs: seq<Request>, p: SoilProperty): seq<SoilDepthLabel> {
    if rs == [] then []
    else DepthsOf(rs[..|rs| - 1], p) + (if rs[|rs| - 1].property == p then [rs[|rs| - 1].depth] else [])
  }

  /** The value of the last entry for request `r` whose value is not a no-data value. */
  function LastGood(es: seq<Entry>, r: Request): Option<int> {
    if es == [] then None
    else if es[|es| - 1].0 == r && es[|es| - 1].1 !in NoDataValues then Some(es[|es| - 1].1)
    else LastGood(es[..|es| - 1], r)
  }

  /** `soil_map_info[p][d].get(s)`, absent when the property or the depth has no dict. */
  function Lookup<P, D, S, V>(info: map<P, Dict<D, map<S, V>>>, p: P, d: D, s: S): Option<V> {
    if p in info && d in info[p].entries && s in info[p].entries[d] then Some(info[p].entries[d][s]) else None
  }

  /** A property gets a dict exactly when some entry is for it. */
  lemma {:induction false} GroupProperties(es: seq<Entry>, p: SoilProperty)
    ensures p in Group(es) <==> exists i :: 0 <= i < |es| && es[i].0.property == p
  {
    if es != [] {
      var front := es[..|es| - 1];
      GroupProperties(front, p);
      if exists i :: 0 <= i < |front| && front[i].0.property == p {
        var i :| 0 <= i < |front| && front[i].0.property == p;
        assert es[i] == front[i];
      }
      if exists i :: 0 <= i < |es| && es[i].0.property == p {
        var i :| 0 <= i < |es| && es[i].0.property == p;
        if i < |front| {
          assert front[i] == es[i];
        }
      }
    }
  }

  /** A depth occurs among a property's request depths exactly when some request is for both. */
  lemma {:induction false} DepthsOfMembers(rs: seq<Request>, p: SoilProperty, d: SoilDepthLabel)
    ensures d in DepthsOf(rs, p) <==> exists i :: 0 <= i < |rs| && rs[i].property == p && rs[i].depth == d
  {
    if rs != [] {
      var front := rs[..|rs| - 1];
      DepthsOfMembers(front, p, d);
      if exists i :: 0 <= i < |front| && front[i].property == p && front[i].depth == d {
        var i :| 0 <= i < |front| && front[i].property == p && front[i].depth == d;
        assert rs[i] == front[i];
      }
      if exists i :: 0 <= i < |rs| && rs[i].property == p && rs[i].depth == d {
        var i :| 0 <= i < |rs| && rs[i].property == p && rs[i].depth == d;
        if i < |front| {
          assert front[i] == rs[i];
        }
      }
    }
  }

  /** A (property, depth) pair gets a dict exactly when some entry is for it, whatever the values
      read: a pair whose values are all no-data still gets an empty dict. */
  lemma {:induction false} GroupDepths(es: seq<Entry>, p: SoilProperty, d: SoilDepthLabel)
    ensures (p in Group(es) && d in Group(es)[p].entries) <==>
      exists i :: 0 <= i < |es| && es[i].0.property == p && es[i].0.depth == d
  {
    GroupProperties(es, p);
    DepthsOfMembers(Firsts(es), p, d);
    if p in Group(es) {
      GroupValid(es);
      GroupDepthOrder(es, p);
      DedupMembers(DepthsOf(Firsts(es), p));
    }
  }

  /** One pass keeps a property's key order equal to the first-occurrence order of its depths,
      extended by the entry's depth when the entry is for that property. */
  lemma {:induction false} EntryKeys(info: SoilMapInfo, e: Entry, p: SoilProperty, xs: seq<SoilDepthLabel>)
    requires InfoValid(info)
    requires p in info ==> info[p].keys == Dedup(xs)
    requires p !in info ==> xs == []
    requires p in GroupEntry(info, e)
    ensures GroupEntry(info, e)[p].keys == Dedup(xs + if e.0.property == p then [e.0.depth] else [])
  {
    if e.0.property == p {
      assert (xs + [e.0.depth])[..|xs|] == xs;
    } else {
      assert xs + [] == xs;
    }
  }

  /** The depth keys of a property's dict follow the requests for it: each depth at its first
      request, and no depth twice. */
  lemma {:induction false} GroupDepthOrder(es: seq<Entry>, p: SoilProperty)
    requires p in Group(es)
    ensures Group(es)[p].keys == Dedup(DepthsOf(Firsts(es), p))
  {
    var front := es[..|es| - 1];
    var e := es[|es| - 1];
    assert Firsts(es)[..|es| - 1] == Firsts(front);
    GroupValid(front);
    if p in Group(front) {
      GroupDepthOrder(front, p);
    } else {
      GroupProperties(front, p);
      DepthsOfAbsent(Firsts(front), p);
    }
    EntryKeys(Group(front), e, p, DepthsOf(Firsts(front), p));
  }

  /** Without a request for `p` there is no depth for it. */
  lemma {:induction false} DepthsOfAbsent(rs: seq<Request>, p: SoilProperty)
    requires forall i :: 0 <= i < |rs| ==> rs[i].property != p
    ensures DepthsOf(rs, p) == []
  {
    if rs != [] {
      DepthsOfAbsent(rs[..|rs| - 1], p);
    }
  }

  /** One pass stores the entry's value under its own request when the value is not a no-data
      value, and changes no other stored statistic. */
  lemma {:induction false} EntryLookup(info: SoilMapInfo, e: Entry, p: SoilProperty, d: SoilDepthLabel, s: Statistic)
    ensures Lookup(GroupEntry(info, e), p, d, s) ==
      if e.0 == Request(p, d, s) && e.1 !in NoDataValues then Some(e.1) else Lookup(info, p, d, s)
  {
    StoreNestedLookup(info, e.0.property, e.0.depth, e.0.statistic, e.1, e.1 !in NoDataValues, p, d, s);
  }

  /** Storing under `(p0, d0, s0)` changes the lookup of that key alone, and only when `keep`. */
  lemma StoreNestedLookup<P, D, S, V>(info: map<P, Dict<D, map<S, V>>>, p0: P, d0: D, s0: S, v: V, keep: bool,
                                      p: P, d: D, s: S)
    ensures Lookup(StoreNested(info, p0, d0, s0, v, keep), p, d, s) ==
      if p == p0 && d == d0 && s == s0 && keep then Some(v) else Lookup(info, p, d, s)
  {
  }

  /** A statistic is stored under a (property, depth) pair exactly as the last entry for that
      request whose value is not a no-data value says; with no such entry it is absent. */
  lemma {:induction false} GroupStatistic(es: seq<Entry>, p: SoilProperty, d: SoilDepthLabel, s: Statistic)
    ensures Lookup(Group(es), p, d, s) == LastGood(es, Request(p, d, s))
  {
    if es != [] {
      var front := es[..|es| - 1];
      GroupStatistic(front, p, d, s);
      EntryLookup(Group(front), es[|es| - 1], p, d, s);
    }
  }

  /** The last good value is present exactly when some entry for the request has a value that
      is not a no-data value, and it is the value of the last such entry. */
  lemma {:induction false} LastGoodSpec(es: seq<Entry>, r: Request)
    ensures LastGood(es, r).Some? <==>
      exists i :: 0 <= i < |es| && es[i].0 == r && es[i].1 !in NoDataValues
    ensures LastGood(es, r).Some? ==>
      exists i :: 0 <= i < |es| && es[i] == (r, LastGood(es, r).value) && es[i].1 !in NoDataValues &&
        forall j :: i < j < |es| ==> !(es[j].0 == r && es[j].1 !in NoDataValues)
  {
    if es != [] {
      var front := es[..|es| - 1];
      var n := |es| - 1;
      LastGoodSpec(front, r);
      if exists i :: 0 <= i < |front| && front[i].0 == r && front[i].1 !in NoDataValues {
        var i :| 0 <= i < |front| && front[i].0 == r && front[i].1 !in NoDataValues;
        assert es[i] == front[i];
      }
      if exists i :: 0 <= i < |es| && es[i].0 == r && es[i].1 !in NoDataValues {
        var i :| 0 <= i < |es| && es[i].0 == r && es[i].1 !in NoDataValues;
        if i < n {
          assert front[i] == es[i];
        }
      }
      if LastGood(es, r).Some? && !(es[n].0 == r && es[n].1 !in NoDataValues) {
        var i :| 0 <= i < |front| && front[i] == (r, LastGood(front, r).value) && front[i].1 !in NoDataValues &&
          forall j :: i < j < |front| ==> !(front[j].0 == r && front[j].1 !in NoDataValues);
        assert es[i] == front[i];
        forall j | i < j < |es| ensures !(es[j].0 == r && es[j].1 !in NoDataValues) {
          if j < n {
            assert es[j] == front[j];
          }
        }
      }
    }
  }

  /** When every entry's value is a function of its request, the last good value for a request
      is that function's value, unless the request never occurs or its value is no-data. */
  lemma {:induction false} LastGoodDetermined(es: seq<Entry>, r: Request, f: Request -> int)
    requires forall i :: 0 <= i < |es| ==> es[i].1 == f(es[i].0)
    ensures LastGood(es, r) == if r in Firsts(es) && f(r) !in NoDataValues then Some(f(r)) else None
  {
    if es != [] {
      var front := es[..|es| - 1];
      LastGoodDetermined(front, r, f);
      assert Firsts(es) == Firsts(front) + [es[|es| - 1].0];
    }
  }
}
