# soil-api in Dafny

A model of soil-api's core logic. soil-api is a FastAPI service that answers three questions about soil, using rasters from ISRIC SoilGrids:

- **`/type`**: the most probable soil group at a point (latitude, longitude). On request it also gives the ranked probabilities of the soil groups there.
- **`/property`**: soil property values (bulk density, clay, pH, and so on) at a point. It reads one raster per (property, depth, statistic).
- **`/type/summary`**: the soil groups inside a bounding box, most frequent first. It also returns the box as a GeoJSON polygon.

Every raster read becomes a function parameter, `sample: PointRead -> int`. A `PointRead` records the raster, the coordinates and whether the coordinates are reprojected. With that in place, the service is deterministic list, sort, group and table logic:

- **`SoilModels`** (`soil.dfy`), **`SoilPropertyTables`** (`soil_property.dfy`): the static tables of the models package as datatypes with total lookup functions. These are soil types, property codes, names, units and depth labels, plus the depth ranges, units and conversion factors. The depth-label reverse lookup returns a `Result` that models its `ValueError`.
- **`Validation`** (`validation.dfy`): the region-of-interest check on coordinates and the ordering check on bounding boxes. Each returns `Pass` or `Fail(HttpError(status, …))`.
- **`Sampling`** (`sampling.dfy`): the sequential fan-out `run_sequential` as a `method` with a loop; Python's `zip`; the mapping from a raster code to `SoilTypes.__members__.get(f"t{v}", No_information)`.
- **`SoilTypeRoute`** (`soil_type_route.dfy`): `get_soil_type`. It covers which probability rasters are read, the filter that drops 0 and -99999, the stable descending sort truncated to `count`, and `None` for an empty list.
- **`StableSort`** (`stable_sort.dfy`): Python's `sorted(…, key, reverse=True)` as a stable insertion sort, and Python slicing `[:n]` (negative `n` included).
- **`PropertyRequests`** (`property_requests.dfy`): the properties × depths × statistics expansion of `get_soil_property` as a specification function, and the `{property}_{depth}_{value}.vrt` file-name rule.
- **`PropertyGrouping`** (`property_grouping.dfy`): the loop that builds the nested dict property → depth → statistic. It skips no-data values and keeps insertion order. `OrderedDict` (`ordered_dict.dfy`) is an insertion-ordered dict.
- **`ResponseGenerator`** (`response_generator.dfy`): `generate_soil_layer` (a loop over a property's depth keys) and `generate_soil_depth`.
- **`SoilPropertyRoute`** (`soil_property_route.dfy`): `get_soil_property`. The expansion runs as imperative loops proved against the expansion function, then come the reads, the grouping and the layer loop. A property missing from the grouped dict raises `KeyError`, modelled as `Failure`.
- **`SoilTypeSummaryRoute`** (`summary_route.dfy`): `get_soil_type_summary`. It builds the summaries sorted by count and the closed polygon ring.

Methods (`RunSequential`, `BuildRecords`, `GetSoilType`, `GroupValues`, `GenerateSoilLayer`, `AssembleLayers`, `ExpandRequests`, `GetSoilProperty`) follow the source's loops. Each is proved equal to a specification function, and the lemmas state what that function guarantees.

The no-data set is {-32768, 65535, -99999}. This is `NO_DATA_VALS_SOILGRIDS` plus `NO_DATA_VAL` from `soil_api/constants.py:16-17`, because the `settings.no_data_vals` used by the route is not defined in `soil_api/config.py`. The depth ranges that `settings.depths[depth]` supplies likewise come from the `SoilDepthTop`/`SoilDepthBottom`/`SoilDepthUnits` tables of `soil_api/models/soil_property.py`.

## Model

| member | source | states |
|---|---|---|
| SoilModels.MemberName | soil_api/models/soil.py:51-82 | Definition: the enum member names `t0`..`t29` and `No_information`; specified by `MemberNameShape`, `MemberNameInjective` and `LookupMemberName`. |
| SoilModels.Value | soil_api/models/soil.py:51-82 | Definition: the display string of each member; specified by `ValueInjective`. |
| SoilModels.Index | soil_api/models/soil.py:51-82 | The position of a soil type in the enum is below 31 and is 30 exactly for `No_information`. |
| SoilModels.IndexRoundTrip | soil_api/models/soil.py:51-82 | Reading a type's position back gives the same type. |
| SoilModels.FromIndexRoundTrip | soil_api/models/soil.py:51-82 | Each position 0..30 gives a type whose position is that number. |
| SoilModels.IndexInjective | soil_api/models/soil.py:51-82 | Distinct soil types have distinct positions. |
| SoilModels.SoilTypesEnumeration | soil_api/models/soil.py:51-82 | The enum has exactly 31 members, t0..t29 in order and then `No_information`, and it lists every type. |
| SoilModels.MemberNameShape | soil_api/models/soil.py:51-82 | A member name starts with `t` exactly for the 30 named types, and the rest of it is the type's position in decimal. |
| SoilModels.MemberNameInjective | soil_api/models/soil.py:51-82 | Distinct types have distinct member names. |
| SoilModels.FindByName | soil_api/models/soil.py:51-82 | A member-name search finds a listed type with that name, or reports that no listed type has it. |
| SoilModels.LookupMemberName | soil_api/models/soil.py:51-82 | Looking up a type's member name in `__members__` finds that type. |
| SoilModels.ValueInjective | soil_api/models/soil.py:51-82 | The display strings are pairwise distinct, so type to display string is injective. |
| SoilModels.ValueInjectiveFirstBlock | soil_api/models/soil.py:52-61 | Among t0..t9, equal display strings mean equal types. |
| SoilModels.ValueInjectiveSecondBlock | soil_api/models/soil.py:62-71 | Among t10..t19, equal display strings mean equal types. |
| SoilModels.ValueInjectiveThirdBlock | soil_api/models/soil.py:72-82 | Among t20..t29 and `No_information`, equal display strings mean equal types. |
| SoilModels.ValueDistinctFirstSecond | soil_api/models/soil.py:52-71 | No display string of t0..t9 equals one of t10..t19. |
| SoilModels.ValueDistinctFirstThird | soil_api/models/soil.py:52-82 | No display string of t0..t9 equals one of t20..`No_information`. |
| SoilModels.ValueDistinctSecondThird | soil_api/models/soil.py:62-82 | No display string of t10..t19 equals one of t20..`No_information`. |
| SoilModels.FindPropertyByName | soil_api/models/soil.py:105-144 | A property-name search finds a listed property with that member name, or reports that none has it. |
| SoilModels.PropertyMemberNameInjective | soil_api/models/soil.py:105-144 | Distinct properties have distinct member names. |
| SoilModels.PropertyLookupsTotal | soil_api/models/soil.py:105-144 | The three tables share the 11 member names, each property's code is its member name, and looking up the code finds the property, so all three lookups are total. |
| SoilModels.DepthLabelsDistinct | soil_api/models/soil.py:204-211 | There are 7 depth labels, listed once each, with pairwise distinct strings. |
| SoilModels.DepthLabelInjective | soil_api/models/soil.py:204-211 | Equal label strings mean equal depth members. |
| SoilPropertyTables.ConversionFactor | soil_api/models/soil_property.py:67-78 | Definition: the conversion-factor table; specified by `ConversionFactorPositive`. |
| SoilPropertyTables.ReverseDepthLookup | soil_api/models/soil_property.py:152-155 | Definition: the dict from each label to its member name; specified by `GetSoilDepthFromLabelDomain` and `GetSoilDepthFromLabelRoundTrip`. |
| SoilPropertyTables.GetSoilDepthFromLabel | soil_api/models/soil_property.py:158-163 | Definition: the lookup, with a `ValueError` for a missing key; specified by `GetSoilDepthFromLabelDomain`, `GetSoilDepthFromLabelRoundTrip` and `GetSoilDepthFromLabelLookupBack`. |
| SoilPropertyTables.ConversionFactorPositive | soil_api/models/soil_property.py:67-78 | The conversion factor is 100 for `bdod` and `nitrogen` and 10 otherwise, so it is always positive. |
| SoilPropertyTables.MappedUnitsAgree | soil_api/models/soil_property.py:39-50 | The mapped-unit table agrees entry by entry with `SoilPropertyUnits`. |
| SoilPropertyTables.GetSoilDepthFromLabelDomain | soil_api/models/soil_property.py:152-163 | The reverse lookup succeeds exactly for the 7 labels; any other string raises `ValueError` naming that string. |
| SoilPropertyTables.GetSoilDepthFromLabelRoundTrip | soil_api/models/soil_property.py:142-163 | The reverse lookup of a member's label returns that member's name. |
| SoilPropertyTables.DepthByMemberName | soil_api/models/soil_property.py:142-149 | A member found by name carries that name. |
| SoilPropertyTables.DepthByMemberNameRoundTrip | soil_api/models/soil_property.py:142-149 | Looking up a member's own name finds that member. |
| SoilPropertyTables.GetSoilDepthFromLabelLookupBack | soil_api/models/soil_property.py:142-163 | Looking the returned member name up in `SoilDepthLabels` gives back the input label. |
| SoilPropertyTables.DepthRangesWellFormed | soil_api/models/soil_property.py:166-193 | For every depth member, top < bottom, and the unit is `cm`. |
| SoilPropertyTables.StandardDepthsChain | soil_api/models/soil_property.py:166-184 | The six standard intervals run from 0 to 200 without gaps, each bottom being the next top; `depth_0_30` spans the first three; these seven are all the labels. |
| Validation.ValidateCoordinates | soil_api/utils/validation_helpers.py:8-29 | Definition: the region check raising status 404; specified by `ValidateCoordinatesExact` and `RegionBoundsInclusive`. |
| Validation.ValidateBbox | soil_api/utils/validation_helpers.py:32-50 | Definition: the ordering check raising status 400; specified by `ValidateBboxExact`, `ValidateBboxAxes` and `ValidateBboxExamples`. |
| Validation.ValidateCoordinatesExact | soil_api/utils/validation_helpers.py:20-29 | A point passes exactly when -90 ≤ lat ≤ 90 and -180 ≤ lon ≤ 180, and otherwise fails with status 404. |
| Validation.RegionBoundsInclusive | soil_api/constants.py:10-15 | The four corners of the region pass, and any point a positive distance beyond one bound fails. |
| Validation.ValidateBboxExact | soil_api/utils/validation_helpers.py:43-50 | A box fails with status 400 exactly when min lon > max lon or min lat > max lat, that is, exactly when it contains no point. |
| Validation.ValidateBboxAxes | soil_api/utils/validation_helpers.py:43 | A degenerate single-point box passes, and a reversed interval on either axis alone is enough to fail. |
| Validation.ValidateBboxExamples | soil_api/utils/validation_helpers.py:43-50 | Concrete boxes: a reversed longitude range gives status 400, and a well-ordered box passes. |
| Text.NatToDecimal | soil_api/routes/soil_routes.py:64-65 | The decimal rendering used in `f"t{value}"` is a non-empty string of digits. |
| Text.ParseNatDecimal | soil_api/routes/soil_routes.py:64-65 | Parsing the decimal rendering of a natural number gives the number back. |
| Text.ParseIntDecimal | soil_api/routes/soil_routes.py:64-65 | Parsing the rendering of any integer, negative ones with their `-`, gives the integer back. |
| Text.IntToDecimalInjective | soil_api/routes/soil_routes.py:64-65 | Distinct integers render as distinct strings, so at most one code names each member. |
| Text.ReplaceUnderscores | soil_api/routes/soil_routes.py:166-167 | `replace("_", ".")` keeps the length and turns each `_` into `.`, leaving the other characters. |
| Text.ReplaceRemovesUnderscores | soil_api/routes/soil_routes.py:166-167 | No `_` is left after the rewrite. |
| Text.ReplaceWithoutUnderscores | soil_api/routes/soil_routes.py:166-167 | A string without `_` is left unchanged, as when the `if` is skipped. |
| Sampling.MapSeqIndex | soil_api/routes/soil_routes.py:208-216 | Mapping the target over the argument list puts `target(args[i])` at position i. |
| Sampling.RunSequential | soil_api/routes/soil_routes.py:219-229 | The loop returns one result per argument, in argument order, equal to the order-preserving map. |
| Sampling.Zip | soil_api/routes/soil_routes.py:101-103 | `zip` has the length of the shorter list, and entry i pairs the two i-th elements. |
| Sampling.CodeToSoilType | soil_api/routes/soil_routes.py:64-66 | Definition: `SoilTypes.__members__.get(f"t{value}", No_information)` as a member-name search; specified by `CodeToSoilTypeRange`. |
| Sampling.CodeToSoilTypeRange | soil_api/routes/soil_routes.py:64-66 | A raster code v maps to type `t{v}` when 0 ≤ v ≤ 29, and every other code to `No_information`. |
| Sampling.CodeToSoilTypeFirst | soil_api/routes/soil_routes.py:64-66 | Code 0 maps to Acrisols. |
| Sampling.CodeToSoilTypeLast | soil_api/routes/soil_routes.py:64-66 | Code 29 maps to Vertisols. |
| Sampling.CodeToSoilTypeNoInformationExamples | soil_api/routes/soil_routes.py:64-66 | Codes 255 and 99 map to `No_information`. |
| SoilTypeRoute.Candidates | soil_api/routes/soil_routes.py:68-94 | Definition: the types whose probability rasters are read; specified by `CandidatesByCount` and `CandidatesOrdered`. |
| SoilTypeRoute.Kept | soil_api/routes/soil_routes.py:106-110 | Definition: the filter dropping 0 and -99999; specified by `KeptExactly`, `KeptPreservesOrder` and `KeptEmptyExactly`. |
| SoilTypeRoute.Ranked | soil_api/routes/soil_routes.py:112-114 | Definition: `sorted(…, reverse=True)[:count]`; specified by `RankedIsTopCount`, `RankedTiesInEnumOrder` and `RankedEmptyExactly`. |
| SoilTypeRoute.SoilTypeResponse | soil_api/routes/soil_routes.py:47-136 | Definition: the whole response for a point; specified by `SoilTypeResponseShape`, `SoilTypeResponseAbsent`, `SoilTypeResponseRanking` and `SoilTypeResponseSingle`. |
| SoilTypeRoute.NamedSoilTypesEnumeration | soil_api/routes/soil_routes.py:83-87 | The comprehension over `SoilTypes` without `No_information` lists the 30 named types in enum order. |
| SoilTypeRoute.ProbabilityReads | soil_api/routes/soil_routes.py:91-98 | One read per candidate type, of that type's own `wrb/{type}.vrt` raster, without reprojection. |
| SoilTypeRoute.Records | soil_api/routes/soil_routes.py:116-122 | One probability record per ranked pair, with the same type and probability, in order. |
| SoilTypeRoute.BuildRecords | soil_api/routes/soil_routes.py:116-122 | The append loop builds exactly those records. |
| SoilTypeRoute.GetSoilType | soil_api/routes/soil_routes.py:47-136 | The route returns the response its specification function describes; the lemmas below state what that response holds. |
| SoilTypeRoute.CandidatesByCount | soil_api/routes/soil_routes.py:70-94 | No rasters are read for `No_information` or a count below 1, just the most probable type's for count 1, and all 30 named types' in enum order for count above 1. |
| SoilTypeRoute.CandidatesOrdered | soil_api/routes/soil_routes.py:70-94 | The candidate types never include `No_information` and are in strictly increasing enum order. |
| SoilTypeRoute.MergedPairsRead | soil_api/routes/soil_routes.py:96-103 | The merged list pairs each candidate type, in order, with the value read from its own raster. |
| SoilTypeRoute.MergedPairsOrdered | soil_api/routes/soil_routes.py:96-103 | Merging keeps the candidates' enum order. |
| SoilTypeRoute.KeptExactly | soil_api/routes/soil_routes.py:106-110 | A pair is kept exactly when it was merged and its probability is neither 0 nor -99999; any other value, -32768 included, stays. |
| SoilTypeRoute.KeptPreservesOrder | soil_api/routes/soil_routes.py:106-110 | Filtering keeps pairs in enum order. |
| SoilTypeRoute.KeptEmptyExactly | soil_api/routes/soil_routes.py:106-110 | The filtered list is empty exactly when every read was 0 or -99999. |
| SoilTypeRoute.KeptExample | soil_api/routes/soil_routes.py:106-110 | Concrete case: of probabilities 70, 0 and 45, the 0 is dropped and the order of the others is kept. |
| SoilTypeRoute.RankedIsTopCount | soil_api/routes/soil_routes.py:112-114 | The ranking is non-increasing and has exactly as many entries as `[:count]` keeps: min(count, len) for count ≥ 0, and len + count (at least 0) for negative count. It is a sub-multiset of the filtered list (all of it when `count` covers it), and nothing left out beats anything kept. |
| SoilTypeRoute.RankedTiesInEnumOrder | soil_api/routes/soil_routes.py:112-114 | Equal probabilities stay in enum order, as Python's stable `sorted` keeps them. |
| SoilTypeRoute.RankedOfSorted | soil_api/routes/soil_routes.py:112-114 | An already descending list is ranked by slicing alone. |
| SoilTypeRoute.RankedExample | soil_api/routes/soil_routes.py:106-114 | Concrete case: probabilities 70, 0 and 45 with count 1 rank to the single pair with 70. |
| SoilTypeRoute.RankedEmptyExactly | soil_api/routes/soil_routes.py:112-114 | With count ≥ 1 the ranking is empty exactly when the filtered list is. |
| SoilTypeRoute.RankedFromMerged | soil_api/routes/soil_routes.py:106-114 | Every ranked pair was merged and has a probability other than 0 and -99999. |
| SoilTypeRoute.RankedFromCandidates | soil_api/routes/soil_routes.py:96-114 | For enum-ordered candidates, the ranking has at most `count` pairs, is non-increasing with ties in enum order, and each pair is a candidate type with its own raster's value, neither 0 nor -99999. |
| SoilTypeRoute.RankedCandidatesOrder | soil_api/routes/soil_routes.py:96-114 | For enum-ordered candidates, the ranking has at most `count` pairs and is non-increasing with ties in enum order. |
| SoilTypeRoute.RankedCandidatesMembers | soil_api/routes/soil_routes.py:96-114 | Each ranked pair is a candidate type with its own raster's value, neither 0 nor -99999. |
| SoilTypeRoute.ProbabilitiesNeverEmpty | soil_api/routes/soil_routes.py:116-124 | `probabilities` is `None` exactly when the ranking is empty; otherwise it is a non-empty list with one record per ranked pair. |
| SoilTypeRoute.RecordsKeepRanking | soil_api/routes/soil_routes.py:116-122 | The records keep the ranking's order, its tie order and where each value came from. |
| SoilTypeRoute.SoilTypeResponseShape | soil_api/routes/soil_routes.py:127-136 | The geometry is `[lon, lat]`, the soil type is the one mapped from the classification raster's code, and `No_information` gives no probabilities. |
| SoilTypeRoute.SoilTypeResponseAbsent | soil_api/routes/soil_routes.py:70-124 | There are no probabilities exactly when the count is below 1 or every candidate's read is 0 or -99999; an empty list is never returned. |
| SoilTypeRoute.SoilTypeResponseRanking | soil_api/routes/soil_routes.py:47-136 | Each reported probability: is for a named type, is read from its own raster, and is neither 0 nor -99999. There are between 1 and `count` of them, in non-increasing order, with ties in enum order. For count ≥ 1 there are probabilities exactly when some read survives the filter, there are exactly min(count, number of surviving reads) of them, and no surviving read left out is larger than one reported. |
| SoilTypeRoute.RecordsTop | soil_api/routes/soil_routes.py:112-124 | For count ≥ 1 the records are present exactly when the filtered list is non-empty, number min(count, len), and no filtered pair left out is larger than a reported one. |
| SoilTypeRoute.SoilTypeResponseSingle | soil_api/routes/soil_routes.py:72-80 | With count 1, the only reported probability, if any, is the most probable type's own raster value. |
| StableSort.InsertDesc | soil_api/routes/soil_routes.py:112-113 | Inserting into the sorted list adds exactly that one element. |
| StableSort.SortDesc | soil_api/routes/soil_routes.py:112-113 | Sorting is a permutation of its input. |
| StableSort.InsertDescSorted | soil_api/routes/soil_routes.py:112-113 | Inserting into a descending list keeps it descending. |
| StableSort.SortDescSorted | soil_api/routes/soil_routes.py:112-113 | The sorted list is in non-increasing key order. |
| StableSort.InsertDescStable | soil_api/routes/soil_routes.py:112-113 | Inserting an element that comes first in the original order keeps ties in that order. |
| StableSort.SortDescStable | soil_api/routes/soil_routes.py:112-113 | Sorting keeps equal keys in their original relative order. |
| StableSort.WithKeyInsert | soil_api/routes/soil_routes.py:112-113 | Insertion does not reorder the elements of any one key. |
| StableSort.SortDescKeepsTieOrder | soil_api/routes/soil_routes.py:271-273 | For every key, the elements with that key appear in the sorted list exactly as in the input. |
| StableSort.SortDescOfSorted | soil_api/routes/soil_routes.py:112-113 | Sorting a list that is already descending returns it unchanged. |
| StableSort.SortedPrefixIsTop | soil_api/routes/soil_routes.py:112-114 | A prefix of a descending list is descending, is drawn from the list, and no element left out has a larger key than one kept. |
| StableSort.PyPrefix | soil_api/routes/soil_routes.py:114 | Python's `[:n]` gives a prefix of length min(n, len) for n ≥ 0, and drops the last -n elements for negative n. |
| PropertyRequests.Requests | soil_api/routes/soil_routes.py:155-165 | Definition: the request list of the triple loop; specified by `RequestsLayout`, `RequestsCount` and `RequestsMembership`. |
| PropertyRequests.FileToken | soil_api/routes/soil_routes.py:166-167 | Definition: the value type with `_` replaced by `.`; specified by `FileTokenRewrite`, `QuantileFileTokens` and `PlainFileTokens`. |
| PropertyRequests.PropertyRaster | soil_api/routes/soil_routes.py:168-171 | Definition: the `{property}/{property}_{depth}_{value}.vrt` path of a request; specified by `PropertyRasterExample` and `FileTokenRewrite`. |
| PropertyRequests.Row | soil_api/routes/soil_routes.py:157-165 | The innermost loop adds one request per value type. |
| PropertyRequests.RowSlot | soil_api/routes/soil_routes.py:157-165 | The k-th request of the innermost loop is for the k-th value type. |
| PropertyRequests.BlockLength | soil_api/routes/soil_routes.py:156-165 | One property contributes |D|·|V| requests. |
| PropertyRequests.RequestsLength | soil_api/routes/soil_routes.py:155-165 | The expansion has |P|·|D|·|V| requests. |
| PropertyRequests.RequestsCount | soil_api/routes/soil_routes.py:155-165 | The expansion has |P|·(|D|·|V|) requests, as a product of integers. |
| PropertyRequests.BlockAppend | soil_api/routes/soil_routes.py:156-165 | The depth loop over two concatenated depth lists is the two loops one after the other. |
| PropertyRequests.RequestsAppend | soil_api/routes/soil_routes.py:155-165 | The property loop over two concatenated property lists is the two loops one after the other. |
| PropertyRequests.BlockSlot | soil_api/routes/soil_routes.py:156-165 | Within one property, request j·|V|+k is for depth j and value type k. |
| PropertyRequests.RequestsLayout | soil_api/routes/soil_routes.py:155-165 | Request i·|D|·|V| + j·|V| + k is (property i, depth j, value type k): properties outermost, value types innermost. |
| PropertyRequests.RequestsMembership | soil_api/routes/soil_routes.py:155-165 | A (property, depth, statistic) is requested exactly when each part is in its list. |
| PropertyRequests.RequestsOnlyRequested | soil_api/routes/soil_routes.py:155-165 | Every request combines a requested property, depth and statistic. |
| PropertyRequests.FileTokenRewrite | soil_api/routes/soil_routes.py:166-168 | The value type in the file name is the key with each `_` turned into `.`, and has no `_` left. |
| PropertyRequests.QuantileFileToken | soil_api/routes/soil_routes.py:166-168 | For a quantile, the file-name token is the key with its third character turned into `.`. |
| PropertyRequests.QuantileFileTokens | soil_api/routes/soil_routes.py:166-168 | The quantiles appear in file names as `Q0.05`, `Q0.5` and `Q0.95`. |
| PropertyRequests.PlainFileTokens | soil_api/routes/soil_routes.py:166-168 | `mean` and `uncertainty` appear in file names unchanged. |
| PropertyRequests.PropertyRasterExample | soil_api/routes/soil_routes.py:168-171 | (bdod, 0-5cm, mean) is read from `bdod/bdod_0-5cm_mean.vrt`. |
| SoilPropertyRoute.LayersOf | soil_api/routes/soil_routes.py:193-195 | Definition: the layers, or the `KeyError` of a property missing from the grouped dict; specified by `LayersOfSucceeds`, `LayersOfValues`, `LayersOfError` and `LayersOfFailureSticks`. |
| SoilPropertyRoute.SoilPropertyResponse | soil_api/routes/soil_routes.py:145-205 | Definition: the whole response for a point; specified by `SoilPropertyFailure`, `SoilPropertyLayers` and `SoilPropertyDepths`. |
| SoilPropertyRoute.ExpandRequests | soil_api/routes/soil_routes.py:151-172 | The triple loop builds the request list of the expansion function, and path n is the raster of request n. |
| SoilPropertyRoute.ExpandDepths | soil_api/routes/soil_routes.py:156-172 | The depth loop appends one property's block and keeps paths matching requests. |
| SoilPropertyRoute.ExpandStatistics | soil_api/routes/soil_routes.py:157-172 | The value-type loop appends one (property, depth) row and keeps paths matching requests. |
| SoilPropertyRoute.PointReads | soil_api/routes/soil_routes.py:174-180 | One read per path, in order, with the point and `transform_CRS = True`. |
| SoilPropertyRoute.RequestValues | soil_api/routes/soil_routes.py:174-180 | Value n is the sample of request n's raster at the point, reprojected. |
| SoilPropertyRoute.AssembleLayers | soil_api/routes/soil_routes.py:193-195 | The layer loop yields the layers of the specification function, or the `KeyError` of the first property missing from the grouped dict. |
| SoilPropertyRoute.LayersOfFailureSticks | soil_api/routes/soil_routes.py:193-195 | Once a missing property raises, later properties do not change the outcome. |
| SoilPropertyRoute.LayersOfSucceeds | soil_api/routes/soil_routes.py:193-195 | The layer loop succeeds exactly when every requested property is in the grouped dict. |
| SoilPropertyRoute.LayersOfValues | soil_api/routes/soil_routes.py:193-195 | On success there is exactly one layer per requested property, in request order, each generated from that property's dict. |
| SoilPropertyRoute.LayersOfError | soil_api/routes/soil_routes.py:193-195 | On failure the error names the first requested property missing from the grouped dict. |
| SoilPropertyRoute.InfoFor | soil_api/routes/soil_routes.py:182-191 | The grouped dict keeps every property's depth keys in insertion order without duplicates. |
| SoilPropertyRoute.GetSoilProperty | soil_api/routes/soil_routes.py:145-205 | The route returns the response its specification function describes; the lemmas below state what that response holds. |
| SoilPropertyRoute.EntriesOf | soil_api/routes/soil_routes.py:183-185 | The zipped entries are the requests, in order, each with its own sampled value. |
| SoilPropertyRoute.InfoProperties | soil_api/routes/soil_routes.py:182-191 | A property is in the grouped dict exactly when it was requested and both depths and value types are non-empty. |
| SoilPropertyRoute.GroupedProperties | soil_api/routes/soil_routes.py:182-191 | Whatever the values, grouping the expansion gives a key exactly for the requested properties, provided depths and value types are non-empty. |
| SoilPropertyRoute.SoilPropertyFailure | soil_api/routes/soil_routes.py:182-195 | The route raises exactly when some property is requested but the depths or value types are empty, and the error names the first property. |
| SoilPropertyRoute.DepthsOfAppend | soil_api/routes/soil_routes.py:155-165 | A property's depth sequence over two concatenated request lists is the two sequences one after the other. |
| SoilPropertyRoute.RowDepths | soil_api/routes/soil_routes.py:157-165 | The innermost loop contributes its depth once per value type to its own property and nothing to another. |
| SoilPropertyRoute.BlockDepths | soil_api/routes/soil_routes.py:156-165 | A property's block contributes only requested depths, and nothing to another property. |
| SoilPropertyRoute.BlockDepthOrder | soil_api/routes/soil_routes.py:156-165 | With value types, a block's depths in first-occurrence order are the requested depths in first-occurrence order. |
| SoilPropertyRoute.RequestsDepthOrder | soil_api/routes/soil_routes.py:155-165 | For a requested property, its depths across the whole expansion in first-occurrence order are the requested depths without duplicates. |
| SoilPropertyRoute.SoilPropertyLayers | soil_api/routes/soil_routes.py:193-205 | With depths and value types, the route succeeds at `[lon, lat]` with one layer per requested property, each generated from its dict. |
| SoilPropertyRoute.InfoDepthKeys | soil_api/routes/soil_routes.py:182-189 | A requested property's depth keys are the requested depths without duplicates, in request order: every pair gets an entry even when all its values are no-data. |
| SoilPropertyRoute.InfoStatistic | soil_api/routes/soil_routes.py:182-191 | A statistic is stored under (property, depth) exactly when all three were requested and the value read for them is not a no-data value, and then it is that value. |
| SoilPropertyRoute.SoilPropertyDepths | soil_api/routes/soil_routes.py:182-205 | Layer i lists the requested depths once each, in order, with their label and table range. A field holds the value read for (property, depth, statistic) exactly when the statistic was requested and the value is not no-data. |
| SoilPropertyRoute.BdodExample | soil_api/routes/soil_routes.py:145-205 | Concrete case: bdod at 0-5cm with the mean gives one `bdod` layer with one `0-5cm` entry from 0 to 5 cm. |
| SoilPropertyRoute.BdodExampleStored | soil_api/routes/soil_routes.py:166-191 | In that case the dict holds the value read from `bdod_0-5cm_mean.vrt` under the mean unless it is no-data, and nothing under the median. |
| SoilPropertyRoute.BdodExampleTables | soil_api/models/soil_property.py:166-193 | The table entries of the example: `0-5cm` spans 0 to 5 cm, and the code of bdod is `bdod`. |
| PropertyGrouping.Group | soil_api/routes/soil_routes.py:182-191 | Definition: the grouped dict after the loop over all entries; specified by `GroupProperties`, `GroupDepths`, `GroupDepthOrder` and `GroupStatistic`. |
| PropertyGrouping.LastGood | soil_api/routes/soil_routes.py:190-191 | Definition: the value that the last non-no-data entry for a request leaves behind; specified by `LastGoodSpec`. |
| PropertyGrouping.GroupEntry | soil_api/routes/soil_routes.py:186-191 | One pass of the grouping loop adds the entry's property to the dict's keys and no other. |
| PropertyGrouping.StoreNested | soil_api/routes/soil_routes.py:186-191 | The nested store adds its property to the outer keys and no other. |
| PropertyGrouping.GroupValid | soil_api/routes/soil_routes.py:182-191 | Every inner dict the loop builds keeps its keys in insertion order, without duplicates. |
| PropertyGrouping.GroupSnoc | soil_api/routes/soil_routes.py:183-191 | Grouping one more entry is one more pass of the loop body. |
| PropertyGrouping.GroupValues | soil_api/routes/soil_routes.py:182-191 | The grouping loop builds the dict of the specification function over the zipped entries. |
| PropertyGrouping.Firsts | soil_api/routes/soil_routes.py:183-185 | The requests of the zipped entries, in order. |
| PropertyGrouping.GroupProperties | soil_api/routes/soil_routes.py:186-187 | A property is a key exactly when some entry is for it. |
| PropertyGrouping.DepthsOfMembers | soil_api/routes/soil_routes.py:183-189 | A depth occurs for a property exactly when some request is for that property and depth. |
| PropertyGrouping.GroupDepths | soil_api/routes/soil_routes.py:188-189 | A (property, depth) pair gets a dict exactly when some entry is for it, whatever the values read. |
| PropertyGrouping.EntryKeys | soil_api/routes/soil_routes.py:188-189 | One pass appends the entry's depth to its property's keys only if it is new. |
| PropertyGrouping.GroupDepthOrder | soil_api/routes/soil_routes.py:188-189 | A property's depth keys are its requested depths in first-occurrence order. |
| PropertyGrouping.DepthsOfAbsent | soil_api/routes/soil_routes.py:183-189 | A property with no entries has no depths. |
| PropertyGrouping.EntryLookup | soil_api/routes/soil_routes.py:190-191 | One pass stores the entry's value under its own request unless the value is no-data, and changes no other stored statistic. |
| PropertyGrouping.StoreNestedLookup | soil_api/routes/soil_routes.py:186-191 | Storing under one key path changes the lookup of that path alone, and only when the value is kept. |
| PropertyGrouping.GroupStatistic | soil_api/routes/soil_routes.py:182-191 | A stored statistic is the value of the last entry for that request whose value is not no-data; with no such entry it is absent. |
| PropertyGrouping.LastGoodSpec | soil_api/routes/soil_routes.py:190-191 | The last good value exists exactly when some entry for the request is not no-data, and it is the value of the last such entry. |
| PropertyGrouping.LastGoodDetermined | soil_api/routes/soil_routes.py:183-191 | When each entry's value is a function of its request, the stored value is that function's value for a requested, non-no-data request, and absent otherwise. |
| ResponseGenerator.ValuesOfFields | soil_api/utils/response_generator.py:52 | Each field of `SoilPropertyValues(**values)` is the dict's value for that statistic, or `None` when it is absent. |
| ResponseGenerator.GenerateSoilDepth | soil_api/utils/response_generator.py:39-59 | The depth entry carries the given label and range, and each statistic's field is present exactly when the statistic is in the values dict. |
| ResponseGenerator.SoilLayerOf | soil_api/utils/response_generator.py:13-36 | The layer's code, name and unit are the table entries for the property. It has one depth entry per dict key, in key order, with that key's label, table range and statistics. |
| ResponseGenerator.GenerateSoilLayer | soil_api/utils/response_generator.py:25-36 | The loop over depth keys builds exactly that layer. |
| ResponseGenerator.LayerMetadataIndependent | soil_api/utils/response_generator.py:25-36 | Code, name and unit do not depend on the values read, and an empty dict gives an empty depth list. |
| OrderedDict.Empty | soil_api/routes/soil_routes.py:187 | A new dict `{}` has no keys. |
| OrderedDict.Put | soil_api/routes/soil_routes.py:186-191 | Assigning a key updates the mapping and appends the key only when it is new. |
| OrderedDict.PutValid | soil_api/routes/soil_routes.py:186-191 | Assignment keeps the key list duplicate-free and in step with the mapping. |
| OrderedDict.PutGet | soil_api/routes/soil_routes.py:186-191 | After assignment the key holds the new value, and every other key is unchanged. |
| OrderedDict.Dedup | soil_api/utils/response_generator.py:25 | Keeping first occurrences gives a duplicate-free list. |
| OrderedDict.DedupMembers | soil_api/utils/response_generator.py:25 | Keeping first occurrences loses no element and adds none. |
| OrderedDict.DedupAppendCovered | soil_api/utils/response_generator.py:25 | Appending elements already present does not change the first-occurrence order. |
| OrderedDict.DedupDistinct | soil_api/utils/response_generator.py:25 | A duplicate-free list is its own first-occurrence order. |
| SoilTypeSummaryRoute.Summaries | soil_api/routes/soil_routes.py:263-275 | Definition: the summaries sorted by count; specified by `SummariesSpec`, `ToSummaryType` and `MapSortDesc`. |
| SoilTypeSummaryRoute.BboxPolygon | soil_api/routes/soil_routes.py:253-261 | Definition: the polygon literal; specified by `BboxPolygonSpec`. |
| SoilTypeSummaryRoute.GetSoilTypeSummary | soil_api/routes/soil_routes.py:238-282 | Definition: the whole summary response; specified by `GetSoilTypeSummarySpec`. |
| SoilTypeSummaryRoute.MapInsertDesc | soil_api/routes/soil_routes.py:263-273 | Mapping codes to types commutes with inserting by count. |
| SoilTypeSummaryRoute.MapSortDesc | soil_api/routes/soil_routes.py:263-273 | Sorting by count and then mapping codes to types is mapping and then sorting. |
| SoilTypeSummaryRoute.SummariesSpec | soil_api/routes/soil_routes.py:263-275 | One summary per cell value, a permutation of the mapped pairs, in non-increasing count order, with equal counts in dictionary order. |
| SoilTypeSummaryRoute.ToSummaryType | soil_api/routes/soil_routes.py:265-270 | A summary's type is `t{key}` for keys 0..29 and `No_information` otherwise, and its count is the cell count. |
| SoilTypeSummaryRoute.SummariesNotMerged | soil_api/routes/soil_routes.py:263-275 | Two codes that both map to `No_information` stay two separate summaries. |
| SoilTypeSummaryRoute.BboxPolygonSpec | soil_api/routes/soil_routes.py:253-261 | The polygon is one closed ring of five `[lon, lat]` points at the box's corners, with axis-parallel edges and twice signed area equal to twice the box's area, so a valid box gives a non-negative signed area (counter-clockwise unless the box is degenerate). |
| SoilTypeSummaryRoute.GetSoilTypeSummarySpec | soil_api/routes/soil_routes.py:238-282 | The response is the box's polygon and the classification raster's cell counts mapped to types and sorted by count. |

## Left out

- Raster I/O (`extract_point_from_raster`, `extract_bbox_from_raster`, the Homolosine reprojection, rasterio and numpy) is left out. Point reads are the `sample` parameter. The bbox cell counts are the `countCells` parameter, which gives (value, count) pairs in dictionary order. The -32768 that a failed read returns is just one possible `sample` result.
- `run_parallel`'s asyncio concurrency is modelled as the order-preserving sequential map of `run_sequential`, because `asyncio.gather` returns results in argument order.
- Timing and logging calls are left out; they have no effect on the results.
- `os.path.join` and the `settings.soil_maps_url` prefix are left out. A raster is a (collection, file name) pair, with the prefix treated as opaque. `settings.soil_maps["wrb"]` is `MostProbable.vrt`, from `soil_api/constants.py:2`.
- `settings.no_data_vals` and `settings.depths` are not defined in `soil_api/config.py`. They are taken from `soil_api/constants.py:16-17` and from the depth tables of `soil_api/models/soil_property.py`.
- `response_generator.py` imports `SoilPropertiesUnits`, which `soil_api/models/soil.py` does not define; the model uses `SoilPropertyUnits` from that file.
- The four parallel lists `all_properties`, `all_depths`, `all_value_types` and `soil_map_fnames` are modelled as one list of `Request` records plus a list of paths. The triple-nested loop is split into one method per level.
- The nested dict `soil_map_info` is modelled as an immutable map of insertion-ordered dicts that each loop pass rebuilds. This does not model Python object aliasing.
- The request lists are taken as already-validated enumeration values. The FastAPI dependencies in `soil_api/dependencies/queryparams.py` that parse and validate them are not part of this model.
- `soil_api/models/soil_type.py` duplicates `SoilTypes` with a different `No_information` string. It is not part of this model, because the routes import from `soil_api/models/soil.py`.
- GeoJSON wrappers (`type` fields, `FeatureType`, `GeometryType`) and Pydantic validation and serialisation (`response_model_exclude_none`, field aliases) are left out. Responses are plain datatypes, and absent fields are `Option`.
- The `validate_bbox` docstring (`soil_api/utils/validation_helpers.py:33-35`) promises a 404 for boxes outside the region of interest. The code never raises it, and the model follows the code.
- Coordinates are `real`, not IEEE floats; they appear only in comparisons and in the polygon.
- `SoilPropertyValues` fields are `float | None` in `soil_api/models/soil.py:186-201`, so Pydantic stores each sampled integer as a float. The model keeps the integer (`Option<int>`) and does not model that conversion.
- The unit conversion `SoilPropertyUnit` and the `SoilLayer` variant of `soil_api/models/soil_property.py` are not used by the routes, and are not modelled beyond their tables.
