# py-mule flight search core, modelled in Dafny

py-mule is a flight-search aggregator. It accepts a search request, translates
it into the request format of the upstream "Seeya" search service, maps the
upstream answer back into its own response records, and enriches the
response with carrier and airport descriptors. Those descriptors come from
its own resources service, through a cache. This project models that core
and proves properties of the model:

- `wrappers.dfy` (`Wrappers`): `Option` (Python's `None`) and `Result`
  (the error path of a call that raises).
- `converters.dfy` (`Converters`): the `upper` and `xstr` normalisers.
- `filters.dfy` (`Filters`): the multi-value lookup filter of the resources API.
- `search_models.dfy` (`SearchModels`): the internal records and their
  validations:
  - the `%Y-%m-%dT%H:%M:%S` date check;
  - route requests;
  - the segment id and the MD5 group id;
  - the resource dictionaries derived from a response item. `generate_resources`
    is an imperative method proved equal to a specification function.
- `seeya_models.dfy` (`SeeyaModels`): the upstream request and response records.
  The search request is a class whose `provider` property reads and writes the
  `method` field.
- `mappers.dfy` (`Mappers`): both mapping directions, request to upstream and
  upstream response back to search response.
- `managers.dfy` (`Managers`): the `ResourceManager`.
  - It is a class with the cache as a `map` field.
  - `fetch`, `get` and `enrich` are methods proved equal to specification
    functions over an explicit cache.
  - The lemmas state what those functions guarantee.

Effects and library code enter only as parameters:

- The HTTP call is a `service: Query -> Reply` parameter.
- MD5 is an `md5: string -> string` parameter.
- Records with their `copy` are datatypes with update.
- Exceptions are `Failure` values.

## Model

| member | source | states |
|---|---|---|
| Converters.UpperStr | mule/converters.py:5 | upper-casing keeps the length and maps each character through the ASCII upper-case map |
| Converters.UpperStrShape | mule/converters.py:5 | after `upper` no lower-case ASCII letter remains, and every character that was not a lower-case letter is unchanged |
| Converters.Upper | mule/converters.py:4-5 | `upper(None)` is `""`; otherwise the result has the length of the string and no lower-case ASCII letter |
| Converters.UpperBasics | mule/converters.py:4-5 | `upper(None)` is the empty string; `upper(s)` has the length of `s` |
| Converters.UpperIdempotent | mule/converters.py:4-5 | `upper(upper(x)) == upper(x)` for every optional string |
| Converters.UpperStrIdempotent | mule/converters.py:5 | upper-casing a string twice equals upper-casing it once |
| Converters.UpperStrAppend | mule/converters.py:5 | upper-casing distributes over concatenation |
| Converters.Xstr | mule/converters.py:8-9 | `xstr(None)` is `""` and `xstr(s)` returns a string `s` unchanged |
| Filters.FilterLookup | resources/filters.py:8-18 | fails with ParseError exactly when no value matches the anchored pattern; on success the parameter is `<lookup_field>__in` and the values are the cleaned, non-empty list |
| Filters.CleanedEmpty | resources/filters.py:12-15 | the cleaned list is empty exactly when no value matches |
| Filters.CleanedMembers | resources/filters.py:12 | `x` is kept exactly when it is the upper-cased form of some matching input value |
| Filters.CleanedAppend | resources/filters.py:12 | cleaning keeps input order: it distributes over concatenation |
| Filters.UpperKeepsMatch | resources/filters.py:9-12 | an upper-cased match still matches, for each of the three patterns |
| Filters.CleanedIdempotent | resources/filters.py:12 | cleaning an already cleaned list changes nothing |
| Filters.AnyTextAcceptsLines | resources/filters.py:9-10 | the default `(.*?)` pattern accepts every value without a line break |
| Filters.AirlineExample | resources/filters.py:9-17 | `["a3","fr","no"]` with the airline pattern gives `code__in = ["A3","FR","NO"]` |
| Filters.NoValuesExample | resources/filters.py:14-15 | no values at all raise ParseError |
| Filters.TrailingNewlineExample | resources/filters.py:10-12 | `$` also accepts one trailing line break, so `"ath\n"` is kept as `"ATH\n"` |
| SearchModels.ParseDateTime | search/models.py:12-17 | every date-time the lenient `strptime` parse accepts is a real calendar date-time |
| SearchModels.ParseFormatRoundTrip | search/models.py:12-17 | parsing the canonical `YYYY-MM-DDTHH:MM:SS` rendering of any valid date-time gives it back |
| SearchModels.FormatHasNoSpace | search/models.py:12-17 | the canonical rendering contains no space |
| SearchModels.ParseFields | search/models.py:12-17 | a string assembled from six fields and the separators parses exactly as those fields |
| SearchModels.SplitAtShape | search/models.py:12-17 | splitting at the first separator fails exactly on text without one; otherwise the text is a separator-free part, that separator, and the rest |
| SearchModels.PaddedFieldsValue | search/models.py:12-17 | zero-padded fields read back as a date-time exactly when the fields form a valid one |
| SearchModels.ParseFormatFields | search/models.py:12-17 | the canonical rendering of any six in-range fields parses back to them when they form a valid date-time, and is rejected otherwise |
| SearchModels.December31Accepted | search/models.py:12-17 | `2018-12-31T12:12:06` parses to exactly that date-time |
| SearchModels.LeapYearFebruary29Accepted | search/models.py:12-17 | `2016-02-29T00:00:00` parses to exactly that date-time |
| SearchModels.LenientFormAccepted | search/models.py:12-17 | unpadded fields, a space-padded day and a lower-case `t` are accepted, as `strptime` does |
| SearchModels.Day32Rejected | search/models.py:12-17 | `2018-12-32T00:05:06` is rejected |
| SearchModels.CommonYearFebruary29Rejected | search/models.py:12-17 | `2019-02-29T00:00:00` is rejected |
| SearchModels.NewRouteRequest | search/models.py:20-24 | construction succeeds exactly for a valid date-time, otherwise fails with that value; it keeps the date-time; the codes are `upper(departure)` and `upper(arrival)`, so they keep their length and contain no lower-case letter |
| SearchModels.RouteRequestStable | search/models.py:20-24 | rebuilding a route request from its own fields gives the same record |
| SearchModels.NewLeg | search/models.py:164-167 | a leg keeps its segments and its duration is always None |
| SearchModels.NewProvider | search/models.py:170-177 | name and uri are stored and the post-init hook makes the presentation name equal to the name |
| SearchModels.GenerateIdShape | search/models.py:152-161 | the id starts with the flight number and ends with the cabin class |
| SearchModels.IdentityFields | search/models.py:152-161 | two segments agreeing on number, marketing carrier and both points get equal ids exactly when their cabin classes are equal |
| SearchModels.AllSegmentsServiced | search/models.py:197 | when every leg's segments carry services, so does the flattened segment list |
| SearchModels.GroupId | search/models.py:196-198 | the group id of a single leg hashes the joined ids of that leg's segments, in order |
| SearchModels.AllSegmentsAppend | search/models.py:197 | flattening legs, leg then segment, distributes over concatenation |
| SearchModels.ConcatIdsAppend | search/models.py:197-198 | the joined ids of concatenated segment lists is the concatenation of the joined ids |
| SearchModels.GroupIdOfLegs | search/models.py:196-198 | the group id of `l1 + l2` is the hash of the ids of `l1` followed by those of `l2`, so it depends only on that ordered concatenation |
| SearchModels.ConcatIdsPair | search/models.py:197-198 | the joined ids of two segments is the first id followed by the second |
| SearchModels.ConcatIdsTriple | search/models.py:197-198 | the joined ids of three segments are the three ids in order |
| SearchModels.GroupIdExample | search/models.py:196-198 | legs whose segments carry only the numbers a,b and b,c,d (e.g. A,B and B,C,D) hash the string a+b+b+c+d (`ABBCD`) |
| SearchModels.FromKeysShape | search/models.py:201-217 | a `setdefault` fold has distinct keys, holds exactly the input codes, maps all of them to None and orders them by first occurrence |
| SearchModels.FromKeysMembers | search/models.py:208-217 | after the `setdefault` fold, a code is a key exactly when it is an input code, in the key list and in the map, and every value is None |
| SearchModels.FromKeysDistinct | search/models.py:208-217 | `setdefault` never lists a key twice |
| SearchModels.FromKeysOrder | search/models.py:208-217 | an earlier key was first set by default before a later key |
| SearchModels.FirstIndexPrefix | search/models.py:208-217 | extending the code list does not move the first occurrence of a code already present |
| SearchModels.StopCodesMembers | search/models.py:215-217 | a code is a stop code exactly when some technical stop arrives or departs there |
| SearchModels.CategoryCodesMembers | search/models.py:206-217 | a code is in a category's code list exactly when some segment contributes it |
| SearchModels.MentionsCodes | search/models.py:206-217 | some segment contributes a code to a category exactly when some segment mentions it in that category |
| SearchModels.ResourcesKeys | search/models.py:200-220 | a code is a key of a category exactly when some segment mentions it: marketing or operating carrier, cabin class, equipment, or a departure, arrival or technical-stop location |
| SearchModels.ResourcesShape | search/models.py:200-220 | every derived dictionary is valid, holds exactly its codes, maps them all to None and keeps first-occurrence order |
| SearchModels.AddStopsFromKeys | search/models.py:215-217 | adding stop locations one by one equals folding the concatenated code list |
| SearchModels.ResourcesFromSnoc | search/models.py:206-217 | the resources of one more segment are those of the prefix with that segment's codes set by default |
| SearchModels.AddSegmentsAppend | search/models.py:206-217 | running the segment loop over `a + b` equals running it over `a` and then over `b` |
| SearchModels.AddSegmentsFromEmpty | search/models.py:200-220 | running the segment loop from four empty dictionaries gives the specified resources |
| SearchModels.SetDefaultStops | search/models.py:215-217 | the technical-stop loop sets every stop's arrival and then departure location by default, in order |
| SearchModels.GenerateResources | search/models.py:200-220 | the nested loops compute exactly the specified resources of the legs |
| SearchModels.NewSearchResponseData | search/models.py:180-198 | construction fails exactly when a segment has no services; otherwise the group id and resources are derived from the legs and the given fields are kept |
| SeeyaModels.NewSeeyaLeg | seeya/models.py:11-26 | the given fields are kept, the radius dictionaries and forced carriers default to empty |
| SeeyaModels.NewSeeyaSearchQuery | seeya/models.py:35-44 | the given fields are kept, `pccs` defaults to empty and `maxRecommendations` to 200 |
| SeeyaModels.SplitOn | seeya/models.py:62 | `str.split` always yields at least one piece, and no piece contains the separator |
| SeeyaModels.SplitJoin | seeya/models.py:62-66 | splitting a join of separator-free pieces gives the pieces back |
| SeeyaModels.JoinSplit | seeya/models.py:62-66 | joining the pieces of a split gives the string back |
| SeeyaModels.SplitPrefix | seeya/models.py:62 | a separator-free prefix followed by the separator is the first piece |
| SeeyaModels.ProviderOf | seeya/models.py:60-62 | the getter gives None when `method` is None, fails with IndexError exactly when `method` has no dot, and otherwise gives the second dot-separated piece of `method`, which is dot-free |
| SeeyaModels.ProviderReadBack | seeya/models.py:60-72 | after setting any provider, the getter reads back its part before the first dot |
| SeeyaModels.ProviderRoundTrip | seeya/models.py:60-72 | a dot-free provider reads back unchanged |
| SeeyaModels.SeeyaSearchRequest.constructor | seeya/models.py:53-58 | fields are stored as given, except the transaction id, which goes through `xstr` (None becomes `""`) |
| SeeyaModels.SeeyaSearchRequest.SetProvider | seeya/models.py:64-72 | the setter writes `flights.<provider>.search` to `method`, changes no other field, and the getter then reads the provider back |
| SeeyaModels.Deserialize | seeya/models.py:150-152 | the references keep the shape of the raw pairs and keep only the reference of each pair |
| SeeyaModels.DeserializeIgnoresFlags | seeya/models.py:150-152 | pairing references with any flags and deserialising returns the references |
| Mappers.ReplaceChar | search/mappers.py:62 | replacing one character by another keeps the length and rewrites exactly the occurrences of that character |
| Mappers.ReplaceT | search/mappers.py:62 | `replace('T', ' ')` keeps the length and replaces exactly the `T` characters |
| Mappers.ReplaceTInverse | search/mappers.py:62 | no `T` remains, and for a string without spaces the replacement can be undone |
| Mappers.ReplaceTDateTime | search/mappers.py:62 | `<date>T<time>` becomes `<date> <time>` |
| Mappers.ToSeeyaLeg | search/mappers.py:57-64 | departure and arrival are copied, the date is the datetime with every `T` replaced by a space, and the other fields take their defaults |
| Mappers.PassengerTypeNameInverse | search/mappers.py:71 | the emitted enum name identifies the passenger type uniquely |
| Mappers.ToSeeyaPassenger | search/mappers.py:67-72 | the count is kept and the type is the enum name of the passenger type |
| Mappers.ToSeeyaLegs | search/mappers.py:37-39 | the routes are mapped one by one, in order |
| Mappers.ToSeeyaPassengers | search/mappers.py:37-39 | the passengers are mapped one by one, in order |
| Mappers.ToSeeyaQuery | search/mappers.py:42-52 | direct, preferred carrier and cabin class come from directRoutes, carrier and cabinClass; currency is copied; legs and passengers are mapped elementwise; the defaults apply |
| Mappers.ToSeeyaRequest | search/mappers.py:42-54 | a fresh request with that query and the market and locale as metadata; the transaction id is `""`, pcc and method are None, so the provider reads None |
| Mappers.MapSegmentPoint | search/mappers.py:164-166 | the airport becomes the location and the datetime is copied |
| Mappers.MapTechnicalStop | search/mappers.py:169-175 | both points are at the destination, arriving at `arrDatetime` and departing at `depDatetime`; the duration is copied |
| Mappers.MapTechnicalStops | search/mappers.py:75-77 | technical stops are mapped one by one, in order |
| Mappers.MapSegment | search/mappers.py:139-161 | the transport type is `flights` and services is None; number, equipment, carriers and duration are copied; the points and stops are mapped |
| Mappers.MapSegments | search/mappers.py:80-82 | the segment dictionary keeps its keys and maps every value |
| Mappers.MapPrice | search/mappers.py:129-136 | the count is 0; total and currency come from the total price, tax from the taxes and face value from the base fare |
| Mappers.MapPassengers | search/mappers.py:80-82 | a passenger type is priced exactly when its name is a key; each value is its mapped price |
| Mappers.PassengersCount | search/mappers.py:80-82 | the passenger dictionary has as many entries as the priced types |
| Mappers.Clone | search/mappers.py:111-115 | only the services are replaced, by the fare's cabin and booking class |
| Mappers.MapRefs | search/mappers.py:111-119 | succeeds exactly when every reference has a segment and fare data; it then clones each one in order; otherwise it reports the first failing reference, a missing segment before missing fare data |
| Mappers.MapSegmentRefs | search/mappers.py:108-121 | one leg per list of references, same count and order, no duration; it fails exactly when some reference fails, and then with the first failing leg's error |
| Mappers.MappedLegs | search/mappers.py:108-121 | every mapped segment is its shared segment with only the services replaced, so the legs all carry services |
| Mappers.SegmentRefsExample | search/mappers.py:108-121 | references `[["aaa"], ["bbb","ccc"]]` give two legs of one and two cloned segments |
| Mappers.MissingSegmentFails | search/mappers.py:111-112 | a reference missing from the shared segments fails the mapping rather than being skipped |
| Mappers.MapRecommendation | search/mappers.py:96-105 | fails exactly when there is no adult price entry or a reference fails; on success: id None, provider from gds and deep link, mapped legs and passengers, and the derived group id and resources |
| Mappers.MapList | search/mappers.py:75-77 | mapping a list, stopping at the first failure, keeps the count on success |
| Mappers.MapListAt | search/mappers.py:75-77 | on success each element is mapped at its own position; a failing element fails the whole list |
| Mappers.MapListFailure | search/mappers.py:75-77 | a failed list reports the error of the first element whose mapping fails; every element before it maps |
| Mappers.MapRecommendations | search/mappers.py:75-77 | a successful mapping keeps the number of recommendations |
| Mappers.MapResponse | search/mappers.py:85-93 | an upstream error gives empty data with that error; otherwise the shared segments are mapped once and every recommendation becomes one item |
| Mappers.ErrorIgnoresResult | search/mappers.py:85-93 | with an upstream error the payload is never inspected: two responses with the same error map alike, to empty data |
| Mappers.ResponseShape | search/mappers.py:85-105 | a successful mapping has one item per recommendation, no error, and each item's group id is derived from its legs |
| Managers.QueryFor | search/managers.py:64-65 | carriers are fetched from `/resources/airlines/` and locations from `/resources/airports/`, with the code argument as the query parameter |
| Managers.Uncached | search/managers.py:53-57 | filtering never yields more codes than given |
| Managers.UncachedMember | search/managers.py:53-57 | a code is kept exactly when it is in the input and its key is not cached |
| Managers.FilterCodes | search/managers.py:44-57 | falsy input gives no codes; otherwise exactly the input codes whose key is not cached (a lone string counts as one code); when every code is cached, none |
| Managers.UncachedAppend | search/managers.py:57 | filtering keeps input order: it distributes over concatenation |
| Managers.FilterCodesExample | search/managers.py:44-57 | None and `[]` give `[]`, `"A3"` gives `["A3"]`, and with A3 and LH cached, `A3,CY,LH,FR` gives `CY,FR` |
| Managers.Decoded | search/managers.py:69-77 | the stored records are exactly those before the first record that fails to deserialise |
| Managers.Codes | search/managers.py:69-72 | the codes of the records, in order |
| Managers.StoreKey | search/managers.py:69-72 | a key is present after storing exactly when it was cached or is the (class, locale, code) of a stored record; every other entry is kept |
| Managers.StoreKeys | search/managers.py:69-72 | the same for every key at once |
| Managers.StoreLast | search/managers.py:69-72 | the last record with a given code is the one cached |
| Managers.FetchOutcome | search/managers.py:59-77 | a falsy code or a transport failure returns None with the cache unchanged; the cache never loses a key; a record is returned exactly when the reply has exactly one, deserialised, and it is that record |
| Managers.FetchStores | search/managers.py:69-72 | after a reply, a key is cached exactly when it was cached before or is a returned code, and every other entry is kept |
| Managers.FetchKeepsLast | search/managers.py:69-72 | after a reply, the last record returned for a code is the one cached |
| Managers.FetchExamples | search/managers.py:69-75 | one returned record is returned and cached alone; two returned records are both cached and nothing is returned |
| Managers.GetOutcome | search/managers.py:40-42 | a cached key answers from the cache and changes nothing; a miss returns what `fetch` returns, and the new cache is the one `fetch` left with that value, None included, stored under the key |
| Managers.GetMemoises | search/managers.py:40-42 | a second `get` of the same code answers the first value, changes nothing and ignores the service |
| Managers.CodesCold | search/managers.py:37-38 | resolving the codes keeps the dictionary's keys and leaves every code cached |
| Managers.CodesWarm | search/managers.py:37-38 | with every code cached, resolving changes no cache entry and sets each code to its cache entry |
| Managers.CodesGrow | search/managers.py:37-38 | resolving codes never removes a cache key |
| Managers.CategoryCold | search/managers.py:30-38 | a category without a route is skipped; otherwise its key order is kept and every code ends up cached |
| Managers.CategoryWarm | search/managers.py:30-38 | with every code cached, nothing is fetched, the cache is unchanged and each code maps to its cached descriptor |
| Managers.CategoryGrows | search/managers.py:30-38 | resolving a category never removes a cache key |
| Managers.ResourcesCold | search/managers.py:21-38 | carriers and locations keep their codes in order and end up cached; cabin classes and equipment are untouched |
| Managers.ResourcesWarm | search/managers.py:21-38 | with every routed code cached, the cache is unchanged and each carrier and location code maps to its cache entry |
| Managers.ResourcesGrow | search/managers.py:29-38 | resolving all categories of an item never removes a cache key |
| Managers.RoutedCachedGrows | search/managers.py:29-38 | codes that are cached stay cached in any larger cache |
| Managers.ThreadFrame | search/managers.py:26-28 | the item loop keeps the number of items and leaves items not yet visited unchanged |
| Managers.ThreadAt | search/managers.py:26-28 | each item of the result is the enrichment of that item against the cache left by the items before it |
| Managers.ThreadGrows | search/managers.py:26-28 | when no step removes a cache key, the whole loop removes none |
| Managers.ThreadKeeps | search/managers.py:26-28 | when no step changes the cache, the loop leaves the cache unchanged |
| Managers.EnrichItemGrows | search/managers.py:26-38 | enriching one item never removes a cache key |
| Managers.DataColdAt | search/managers.py:26-38 | after enrichment each item keeps its fields and code order, and its carrier and location codes are cached |
| Managers.DataWarmAt | search/managers.py:26-38 | with every routed code of every item cached, enrichment changes no cache entry and each item's codes map to their cache entries |
| Managers.EnrichShape | search/managers.py:26-38 | enrichment keeps the error and every field but the resources; codes keep their order; cabin classes and equipment are untouched; the cache only grows; every carrier and location code ends up cached |
| Managers.EnrichTwice | search/managers.py:26-42 | enriching an enriched response again changes no cache entry and resolves every code from the cache, whatever the service answers |
| Managers.ResourceManager.constructor | search/managers.py:23-24 | a new manager starts with an empty cache |
| Managers.ResourceManager.Fetch | search/managers.py:59-77 | the loop computes exactly `FetchOutcome` for the return value and the new cache |
| Managers.ResourceManager.Get | search/managers.py:40-42 | computes exactly `GetOutcome` for the return value and the new cache |
| Managers.ResourceManager.EnrichCodes | search/managers.py:37-38 | the code loop computes exactly the specified dictionary and cache |
| Managers.ResourceManager.EnrichResources | search/managers.py:29-38 | the category loop computes exactly the specified resources and cache |
| Managers.ResourceManager.Enrich | search/managers.py:26-38 | the data loop computes exactly `EnrichOutcome` for the response and the cache |

## Modelling choices

- `enrich` reads `response.locale` and `data.resources.all()`, but
  `SearchResponse` has no `locale` (search/models.py:223-226) and `Resources`
  has no `all()` (search/models.py:80-85). As written, every call would raise
  AttributeError. The model takes the locale as a parameter. It visits the
  categories in declaration order: carriers, cabin classes, locations,
  equipment.
- `enrich` skips every class without an entry in `ROUTES`
  (search/managers.py:21,30-31). The model follows the code, so cabin classes
  and equipment are never fetched. The accompanying test expects a fetch for
  all four categories (search/test_managers.py:54-63).
- A fresh upstream request leaves `method` None, so its provider reads None
  (seeya/models.py:58,62). The model follows the code. It does not follow
  the test's expectation of `flights.None.search`.
- The route request performs no length check on the airport codes
  (search/models.py:20-24). The model has none either.
- Errors are values:
  - Construction failures are `ConstructionError`: an invalid date-time, or
    a segment without services.
  - A `None` from a dictionary lookup followed by an attribute access becomes
    a `MappingError`. In Python this is an AttributeError. The segment is
    looked up before the fare data.
  - `str.split(".")[1]` on a method without a dot is `IndexError`.
- Python dictionaries are a `Dict`: an insertion-ordered key list with a
  value map. `setdefault` and item assignment are its operations.
- The cache key is (class, locale, code). The manager instance that
  `hashkey` also includes is the same in every key.
- `get` and `fetch`/`filter_codes` share one key space. This assumes that
  `@cachedmethod` (search/managers.py:40) keys `get` as
  `hashkey(self, clazz, locale, code)`, as cachetools 2.x does; the tests
  depend on it (search/test_managers.py:95-98). From cachetools 3.0 on, the
  default key leaves out `self`, so `get` would keep entries apart from the
  ones `fetch` stores; that behaviour is not modelled.

## Left out

- `SearchResponseData.get_total` and `Passenger.get_total`: float arithmetic; amounts are opaque values copied through.
- SearchModels.GroupIdOfLegs: MD5 is a parameter, so the model proves what the hash is applied to, not properties of the digest.
- Converters.UpperStr: upper-cases ASCII letters only; Unicode case mappings (e.g. `ß` to `SS`) are not modelled.
- SearchModels.ParseDateTime: accepts ASCII digits only, where `strptime` also accepts other Unicode decimal digits.
- Converters.Xstr: takes an optional string; `str()` of other Python types is not modelled.
- TTL expiry and the size bound of the `TTLCache` (search/managers.py:24): the cache is an unbounded map that never loses entries.
- Logging of swallowed exceptions in `fetch`; the HTTP request, its status check and JSON decoding are one `service` reply (`TransportError` or a list of records).
- In-place mutation: the resources dictionaries that `enrich` rewrites and the `SearchResponseData` post-init assignments are modelled as new values returned, so aliasing between a response and other holders of its dictionaries is not captured.
- The generic `list`/`dict` registrations of the singledispatch mappers are modelled by the elementwise functions that use them, not as dispatch.
- search/services.py (thread-pool fan-out, request ids), seeya/services.py (job submission, clock, file logging), search/views.py, search/validators.py and the Django resources app are not part of this model.
