/** The resource manager: a cache from (resource class, locale, code) to the
    descriptor the resources service returned, filled in batches and used to
    resolve the resource codes of a search response. The HTTP exchange is the
    `service` parameter: a function from the query sent to the reply received. */
module Managers {
  import opened Wrappers
  import SM = SearchModels

  // ---------------------------------------------------------------------
  // Queries, replies and the cache
  // ---------------------------------------------------------------------

  const Endpoint := "http://127.0.0.1:8000/resources"

  /** The service route of a resource class; only carriers and locations have one. */
  function RouteOf(clazz: SM.ResourceClass): Option<string> {
    match clazz
    case Carriers => Some("airlines")
    case Locations => Some("airports")
    case _ => None
  }

  /** The `code` argument as Python receives it: None, one string, or a list
      (or dictionary key view) of strings. */
  datatype CodeArg = NoCode | One(code: string) | Many(codes: seq<string>)

  /** `not code`: None, the empty string and the empty list are all falsy. */
  predicate Falsy(a: CodeArg) {
    a.NoCode? || a == One("") || a == Many([])
  }

  /** The codes the argument stands for (a lone string is one code). */
  function CodeList(a: CodeArg): seq<string> {
    match a
    case NoCode => []
    case One(c) => [c]
    case Many(cs) => cs
  }

  /** A GET request: the url and the `code` query parameter. */
  datatype Query = Query(url: string, code: CodeArg)

  /** What the resources service answers: a transport, status or JSON failure,
      or the list of records, each either deserialised or failing to be. */
  datatype Reply = TransportError | Payload(items: seq<Option<SM.Descriptor>>)

  /** A reply that `fetch` hands back: exactly one record, deserialised. */
  predicate Single(reply: Reply) {
    reply.Payload? && |reply.items| == 1 && reply.items[0].Some?
  }

  /** `hashkey(self, clazz, locale, code)`; the manager itself is the same in every key. */
  datatype CacheKey = CacheKey(clazz: SM.ResourceClass, locale: string, code: string)

  type Cache = map<CacheKey, Option<SM.Descriptor>>

  /** The query `fetch` sends: `<ENDPOINT>/<route>/`, where a class without a
      route formats as `None`. */
  function QueryFor(clazz: SM.ResourceClass, code: CodeArg): (q: Query)
    ensures q.code == code
    ensures clazz == SM.Carriers ==> q.url == "http://127.0.0.1:8000/resources/airlines/"
    ensures clazz == SM.Locations ==> q.url == "http://127.0.0.1:8000/resources/airports/"
  {
    Query(Endpoint + "/" + RouteOf(clazz).GetOr("None") + "/", code)
  }

  // ---------------------------------------------------------------------
  // filter_codes
  // ---------------------------------------------------------------------

  /** The codes of `cs` not yet cached for (clazz, locale), in input order. */
  function Uncached(cache: Cache, clazz: SM.ResourceClass, locale: string, cs: seq<string>): (r: seq<string>)
    ensures |r| <= |cs|
  {
    if cs == [] then []
    else (if CacheKey(clazz, locale, cs[0]) in cache then [] else [cs[0]])
         + Uncached(cache, clazz, locale, cs[1..])
  }

  /** A code survives exactly when it is an input code whose key is not cached. */
  lemma {:induction false} UncachedMember(cache: Cache, clazz: SM.ResourceClass, locale: string, cs: seq<string>, x: string)
    ensures x in Uncached(cache, clazz, locale, cs) <==> x in cs && CacheKey(clazz, locale, x) !in cache
  {
    if cs != [] {
      UncachedMember(cache, clazz, locale, cs[1..], x);
      assert x in cs <==> x == cs[0] || x in cs[1..];
    }
  }

  /** `filter_codes`: falsy input gives no codes, a lone string is a one-element
      list, otherwise the codes whose key is absent from the cache. Being a
      function of the cache, it leaves the cache alone. */
  function FilterCodes(cache: Cache, clazz: SM.ResourceClass, locale: string, codes: CodeArg): (r: seq<string>)
    ensures Falsy(codes) ==> r == []
    ensures !Falsy(codes) ==> forall x :: x in r <==> x in CodeList(codes) && CacheKey(clazz, locale, x) !in cache
    ensures (forall x :: x in CodeList(codes) ==> CacheKey(clazz, locale, x) in cache) ==> r == []
  {
    if Falsy(codes) then []
    else
      var r := Uncached(cache, clazz, locale, CodeList(codes));
      assert forall x :: x in r <==> x in CodeList(codes) && CacheKey(clazz, locale, x) !in cache by {
        forall x {
          UncachedMember(cache, clazz, locale, CodeList(codes), x);
        }
      }
      assert r != [] ==> r[0] in r;
      r
  }

  /** Filtering keeps the input order: it distributes over concatenation. */
  lemma {:induction false} UncachedAppend(cache: Cache, clazz: SM.ResourceClass, locale: string, a: seq<string>, b: seq<string>)
    ensures Uncached(cache, clazz, locale, a + b) == Uncached(cache, clazz, locale, a) + Uncached(cache, clazz, locale, b)
  {
    if a == [] {
      assert a + b == b;
    } else {
      var head := if CacheKey(clazz, locale, a[0]) in cache then [] else [a[0]];
      assert (a + b)[0] == a[0];
      assert (a + b)[1..] == a[1..] + b;
      UncachedAppend(cache, clazz, locale, a[1..], b);
      calc {
        Uncached(cache, clazz, locale, a + b);
        head + Uncached(cache, clazz, locale, a[1..] + b);
        head + (Uncached(cache, clazz, locale, a[1..]) + Uncached(cache, clazz, locale, b));
        (head + Uncached(cache, clazz, locale, a[1..])) + Uncached(cache, clazz, locale, b);
      }
    }
  }

  /** None, [] and a lone string; then, with A3 and LH cached, only CY and FR
      of A3, CY, LH, FR remain. */
  lemma FilterCodesExample(locale: string, a3: Option<SM.Descriptor>, lh: Option<SM.Descriptor>)
    ensures FilterCodes(map[], SM.Carriers, locale, NoCode) == []
    ensures FilterCodes(map[], SM.Carriers, locale, Many([])) == []
    ensures FilterCodes(map[], SM.Carriers, locale, One("A3")) == ["A3"]
    ensures var cache := map[CacheKey(SM.Carriers, locale, "A3") := a3, CacheKey(SM.Carriers, locale, "LH") := lh];
            FilterCodes(cache, SM.Carriers, locale, Many(["A3", "CY", "LH", "FR"])) == ["CY", "FR"]
  {
    var cache := map[CacheKey(SM.Carriers, locale, "A3") := a3, CacheKey(SM.Carriers, locale, "LH") := lh];
    var cs := ["A3", "CY", "LH", "FR"];
    assert cs[1..][1..][1..][1..] == [];
    UncachedAppend(cache, SM.Carriers, locale, ["A3", "CY"], ["LH", "FR"]);
    assert ["A3", "CY"] + ["LH", "FR"] == cs;
    assert ["A3", "CY"][1..] == ["CY"] && ["LH", "FR"][1..] == ["FR"];
    assert Uncached(cache, SM.Carriers, locale, ["A3", "CY"]) == ["CY"];
    assert Uncached(cache, SM.Carriers, locale, ["LH", "FR"]) == ["FR"];
  }

  // ---------------------------------------------------------------------
  // fetch
  // ---------------------------------------------------------------------

  /** The records deserialised before the first one that fails: `deserialize`
      raising ends the loop, and the exception is logged and swallowed. */
  function Decoded(items: seq<Option<SM.Descriptor>>): (r: seq<SM.Descriptor>)
    ensures |r| <= |items|
    ensures forall i :: 0 <= i < |r| ==> items[i] == Some(r[i])
    ensures |r| < |items| ==> items[|r|].None?
  {
    if items == [] || items[0].None? then [] else [items[0].value] + Decoded(items[1..])
  }

  /** The codes of a list of descriptors. */
  function Codes(ds: seq<SM.Descriptor>): (r: seq<string>)
    ensures |r| == |ds|
    ensures forall i :: 0 <= i < |ds| ==> r[i] == ds[i].code
  {
    if ds == [] then [] else [ds[0].code] + Codes(ds[1..])
  }

  /** The cache after storing each descriptor under its code, in reply order. */
  function Store(cache: Cache, clazz: SM.ResourceClass, locale: string, ds: seq<SM.Descriptor>): Cache
    decreases |ds|
  {
    if ds == [] then cache
    else Store(cache[CacheKey(clazz, locale, ds[0].code) := Some(ds[0])], clazz, locale, ds[1..])
  }

  /** Storing adds exactly the keys of the stored codes and keeps every other entry. */
  lemma {:induction false} StoreKey(cache: Cache, clazz: SM.ResourceClass, locale: string, ds: seq<SM.Descriptor>, k: CacheKey)
    ensures k in Store(cache, clazz, locale, ds) <==> k in cache || (k.clazz == clazz && k.locale == locale && k.code in Codes(ds))
    ensures k in cache && !(k.clazz == clazz && k.locale == locale && k.code in Codes(ds))
            ==> Store(cache, clazz, locale, ds)[k] == cache[k]
    decreases |ds|
  {
    if ds != [] {
      StoreKey(cache[CacheKey(clazz, locale, ds[0].code) := Some(ds[0])], clazz, locale, ds[1..], k);
    }
  }

  /** The last record with a given code is the one stored under it. */
  lemma {:induction false} StoreLast(cache: Cache, clazz: SM.ResourceClass, locale: string, ds: seq<SM.Descriptor>, i: nat)
    requires i < |ds|
    requires forall j :: i < j < |ds| ==> ds[j].code != ds[i].code
    ensures CacheKey(clazz, locale, ds[i].code) in Store(cache, clazz, locale, ds)
    ensures Store(cache, clazz, locale, ds)[CacheKey(clazz, locale, ds[i].code)] == Some(ds[i])
    decreases |ds|
  {
    var next := cache[CacheKey(clazz, locale, ds[0].code) := Some(ds[0])];
    if i == 0 {
      var cs := Codes(ds[1..]);
      assert ds[0].code !in cs by {
        forall j | 0 <= j < |cs| ensures cs[j] != ds[0].code {
          assert ds[1..][j] == ds[j + 1];
        }
      }
      StoreKey(next, clazz, locale, ds[1..], CacheKey(clazz, locale, ds[0].code));
    } else {
      StoreLast(next, clazz, locale, ds[1..], i - 1);
    }
  }

  /** `StoreKey` for every key at once. */
  lemma StoreKeys(cache: Cache, clazz: SM.ResourceClass, locale: string, ds: seq<SM.Descriptor>)
    ensures forall k :: k in Store(cache, clazz, locale, ds) <==> k in cache || (k.clazz == clazz && k.locale == locale && k.code in Codes(ds))
    ensures forall k :: k in cache && !(k.clazz == clazz && k.locale == locale && k.code in Codes(ds))
                        ==> Store(cache, clazz, locale, ds)[k] == cache[k]
  {
    forall k {
      StoreKey(cache, clazz, locale, ds, k);
    }
  }

  /** `fetch` on a given cache: the value it returns and the cache it leaves. */
  function FetchOutcome(cache: Cache, clazz: SM.ResourceClass, locale: string, code: CodeArg,
                        service: Query -> Reply): (r: (Option<SM.Descriptor>, Cache))
    ensures Falsy(code) ==> r == (None, cache)
    ensures !Falsy(code) && service(QueryFor(clazz, code)).TransportError? ==> r == (None, cache)
    ensures cache.Keys <= r.1.Keys
    ensures r.0.Some? <==> !Falsy(code) && Single(service(QueryFor(clazz, code)))
    ensures r.0.Some? ==> r.0 == service(QueryFor(clazz, code)).items[0]
  {
    if Falsy(code) then (None, cache)
    else
      match service(QueryFor(clazz, code))
      case TransportError => (None, cache)
      case Payload(items) =>
        StoreKeys(cache, clazz, locale, Decoded(items));
        var stored := Store(cache, clazz, locale, Decoded(items));
        (if |items| == 1 && items[0].Some? then items[0] else None, stored)
  }

  /** A reply's records land in the cache under (clazz, locale, code): a key
      is present afterwards exactly when it was before or is one of the codes
      deserialised, and every other entry is kept. */
  lemma FetchStores(cache: Cache, clazz: SM.ResourceClass, locale: string, code: CodeArg,
                    service: Query -> Reply, k: CacheKey)
    requires !Falsy(code) && service(QueryFor(clazz, code)).Payload?
    ensures var ds := Decoded(service(QueryFor(clazz, code)).items);
            var c := FetchOutcome(cache, clazz, locale, code, service).1;
            && (k in c <==> k in cache || (k.clazz == clazz && k.locale == locale && k.code in Codes(ds)))
            && (k in cache && !(k.clazz == clazz && k.locale == locale && k.code in Codes(ds)) ==> c[k] == cache[k])
  {
    StoreKey(cache, clazz, locale, Decoded(service(QueryFor(clazz, code)).items), k);
  }

  /** Of several returned records with the same code, the last one is cached. */
  lemma FetchKeepsLast(cache: Cache, clazz: SM.ResourceClass, locale: string, code: CodeArg,
                       service: Query -> Reply, i: nat)
    requires !Falsy(code) && service(QueryFor(clazz, code)).Payload?
    requires var ds := Decoded(service(QueryFor(clazz, code)).items);
             i < |ds| && forall j :: i < j < |ds| ==> ds[j].code != ds[i].code
    ensures var ds := Decoded(service(QueryFor(clazz, code)).items);
            var c := FetchOutcome(cache, clazz, locale, code, service).1;
            CacheKey(clazz, locale, ds[i].code) in c && c[CacheKey(clazz, locale, ds[i].code)] == Some(ds[i])
  {
    StoreLast(cache, clazz, locale, Decoded(service(QueryFor(clazz, code)).items), i);
  }

  /** One record comes back and is returned; two come back and both are
      cached while nothing is returned. */
  lemma FetchExamples(locale: string)
    ensures var a3 := SM.ResourceCarrier("A3", None, "Aegean");
            var r := FetchOutcome(map[], SM.Carriers, locale, One("A3"), q => Payload([Some(a3)]));
            r.0 == Some(a3) && r.1.Keys == {CacheKey(SM.Carriers, locale, "A3")}
    ensures var a3 := SM.ResourceCarrier("A3", None, "Aegean");
            var lh := SM.ResourceCarrier("LH", Some("lh.gif"), "Luff");
            var r := FetchOutcome(map[], SM.Carriers, locale, One("A3"), q => Payload([Some(a3), Some(lh)]));
            r.0 == None && r.1.Keys == {CacheKey(SM.Carriers, locale, "A3"), CacheKey(SM.Carriers, locale, "LH")}
  {
    var a3 := SM.ResourceCarrier("A3", None, "Aegean");
    var lh := SM.ResourceCarrier("LH", Some("lh.gif"), "Luff");
    assert Codes([a3]) == ["A3"];
    assert Codes([a3, lh]) == ["A3", "LH"];
    assert Decoded([Some(a3)]) == [a3];
    assert Decoded([Some(a3), Some(lh)]) == [a3, lh];
    assert [a3][1..] == [] && [a3, lh][1..] == [lh] && [lh][1..] == [];
    assert Store(map[], SM.Carriers, locale, [a3]) == map[CacheKey(SM.Carriers, locale, "A3") := Some(a3)];
    var one := map[CacheKey(SM.Carriers, locale, "A3") := Some(a3)];
    assert Store(map[], SM.Carriers, locale, [a3, lh]) == Store(one, SM.Carriers, locale, [lh]);
    assert Store(one, SM.Carriers, locale, [lh]) == one[CacheKey(SM.Carriers, locale, "LH") := Some(lh)];
  }

  // ---------------------------------------------------------------------
  // get
  // ---------------------------------------------------------------------

  /** The memoised `get`: a cached key answers from the cache; a miss fetches
      the one code and caches what came back, None included. */
  function GetOutcome(cache: Cache, clazz: SM.ResourceClass, locale: string, code: string,
                      service: Query -> Reply): (r: (Option<SM.Descriptor>, Cache))
    ensures CacheKey(clazz, locale, code) in cache ==> r == (cache[CacheKey(clazz, locale, code)], cache)
    ensures CacheKey(clazz, locale, code) !in cache ==> r.0 == FetchOutcome(cache, clazz, locale, One(code), service).0
    ensures CacheKey(clazz, locale, code) !in cache ==>
              r.1 == FetchOutcome(cache, clazz, locale, One(code), service).1[CacheKey(clazz, locale, code) := r.0]
    ensures CacheKey(clazz, locale, code) in r.1 && r.1[CacheKey(clazz, locale, code)] == r.0
    ensures cache.Keys <= r.1.Keys
  {
    var key := CacheKey(clazz, locale, code);
    if key in cache then (cache[key], cache)
    else
      var (v, c) := FetchOutcome(cache, clazz, locale, One(code), service);
      (v, c[key := v])
  }

  /** A second `get` of the same code answers the first one's value, changes
      nothing and never consults the service. */
  lemma GetMemoises(cache: Cache, clazz: SM.ResourceClass, locale: string, code: string,
                    service: Query -> Reply, later: Query -> Reply)
    ensures var (v, c) := GetOutcome(cache, clazz, locale, code, service);
            GetOutcome(c, clazz, locale, code, later) == (v, c)
  {
  }

  // ---------------------------------------------------------------------
  // enrich
  // ---------------------------------------------------------------------

  /** The categories of a `Resources` record, in declaration order. */
  const Categories := [SM.Carriers, SM.CabinClasses, SM.Locations, SM.Equipments]

  /** `resources[code] = get(clazz, locale, code)` for `codes[k..]`, in order. */
  function EnrichCodesFrom(cache: Cache, d: SM.Dict, clazz: SM.ResourceClass, locale: string,
                           codes: seq<string>, service: Query -> Reply, k: nat): (SM.Dict, Cache)
    requires k <= |codes|
    decreases |codes| - k
  {
    if k == |codes| then (d, cache)
    else
      var (v, c) := GetOutcome(cache, clazz, locale, codes[k], service);
      EnrichCodesFrom(c, d.Put(codes[k], v), clazz, locale, codes, service, k + 1)
  }

  /** One category: skipped without a route; otherwise the uncached codes are
      fetched in one batch, then every code is resolved through `get`. */
  function EnrichCategory(cache: Cache, d: SM.Dict, clazz: SM.ResourceClass, locale: string,
                          service: Query -> Reply): (SM.Dict, Cache)
  {
    if RouteOf(clazz).None? then (d, cache)
    else
      var fetchCodes := FilterCodes(cache, clazz, locale, Many(d.keys));
      var c := FetchOutcome(cache, clazz, locale, Many(fetchCodes), service).1;
      EnrichCodesFrom(c, d, clazz, locale, d.keys, service, 0)
  }

  /** The categories `Categories[j..]` of one resources record. */
  function EnrichResourcesFrom(cache: Cache, res: SM.Resources, locale: string,
                               service: Query -> Reply, j: nat): (SM.Resources, Cache)
    requires j <= |Categories|
    decreases |Categories| - j
  {
    if j == |Categories| then (res, cache)
    else
      var clazz := Categories[j];
      var (d, c) := EnrichCategory(cache, SM.Category(res, clazz), clazz, locale, service);
      EnrichResourcesFrom(c, SM.WithCategory(res, clazz, d), locale, service, j + 1)
  }

  /** The items `xs[i..]`, each rewritten in place by `step`, which also hands
      the cache on from one item to the next. */
  function ThreadFrom<A>(cache: Cache, xs: seq<A>, step: (Cache, A) -> (A, Cache), i: nat): (seq<A>, Cache)
    requires i <= |xs|
    decreases |xs| - i
  {
    if i == |xs| then (xs, cache)
    else
      var (x, c) := step(cache, xs[i]);
      ThreadFrom(c, xs[i := x], step, i + 1)
  }

  /** The cache `ThreadFrom(cache, xs, step, i)` hands to item `m`. */
  function CacheBefore<A>(cache: Cache, xs: seq<A>, step: (Cache, A) -> (A, Cache), i: nat, m: nat): Cache
    requires i <= m <= |xs|
    decreases m - i
  {
    if i == m then cache else CacheBefore(step(cache, xs[i]).1, xs, step, i + 1, m)
  }

  /** One data item of `enrich`: its resources rewritten, the cache handed on. */
  function EnrichItem(locale: string, service: Query -> Reply): (Cache, SM.SearchResponseData) -> (SM.SearchResponseData, Cache)
  {
    (cache: Cache, item: SM.SearchResponseData) =>
      var (res, c) := EnrichResourcesFrom(cache, item.resources, locale, service, 0);
      (item.(resources := res), c)
  }

  /** `enrich` on a given cache: the rewritten response and the cache it leaves. */
  function EnrichOutcome(cache: Cache, response: SM.SearchResponse, locale: string,
                         service: Query -> Reply): (SM.SearchResponse, Cache)
  {
    var (data, c) := ThreadFrom(cache, response.data, EnrichItem(locale, service), 0);
    (response.(data := data), c)
  }

  ghost predicate ResourcesValid(res: SM.Resources) {
    res.carriers.Valid() && res.cabinClasses.Valid() && res.locations.Valid() && res.equipments.Valid()
  }

  /** Every carrier and location code of `res` has a cache entry. */
  predicate RoutedCached(cache: Cache, res: SM.Resources, locale: string) {
    && (forall x :: x in res.carriers.keys ==> CacheKey(SM.Carriers, locale, x) in cache)
    && (forall x :: x in res.locations.keys ==> CacheKey(SM.Locations, locale, x) in cache)
  }

  /** Every carrier and location code of `res` maps to its cache entry. */
  predicate Resolved(cache: Cache, res: SM.Resources, locale: string) {
    && (forall x :: x in res.carriers.keys ==>
          && x in res.carriers.values && CacheKey(SM.Carriers, locale, x) in cache
          && res.carriers.values[x] == cache[CacheKey(SM.Carriers, locale, x)])
    && (forall x :: x in res.locations.keys ==>
          && x in res.locations.values && CacheKey(SM.Locations, locale, x) in cache
          && res.locations.values[x] == cache[CacheKey(SM.Locations, locale, x)])
  }

  /** The enriched record has the same codes, in the same order, and the
      categories without a route are left as they were. */
  predicate Rewritten(before: SM.Resources, after: SM.Resources) {
    && after.carriers.keys == before.carriers.keys
    && after.locations.keys == before.locations.keys
    && after.cabinClasses == before.cabinClasses
    && after.equipments == before.equipments
  }

  /** Resolving codes never removes a cache entry. */
  lemma {:induction false} CodesGrow(cache: Cache, d: SM.Dict, clazz: SM.ResourceClass, locale: string,
                                     codes: seq<string>, service: Query -> Reply, k: nat)
    requires k <= |codes|
    ensures cache.Keys <= EnrichCodesFrom(cache, d, clazz, locale, codes, service, k).1.Keys
    decreases |codes| - k
  {
    if k < |codes| {
      var (v, c) := GetOutcome(cache, clazz, locale, codes[k], service);
      CodesGrow(c, d.Put(codes[k], v), clazz, locale, codes, service, k + 1);
    }
  }

  /** Enriching one category never removes a cache entry. */
  lemma CategoryGrows(cache: Cache, d: SM.Dict, clazz: SM.ResourceClass, locale: string, service: Query -> Reply)
    ensures cache.Keys <= EnrichCategory(cache, d, clazz, locale, service).1.Keys
  {
    if RouteOf(clazz).Some? {
      var fetchCodes := FilterCodes(cache, clazz, locale, Many(d.keys));
      var c := FetchOutcome(cache, clazz, locale, Many(fetchCodes), service).1;
      CodesGrow(c, d, clazz, locale, d.keys, service, 0);
    }
  }

  /** Resolving codes keeps the dictionary's keys; every code ends up cached. */
  lemma {:induction false} CodesCold(cache: Cache, d: SM.Dict, clazz: SM.ResourceClass, locale: string,
                                     codes: seq<string>, service: Query -> Reply, k: nat)
    requires k <= |codes|
    requires forall m :: k <= m < |codes| ==> codes[m] in d.values
    ensures var (d', c') := EnrichCodesFrom(cache, d, clazz, locale, codes, service, k);
            && d'.keys == d.keys
            && d'.values.Keys == d.values.Keys
            && cache.Keys <= c'.Keys
            && (forall m :: k <= m < |codes| ==> CacheKey(clazz, locale, codes[m]) in c')
    decreases |codes| - k
  {
    if k < |codes| {
      var (v, c) := GetOutcome(cache, clazz, locale, codes[k], service);
      CodesCold(c, d.Put(codes[k], v), clazz, locale, codes, service, k + 1);
    }
  }

  /** With every code cached, resolving codes reads the cache only. */
  lemma {:induction false} CodesWarm(cache: Cache, d: SM.Dict, clazz: SM.ResourceClass, locale: string,
                                     codes: seq<string>, service: Query -> Reply, k: nat)
    requires k <= |codes|
    requires forall m :: k <= m < |codes| ==> codes[m] in d.values && CacheKey(clazz, locale, codes[m]) in cache
    ensures var (d', c') := EnrichCodesFrom(cache, d, clazz, locale, codes, service, k);
            && c' == cache
            && d'.keys == d.keys
            && d'.values.Keys == d.values.Keys
            && (forall m :: k <= m < |codes| ==> d'.values[codes[m]] == cache[CacheKey(clazz, locale, codes[m])])
            && (forall x :: x in d.values && (forall m :: k <= m < |codes| ==> codes[m] != x) ==> d'.values[x] == d.values[x])
    decreases |codes| - k
  {
    if k < |codes| {
      var (v, c) := GetOutcome(cache, clazz, locale, codes[k], service);
      var d1 := d.Put(codes[k], v);
      CodesWarm(c, d1, clazz, locale, codes, service, k + 1);
      var d' := EnrichCodesFrom(cache, d, clazz, locale, codes, service, k).0;
      if forall m :: k + 1 <= m < |codes| ==> codes[m] != codes[k] {
        assert d'.values[codes[k]] == d1.values[codes[k]];
      }
    }
  }

  /** One category: without a route nothing happens; with one, its codes keep
      their order and every code ends up cached. */
  lemma CategoryCold(cache: Cache, d: SM.Dict, clazz: SM.ResourceClass, locale: string, service: Query -> Reply)
    requires d.Valid()
    ensures var (d', c') := EnrichCategory(cache, d, clazz, locale, service);
            && d'.keys == d.keys
            && d'.Valid()
            && cache.Keys <= c'.Keys
            && (RouteOf(clazz).None? ==> d' == d && c' == cache)
            && (RouteOf(clazz).Some? ==> forall x :: x in d.keys ==> CacheKey(clazz, locale, x) in c')
  {
    if RouteOf(clazz).Some? {
      var fetchCodes := FilterCodes(cache, clazz, locale, Many(d.keys));
      var c := FetchOutcome(cache, clazz, locale, Many(fetchCodes), service).1;
      CodesCold(c, d, clazz, locale, d.keys, service, 0);
    }
  }

  /** One category whose codes are all cached: no fetch, no cache change, and
      every code maps to its cache entry. */
  lemma CategoryWarm(cache: Cache, d: SM.Dict, clazz: SM.ResourceClass, locale: string, service: Query -> Reply)
    requires d.Valid()
    requires RouteOf(clazz).Some? ==> forall x :: x in d.keys ==> CacheKey(clazz, locale, x) in cache
    ensures var (d', c') := EnrichCategory(cache, d, clazz, locale, service);
            && c' == cache
            && d'.keys == d.keys
            && d'.Valid()
            && (RouteOf(clazz).None? ==> d' == d)
            && (RouteOf(clazz).Some? ==> forall x :: x in d.keys ==>
                  x in d'.values && d'.values[x] == cache[CacheKey(clazz, locale, x)])
  {
    if RouteOf(clazz).Some? {
      var fetchCodes := FilterCodes(cache, clazz, locale, Many(d.keys));
      assert fetchCodes == [];
      CodesWarm(cache, d, clazz, locale, d.keys, service, 0);
    }
  }

  /** Resolving one resources record, category by category. */
  lemma ResourcesSteps(cache: Cache, res: SM.Resources, locale: string, service: Query -> Reply)
    ensures var (d0, c0) := EnrichCategory(cache, res.carriers, SM.Carriers, locale, service);
            var (d2, c2) := EnrichCategory(c0, res.locations, SM.Locations, locale, service);
            EnrichResourcesFrom(cache, res, locale, service, 0) == (res.(carriers := d0, locations := d2), c2)
  {
    var (d0, c0) := EnrichCategory(cache, res.carriers, SM.Carriers, locale, service);
    var r1 := res.(carriers := d0);
    assert EnrichResourcesFrom(cache, res, locale, service, 0) == EnrichResourcesFrom(c0, r1, locale, service, 1);
    assert EnrichResourcesFrom(c0, r1, locale, service, 1) == EnrichResourcesFrom(c0, r1, locale, service, 2);
    var (d2, c2) := EnrichCategory(c0, r1.locations, SM.Locations, locale, service);
    var r3 := r1.(locations := d2);
    assert EnrichResourcesFrom(c0, r1, locale, service, 2) == EnrichResourcesFrom(c2, r3, locale, service, 3);
    assert EnrichResourcesFrom(c2, r3, locale, service, 3) == (r3, c2);
  }

  lemma ResourcesCold(cache: Cache, res: SM.Resources, locale: string, service: Query -> Reply)
    requires ResourcesValid(res)
    ensures var (res', c') := EnrichResourcesFrom(cache, res, locale, service, 0);
            && Rewritten(res, res')
            && ResourcesValid(res')
            && cache.Keys <= c'.Keys
            && RoutedCached(c', res', locale)
  {
    ResourcesSteps(cache, res, locale, service);
    var (d0, c0) := EnrichCategory(cache, res.carriers, SM.Carriers, locale, service);
    CategoryCold(cache, res.carriers, SM.Carriers, locale, service);
    CategoryCold(c0, res.locations, SM.Locations, locale, service);
  }

  lemma ResourcesWarm(cache: Cache, res: SM.Resources, locale: string, service: Query -> Reply)
    requires ResourcesValid(res) && RoutedCached(cache, res, locale)
    ensures var (res', c') := EnrichResourcesFrom(cache, res, locale, service, 0);
            && c' == cache
            && Rewritten(res, res')
            && ResourcesValid(res')
            && Resolved(cache, res', locale)
  {
    ResourcesSteps(cache, res, locale, service);
    CategoryWarm(cache, res.carriers, SM.Carriers, locale, service);
    CategoryWarm(cache, res.locations, SM.Locations, locale, service);
  }

  /** Enriching one resources record never removes a cache entry. */
  lemma ResourcesGrow(cache: Cache, res: SM.Resources, locale: string, service: Query -> Reply)
    ensures cache.Keys <= EnrichResourcesFrom(cache, res, locale, service, 0).1.Keys
  {
    ResourcesSteps(cache, res, locale, service);
    var (d0, c0) := EnrichCategory(cache, res.carriers, SM.Carriers, locale, service);
    CategoryGrows(cache, res.carriers, SM.Carriers, locale, service);
    CategoryGrows(c0, res.locations, SM.Locations, locale, service);
  }

  lemma RoutedCachedGrows(c: Cache, c': Cache, res: SM.Resources, locale: string)
    requires c.Keys <= c'.Keys && RoutedCached(c, res, locale)
    ensures RoutedCached(c', res, locale)
  {
  }

  /** One data item after a cold enrichment: only its resources changed,
      rewritten, still valid and with every routed code cached. */
  ghost predicate EnrichedCold(before: SM.SearchResponseData, after: SM.SearchResponseData, c: Cache, locale: string) {
    && after == before.(resources := after.resources)
    && Rewritten(before.resources, after.resources)
    && ResourcesValid(after.resources)
    && RoutedCached(c, after.resources, locale)
  }

  /** One data item after a warm enrichment: only its resources changed,
      rewritten, and every routed code resolved from the cache. */
  predicate EnrichedWarm(before: SM.SearchResponseData, after: SM.SearchResponseData, c: Cache, locale: string) {
    && after == before.(resources := after.resources)
    && Rewritten(before.resources, after.resources)
    && Resolved(c, after.resources, locale)
  }

  /** Threading keeps the number of items and leaves those before `i` alone. */
  lemma {:induction false} ThreadFrame<A>(cache: Cache, xs: seq<A>, step: (Cache, A) -> (A, Cache), i: nat, m: nat)
    requires i <= |xs|
    ensures |ThreadFrom(cache, xs, step, i).0| == |xs|
    ensures m < i ==> ThreadFrom(cache, xs, step, i).0[m] == xs[m]
    decreases |xs| - i
  {
    if i < |xs| {
      var (x, c) := step(cache, xs[i]);
      ThreadFrame(c, xs[i := x], step, i + 1, m);
    }
  }

  /** The cache handed to item `m` does not depend on the items before `i`. */
  lemma {:induction false} CacheBeforeUpdate<A>(cache: Cache, xs: seq<A>, step: (Cache, A) -> (A, Cache),
                                                i: nat, m: nat, k: nat, x: A)
    requires k < i <= m <= |xs|
    ensures CacheBefore(cache, xs[k := x], step, i, m) == CacheBefore(cache, xs, step, i, m)
    decreases m - i
  {
    if i < m {
      assert xs[k := x][i] == xs[i];
      CacheBeforeUpdate(step(cache, xs[i]).1, xs, step, i + 1, m, k, x);
    }
  }

  /** Item `m` from `i` on is `step` applied to it and to the cache handed to it. */
  lemma {:induction false} ThreadAt<A>(cache: Cache, xs: seq<A>, step: (Cache, A) -> (A, Cache), i: nat, m: nat)
    requires i <= m < |xs|
    ensures |ThreadFrom(cache, xs, step, i).0| == |xs|
    ensures ThreadFrom(cache, xs, step, i).0[m] == step(CacheBefore(cache, xs, step, i, m), xs[m]).0
    decreases m - i
  {
    var (x, c) := step(cache, xs[i]);
    ThreadFrame(c, xs[i := x], step, i + 1, m);
    if i < m {
      ThreadAt(c, xs[i := x], step, i + 1, m);
      CacheBeforeUpdate(c, xs, step, i + 1, m, i, x);
    }
  }

  /** When no step removes a cache entry, the cache handed to any item is
      contained in the final one. */
  lemma {:induction false} ThreadGrows<A>(cache: Cache, xs: seq<A>, step: (Cache, A) -> (A, Cache), i: nat, m: nat)
    requires i <= m <= |xs|
    requires forall c: Cache, x: A :: c.Keys <= step(c, x).1.Keys
    ensures CacheBefore(cache, xs, step, i, m).Keys <= ThreadFrom(cache, xs, step, i).1.Keys
    decreases |xs| - i
  {
    if i < |xs| {
      var (x, c) := step(cache, xs[i]);
      if i < m {
        ThreadGrows(c, xs[i := x], step, i + 1, m);
        CacheBeforeUpdate(c, xs, step, i + 1, m, i, x);
      } else {
        ThreadGrows(c, xs[i := x], step, i + 1, i + 1);
      }
    }
  }

  /** When no step changes the cache, it is handed unchanged to every item and
      comes out unchanged. */
  lemma {:induction false} ThreadKeeps<A>(cache: Cache, xs: seq<A>, step: (Cache, A) -> (A, Cache), i: nat, m: nat)
    requires i <= m <= |xs|
    requires forall n :: i <= n < |xs| ==> step(cache, xs[n]).1 == cache
    ensures CacheBefore(cache, xs, step, i, m) == cache
    ensures ThreadFrom(cache, xs, step, i).1 == cache
    decreases |xs| - i
  {
    if i < |xs| {
      var x := step(cache, xs[i]).0;
      assert forall n :: i + 1 <= n < |xs| ==> xs[i := x][n] == xs[n];
      if i < m {
        ThreadKeeps(cache, xs[i := x], step, i + 1, m);
        CacheBeforeUpdate(cache, xs, step, i + 1, m, i, x);
      } else {
        ThreadKeeps(cache, xs[i := x], step, i + 1, i + 1);
      }
    }
  }

  /** Enriching one data item never removes a cache entry. */
  lemma EnrichItemGrows(locale: string, service: Query -> Reply)
    ensures forall c: Cache, x: SM.SearchResponseData :: c.Keys <= EnrichItem(locale, service)(c, x).1.Keys
  {
    forall c: Cache, x: SM.SearchResponseData {
      ResourcesGrow(c, x.resources, locale, service);
    }
  }

  /** Cold enrichment of `data`, item `m`: only its resources change, their
      codes keep their order, cabin classes and equipment are untouched and
      every carrier and location code ends up cached. */
  lemma DataColdAt(cache: Cache, data: seq<SM.SearchResponseData>, locale: string, service: Query -> Reply, m: nat)
    requires m < |data| && ResourcesValid(data[m].resources)
    ensures var (data', c') := ThreadFrom(cache, data, EnrichItem(locale, service), 0);
            |data'| == |data| && EnrichedCold(data[m], data'[m], c', locale)
  {
    var step := EnrichItem(locale, service);
    var cm := CacheBefore(cache, data, step, 0, m);
    ThreadAt(cache, data, step, 0, m);
    ResourcesCold(cm, data[m].resources, locale, service);
    var (res, c) := EnrichResourcesFrom(cm, data[m].resources, locale, service, 0);
    assert CacheBefore(cm, data, step, m, m + 1) == c;
    EnrichItemGrows(locale, service);
    ThreadGrows(cache, data, step, 0, m + 1);
    CacheBeforeSplit(cache, data, step, 0, m, m + 1);
    RoutedCachedGrows(c, ThreadFrom(cache, data, step, 0).1, res, locale);
  }

  /** The cache handed to item `n` can be reached through item `m` first. */
  lemma {:induction false} CacheBeforeSplit<A>(cache: Cache, xs: seq<A>, step: (Cache, A) -> (A, Cache), i: nat, m: nat, n: nat)
    requires i <= m <= n <= |xs|
    ensures CacheBefore(cache, xs, step, i, n) == CacheBefore(CacheBefore(cache, xs, step, i, m), xs, step, m, n)
    decreases m - i
  {
    if i < m {
      CacheBeforeSplit(step(cache, xs[i]).1, xs, step, i + 1, m, n);
    }
  }

  /** Warm enrichment of `data` whose codes are all cached, item `m`: only its
      resources change, and every carrier and location code maps to its
      cache entry. */
  lemma DataWarmAt(cache: Cache, data: seq<SM.SearchResponseData>, locale: string, service: Query -> Reply, m: nat)
    requires m < |data|
    requires forall n :: 0 <= n < |data| ==>
               ResourcesValid(data[n].resources) && RoutedCached(cache, data[n].resources, locale)
    ensures var (data', c') := ThreadFrom(cache, data, EnrichItem(locale, service), 0);
            && |data'| == |data|
            && c' == cache
            && EnrichedWarm(data[m], data'[m], cache, locale)
  {
    var step := EnrichItem(locale, service);
    DataWarmSteps(cache, data, locale, service);
    ThreadKeeps(cache, data, step, 0, m);
    ThreadAt(cache, data, step, 0, m);
    ResourcesWarm(cache, data[m].resources, locale, service);
  }

  /** With every code of every item cached, no item's enrichment changes the cache. */
  lemma DataWarmSteps(cache: Cache, data: seq<SM.SearchResponseData>, locale: string, service: Query -> Reply)
    requires forall n :: 0 <= n < |data| ==>
               ResourcesValid(data[n].resources) && RoutedCached(cache, data[n].resources, locale)
    ensures forall n :: 0 <= n < |data| ==> EnrichItem(locale, service)(cache, data[n]).1 == cache
  {
    forall n | 0 <= n < |data| {
      ResourcesWarm(cache, data[n].resources, locale, service);
    }
  }

  /** `enrich` rewrites only the resources of each data item: the error and
      every other field are kept, the codes of each category keep their order,
      cabin classes and equipment (no route) are untouched, the cache only
      grows, and afterwards every carrier and location code is cached. */
  lemma EnrichShape(cache: Cache, response: SM.SearchResponse, locale: string, service: Query -> Reply)
    requires forall m :: 0 <= m < |response.data| ==> ResourcesValid(response.data[m].resources)
    ensures var (r, c) := EnrichOutcome(cache, response, locale, service);
            && r.error == response.error
            && |r.data| == |response.data|
            && cache.Keys <= c.Keys
            && (forall m :: 0 <= m < |r.data| ==> EnrichedCold(response.data[m], r.data[m], c, locale))
  {
    var step := EnrichItem(locale, service);
    ThreadFrame(cache, response.data, step, 0, 0);
    EnrichItemGrows(locale, service);
    ThreadGrows(cache, response.data, step, 0, 0);
    forall m | 0 <= m < |response.data| {
      DataColdAt(cache, response.data, locale, service, m);
    }
  }

  /** Once a response is enriched, enriching it again is served from the cache
      alone: whatever the service would answer, no entry changes and every
      carrier and location code maps to its cached descriptor. */
  lemma EnrichTwice(cache: Cache, response: SM.SearchResponse, locale: string,
                    service: Query -> Reply, later: Query -> Reply)
    requires forall m :: 0 <= m < |response.data| ==> ResourcesValid(response.data[m].resources)
    ensures var (r, c) := EnrichOutcome(cache, response, locale, service);
            var (r2, c2) := EnrichOutcome(c, r, locale, later);
            && c2 == c
            && r2.error == r.error
            && |r2.data| == |r.data|
            && (forall m :: 0 <= m < |r2.data| ==> EnrichedWarm(r.data[m], r2.data[m], c, locale))
  {
    EnrichShape(cache, response, locale, service);
    var (r, c) := EnrichOutcome(cache, response, locale, service);
    ThreadFrame(c, r.data, EnrichItem(locale, later), 0, 0);
    forall m | 0 <= m < |r.data| {
      DataWarmAt(c, r.data, locale, later, m);
    }
  }

  // ---------------------------------------------------------------------
  // The manager
  // ---------------------------------------------------------------------

  class ResourceManager {
    var cache: Cache

    constructor()
      ensures cache == map[]
    {
      cache := map[];
    }

    method Fetch(clazz: SM.ResourceClass, locale: string, code: CodeArg, service: Query -> Reply)
      returns (r: Option<SM.Descriptor>)
      modifies this
      ensures (r, cache) == FetchOutcome(old(cache), clazz, locale, code, service)
    {
      if Falsy(code) {
        return None;
      }
      var reply := service(QueryFor(clazz, code));
      if reply.TransportError? {
        return None;
      }
      var items := reply.items;
      var key := CacheKey(clazz, locale, "");
      var i := 0;
      while i < |items|
        invariant 0 <= i <= |items|
        invariant Store(cache, clazz, locale, Decoded(items[i..])) == Store(old(cache), clazz, locale, Decoded(items))
        invariant i > 0 ==> key in cache && cache[key] == items[i - 1] && items[0].Some?
      {
        if items[i].None? {
          assert Decoded(items[i..]) == [];
          return None;
        }
        assert items[i..][1..] == items[i + 1..];
        assert Decoded(items[i..]) == [items[i].value] + Decoded(items[i + 1..]);
        key := CacheKey(clazz, locale, items[i].value.code);
        cache := cache[key := items[i]];
        i := i + 1;
      }
      assert Decoded(items[i..]) == [];
      if |items| == 1 {
        r := cache[key];
      } else {
        r := None;
      }
    }

    method Get(clazz: SM.ResourceClass, locale: string, code: string, service: Query -> Reply)
      returns (r: Option<SM.Descriptor>)
      modifies this
      ensures (r, cache) == GetOutcome(old(cache), clazz, locale, code, service)
    {
      var key := CacheKey(clazz, locale, code);
      if key in cache {
        return cache[key];
      }
      r := Fetch(clazz, locale, One(code), service);
      cache := cache[key := r];
    }

    /** The inner loop of `enrich`: `resources[code] = self.get(clazz, locale, code)`
        for every code of the dictionary, in key order. */
    method EnrichCodes(d: SM.Dict, clazz: SM.ResourceClass, locale: string, service: Query -> Reply)
      returns (r: SM.Dict)
      modifies this
      ensures (r, cache) == EnrichCodesFrom(old(cache), d, clazz, locale, d.keys, service, 0)
    {
      r := d;
      var codes := d.keys;
      for k := 0 to |codes|
        invariant EnrichCodesFrom(cache, r, clazz, locale, codes, service, k)
               == EnrichCodesFrom(old(cache), d, clazz, locale, codes, service, 0)
      {
        var v := Get(clazz, locale, codes[k], service);
        r := r.Put(codes[k], v);
      }
    }

    /** The categories of one resources record; those without a route are skipped. */
    method EnrichResources(res: SM.Resources, locale: string, service: Query -> Reply)
      returns (r: SM.Resources)
      modifies this
      ensures (r, cache) == EnrichResourcesFrom(old(cache), res, locale, service, 0)
    {
      r := res;
      for j := 0 to |Categories|
        invariant EnrichResourcesFrom(cache, r, locale, service, j)
               == EnrichResourcesFrom(old(cache), res, locale, service, 0)
      {
        var clazz := Categories[j];
        if RouteOf(clazz).Some? {
          var d := SM.Category(r, clazz);
          var fetchCodes := FilterCodes(cache, clazz, locale, Many(d.keys));
          var fetched := Fetch(clazz, locale, Many(fetchCodes), service);
          d := EnrichCodes(d, clazz, locale, service);
          r := SM.WithCategory(r, clazz, d);
        }
      }
    }

    /** `enrich`: resolves the resource codes of every data item of the response. */
    method Enrich(response: SM.SearchResponse, locale: string, service: Query -> Reply)
      returns (r: SM.SearchResponse)
      modifies this
      ensures (r, cache) == EnrichOutcome(old(cache), response, locale, service)
    {
      var data := response.data;
      for i := 0 to |data|
        invariant |data| == |response.data|
        invariant ThreadFrom(cache, data, EnrichItem(locale, service), i)
               == ThreadFrom(old(cache), response.data, EnrichItem(locale, service), 0)
      {
        var res := EnrichResources(data[i].resources, locale, service);
        data := data[i := data[i].(resources := res)];
      }
      r := response.(data := data);
    }
  }
}
