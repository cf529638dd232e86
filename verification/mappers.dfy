/**
 * The schema mapper between the internal search records and the upstream
 * service's records: `to_seeya` for requests, `from_seeya` for responses.
 * Every registration builds new records; nothing is updated in place.
 */
module Mappers {
  import opened Wrappers
  import SM = SearchModels
  import SY = SeeyaModels

  // ---------------------------------------------------------------------
  // Requests: internal -> upstream
  // ---------------------------------------------------------------------

  /** `str.replace(a, b)` for single characters: every `a` becomes `b`. */
  function ReplaceChar(s: string, a: char, b: char): (r: string)
    ensures |r| == |s|
    ensures forall i :: 0 <= i < |s| ==> r[i] == (if s[i] == a then b else s[i])
  {
    if s == [] then [] else [if s[0] == a then b else s[0]] + ReplaceChar(s[1..], a, b)
  }

  /** `datetime.replace('T', ' ')` */
  function ReplaceT(s: string): (r: string)
    ensures |r| == |s|
    ensures forall i :: 0 <= i < |s| ==> r[i] == (if s[i] == 'T' then ' ' else s[i])
  {
    ReplaceChar(s, 'T', ' ')
  }

  /** No `T` survives the rewrite, and a date-time without spaces is
      recovered from its rewritten form. */
  lemma ReplaceTInverse(s: string)
    ensures 'T' !in ReplaceT(s)
    ensures ' ' !in s ==> ReplaceChar(ReplaceT(s), ' ', 'T') == s
  {
    if ' ' !in s {
      var back := ReplaceChar(ReplaceT(s), ' ', 'T');
      assert forall i :: 0 <= i < |s| ==> back[i] == s[i];
    }
  }

  /** A date and a time joined by `T` come out joined by a space. */
  lemma ReplaceTDateTime(date: string, time: string)
    requires 'T' !in date && 'T' !in time
    ensures ReplaceT(date + "T" + time) == date + " " + time
  {
    var s, r := date + "T" + time, date + " " + time;
    forall i | 0 <= i < |s| ensures ReplaceT(s)[i] == r[i] {
      if i < |date| {
        assert s[i] == date[i] && r[i] == date[i];
      } else if i > |date| {
        assert s[i] == time[i - |date| - 1] && r[i] == time[i - |date| - 1];
      }
    }
  }

  /** `to_seeya(RouteRequest)` */
  function ToSeeyaLeg(route: SM.RouteRequest): (leg: SY.SeeyaLeg)
    ensures leg.dep == route.departure && leg.arr == route.arrival
    ensures |leg.date| == |route.datetime| && 'T' !in leg.date
    ensures leg.date == ReplaceT(route.datetime)
    ensures leg.excludedCarriers == SY.NoExcludedCarriers
    ensures leg.depRadius == map[] && leg.arrRadius == map[] && leg.forceIncludedCarriers == []
  {
    ReplaceTInverse(route.datetime);
    SY.NewSeeyaLeg(route.departure, route.arrival, ReplaceT(route.datetime), SY.NoExcludedCarriers)
  }

  /** The enum name of an internal passenger type. */
  function PassengerTypeName(t: SM.PassengerType): string {
    match t
    case ADT => "ADT"
    case CHD => "CHD"
    case INF => "INF"
  }

  /** The internal passenger type with the given enum name. */
  function PassengerTypeNamed(name: string): Option<SM.PassengerType> {
    if name == "ADT" then Some(SM.ADT)
    else if name == "CHD" then Some(SM.CHD)
    else if name == "INF" then Some(SM.INF)
    else None
  }

  /** Distinct passenger types keep distinct names: the name identifies the type. */
  lemma PassengerTypeNameInverse(t: SM.PassengerType)
    ensures PassengerTypeNamed(PassengerTypeName(t)) == Some(t)
  {
  }

  /** `to_seeya(PassengerRequest)` */
  function ToSeeyaPassenger(p: SM.PassengerRequest): (r: SY.SeeyaPassenger)
    ensures r.count == p.count
    ensures PassengerTypeNamed(r.passengerType) == Some(p.passengerType)
  {
    SY.SeeyaPassenger(p.count, PassengerTypeName(p.passengerType))
  }

  /** `to_seeya(list)` over the routes. */
  function ToSeeyaLegs(routes: seq<SM.RouteRequest>): (r: seq<SY.SeeyaLeg>)
    ensures |r| == |routes|
    ensures forall i :: 0 <= i < |routes| ==> r[i] == ToSeeyaLeg(routes[i])
  {
    seq(|routes|, i requires 0 <= i < |routes| => ToSeeyaLeg(routes[i]))
  }

  /** `to_seeya(list)` over the passengers. */
  function ToSeeyaPassengers(passengers: seq<SM.PassengerRequest>): (r: seq<SY.SeeyaPassenger>)
    ensures |r| == |passengers|
    ensures forall i :: 0 <= i < |passengers| ==> r[i] == ToSeeyaPassenger(passengers[i])
  {
    seq(|passengers|, i requires 0 <= i < |passengers| => ToSeeyaPassenger(passengers[i]))
  }

  /** The search query built from a search request. */
  function ToSeeyaQuery(req: SM.SearchRequest): (q: SY.SeeyaSearchQuery)
    ensures q.direct == req.directRoutes && q.preferredCarrier == req.carrier
    ensures q.currency == req.currency && q.recommendedCabinClass == req.cabinClass
    ensures |q.legs| == |req.routes| && forall i :: 0 <= i < |req.routes| ==> q.legs[i] == ToSeeyaLeg(req.routes[i])
    ensures |q.passengers| == |req.passengers| &&
            forall i :: 0 <= i < |req.passengers| ==> q.passengers[i] == ToSeeyaPassenger(req.passengers[i])
    ensures q.pccs == [] && q.maxRecommendations == 200
  {
    SY.NewSeeyaSearchQuery(req.directRoutes, req.carrier, req.currency, req.cabinClass,
                           ToSeeyaLegs(req.routes), ToSeeyaPassengers(req.passengers))
  }

  /** `to_seeya(SearchRequest)`: a fresh upstream request with no transaction
      id, no pcc and no method; `flexibleDates` is not sent. */
  method ToSeeyaRequest(req: SM.SearchRequest) returns (r: SY.SeeyaSearchRequest)
    ensures fresh(r)
    ensures r.searchQuery == Some(ToSeeyaQuery(req))
    ensures r.metadata == Some(SY.SeeyaMetadata(req.market, req.locale))
    ensures r.transactionId == "" && r.pcc == None && r.methodName == None
    ensures r.Provider() == Success(None)
  {
    r := new SY.SeeyaSearchRequest(Some(SY.SeeyaMetadata(req.market, req.locale)), None, None, None, Some(ToSeeyaQuery(req)));
  }

  // ---------------------------------------------------------------------
  // Responses: upstream -> internal
  // ---------------------------------------------------------------------

  datatype MappingError =
    | UnknownSegment(ref: string)   // a reference missing from the shared segments
    | UnknownFareData(ref: string)  // a reference missing from the adult fare data
    | NoAdultFares                  // a recommendation without an `adults` price
    | NoResult                      // neither an error nor a result

  /** `from_seeya(SeeyaSegmentPoint)` */
  function MapSegmentPoint(p: SY.SeeyaSegmentPoint): (r: SM.Point)
    ensures r.location == p.airport && r.datetime == p.datetime
  {
    SM.Point(p.airport, p.datetime)
  }

  /** `from_seeya(SeeyaTechnicalStop)`: both points are at the stop's destination. */
  function MapTechnicalStop(t: SY.SeeyaTechnicalStop): (r: SM.TechnicalStop)
    ensures r.arrival.location == t.destination && r.departure.location == t.destination
    ensures r.arrival.datetime == t.arrDatetime && r.departure.datetime == t.depDatetime
    ensures r.duration == t.duration
  {
    SM.TechnicalStop(t.duration, SM.Point(t.destination, t.arrDatetime), SM.Point(t.destination, t.depDatetime))
  }

  function MapTechnicalStops(stops: seq<SY.SeeyaTechnicalStop>): (r: seq<SM.TechnicalStop>)
    ensures |r| == |stops|
    ensures forall i :: 0 <= i < |stops| ==> r[i] == MapTechnicalStop(stops[i])
  {
    seq(|stops|, i requires 0 <= i < |stops| => MapTechnicalStop(stops[i]))
  }

  /** `from_seeya(SeeyaSegment)`: always a flight, never with services. */
  function MapSegment(s: SY.SeeyaSegment): (r: SM.Segment)
    ensures r.transport.kind == "flights" && r.services == None
    ensures r.transport.number == s.flightNumber && r.transport.equipment == s.flightEquipment
    ensures r.transport.carriers == SM.Carrier(s.marketingCarrier, s.operatingCarrier)
    ensures r.duration == s.elapsedFlyingTime
    ensures r.route.departure == MapSegmentPoint(s.dep) && r.route.arrival == MapSegmentPoint(s.arr)
    ensures r.route.technicalStop == MapTechnicalStops(s.technicalStop)
  {
    var transport := SM.Transport("flights", s.flightNumber, s.flightEquipment, SM.Carrier(s.marketingCarrier, s.operatingCarrier));
    var route := SM.Route(MapSegmentPoint(s.dep), MapSegmentPoint(s.arr), MapTechnicalStops(s.technicalStop));
    SM.Segment(transport, route, s.elapsedFlyingTime, None)
  }

  /** `from_seeya(dict)` over the shared segments: each is mapped once, under its own key. */
  function MapSegments(group: map<string, SY.SeeyaSegment>): (r: map<string, SM.Segment>)
    ensures r.Keys == group.Keys
    ensures forall k :: k in group ==> r[k] == MapSegment(group[k])
  {
    map k | k in group :: MapSegment(group[k])
  }

  /** `from_seeya(SeeyaPassengerType)`: the enum name. */
  function SeeyaPassengerTypeName(t: SY.SeeyaPassengerType): string {
    match t
    case adults => "adults"
    case children => "children"
    case infants => "infants"
  }

  /** `from_seeya(SeeyaPricePerPaxType)`: the count is always 0. */
  function MapPrice(p: SY.SeeyaPricePerPaxType): (r: SM.Passenger)
    ensures r.count == 0
    ensures r.price.total == p.totalPrice.amount && r.price.currency == p.totalPrice.currency
    ensures r.price.tax == p.taxes.amount && r.price.faceValue == p.baseFare.amount
  {
    SM.Passenger(0, SM.Price(p.totalPrice.currency, p.baseFare.amount, p.taxes.amount, p.totalPrice.amount))
  }

  /** `from_seeya(dict)` over the prices: keys become type names, values passengers. */
  function MapPassengers(prices: map<SY.SeeyaPassengerType, SY.SeeyaPricePerPaxType>): (r: map<string, SM.Passenger>)
    ensures forall t :: t in prices <==> SeeyaPassengerTypeName(t) in r
    ensures forall t :: t in prices ==> r[SeeyaPassengerTypeName(t)] == MapPrice(prices[t])
  {
    var r := map t | t in prices :: SeeyaPassengerTypeName(t) := MapPrice(prices[t]);
    assert forall t :: t in prices ==> SeeyaPassengerTypeName(t) in r && r[SeeyaPassengerTypeName(t)] == MapPrice(prices[t]) by {
      forall t | t in prices {
        NameInjective(t);
      }
    }
    assert forall t :: SeeyaPassengerTypeName(t) in r ==> t in prices by {
      forall t | SeeyaPassengerTypeName(t) in r {
        NameInjective(t);
      }
    }
    r
  }

  /** Mapping the prices keeps their number: no two types share a name. */
  lemma PassengersCount(prices: map<SY.SeeyaPassengerType, SY.SeeyaPricePerPaxType>)
    ensures |MapPassengers(prices)| == |prices|
  {
    var r := MapPassengers(prices);
    assert r.Keys == set t | t in prices :: SeeyaPassengerTypeName(t);
    NamesCount(prices.Keys);
  }

  /** Distinct passenger types have distinct names. */
  lemma NameInjective(t: SY.SeeyaPassengerType)
    ensures forall u :: SeeyaPassengerTypeName(u) == SeeyaPassengerTypeName(t) ==> u == t
  {
  }

  lemma NamesCount(types: set<SY.SeeyaPassengerType>)
    ensures |set t | t in types :: SeeyaPassengerTypeName(t)| == |types|
  {
    if types != {} {
      var t :| t in types;
      NamesCount(types - {t});
      assert (set u | u in types :: SeeyaPassengerTypeName(u))
          == (set u | u in types - {t} :: SeeyaPassengerTypeName(u)) + {SeeyaPassengerTypeName(t)};
    }
  }

  /** A shared segment cloned with the services of its fare data. */
  function Clone(segment: SM.Segment, fare: SY.SeeyaPaxFareData): (r: SM.Segment)
    ensures r.services == Some(SM.Services(fare.cabin, fare.bookingClass))
    ensures r.(services := segment.services) == segment
  {
    segment.(services := Some(SM.Services(fare.cabin, fare.bookingClass)))
  }

  /** The error the lookup of one reference raises, if any: the segment is
      looked up first. */
  function RefError(ref: string, segments: map<string, SM.Segment>, fares: map<string, SY.SeeyaPaxFareData>): Option<MappingError> {
    if ref !in segments then Some(UnknownSegment(ref))
    else if ref !in fares then Some(UnknownFareData(ref))
    else None
  }

  /** `get_segment` over one leg's references, stopping at the first failure. */
  function MapRefs(refs: seq<string>, segments: map<string, SM.Segment>, fares: map<string, SY.SeeyaPaxFareData>): (r: Result<seq<SM.Segment>, MappingError>)
    ensures r.Success? <==> forall i :: 0 <= i < |refs| ==> RefError(refs[i], segments, fares).None?
    ensures r.Success? ==>
              && |r.value| == |refs|
              && forall i :: 0 <= i < |refs| ==>
                   refs[i] in segments && refs[i] in fares && r.value[i] == Clone(segments[refs[i]], fares[refs[i]])
    ensures r.Failure? ==>
              exists i :: 0 <= i < |refs| && RefError(refs[i], segments, fares) == Some(r.error) &&
                          forall j :: 0 <= j < i ==> RefError(refs[j], segments, fares).None?
  {
    if refs == [] then Success([])
    else match RefError(refs[0], segments, fares)
      case Some(e) => Failure(e)
      case None =>
        var rest := MapRefs(refs[1..], segments, fares);
        if rest.Failure? then
          Failure(rest.error)
        else
          Success([Clone(segments[refs[0]], fares[refs[0]])] + rest.value)
  }

  /** `from_seeya(SeeyaSegmentReferences)`: one leg per list of references,
      stopping at the first reference that cannot be resolved. */
  function MapSegmentRefs(legs: seq<seq<string>>, segments: map<string, SM.Segment>, fares: map<string, SY.SeeyaPaxFareData>): (r: Result<seq<SM.Leg>, MappingError>)
    ensures r.Success? <==> forall i, j :: 0 <= i < |legs| && 0 <= j < |legs[i]| ==> RefError(legs[i][j], segments, fares).None?
    ensures r.Success? ==>
              && |r.value| == |legs|
              && forall i :: 0 <= i < |legs| ==>
                   r.value[i].duration == None && MapRefs(legs[i], segments, fares) == Success(r.value[i].segments)
    ensures r.Failure? ==>
              exists i :: 0 <= i < |legs| && MapRefs(legs[i], segments, fares) == Failure(r.error) &&
                          forall j :: 0 <= j < i ==> MapRefs(legs[j], segments, fares).Success?
  {
    if legs == [] then Success([])
    else
      var first := MapRefs(legs[0], segments, fares);
      if first.Failure? then Failure(first.error)
      else
        var rest := MapSegmentRefs(legs[1..], segments, fares);
        if rest.Failure? then Failure(rest.error)
        else Success([SM.NewLeg(first.value)] + rest.value)
  }

  /** Every segment of a mapped leg is the shared segment of its reference
      with only the services replaced, and it carries services. */
  lemma MappedLegs(legs: seq<seq<string>>, segments: map<string, SM.Segment>, fares: map<string, SY.SeeyaPaxFareData>)
    requires MapSegmentRefs(legs, segments, fares).Success?
    ensures var out := MapSegmentRefs(legs, segments, fares).value;
      && |out| == |legs|
      && SM.LegsServiced(out)
      && forall i, j :: 0 <= i < |legs| && 0 <= j < |legs[i]| ==>
           |out[i].segments| == |legs[i]| &&
           out[i].segments[j].(services := segments[legs[i][j]].services) == segments[legs[i][j]] &&
           out[i].segments[j].services == Some(SM.Services(fares[legs[i][j]].cabin, fares[legs[i][j]].bookingClass))
  {
  }

  /** The test's references `[[aaa], [bbb, ccc]]` become two legs of one and
      two cloned segments. */
  lemma SegmentRefsExample(a: SM.Segment, fa: SY.SeeyaPaxFareData, fb: SY.SeeyaPaxFareData, fc: SY.SeeyaPaxFareData)
    ensures var segments := map["aaa" := a, "bbb" := a, "ccc" := a];
            var fares := map["aaa" := fa, "bbb" := fb, "ccc" := fc];
            var r := MapSegmentRefs([["aaa"], ["bbb", "ccc"]], segments, fares);
            r.Success? && r.value == [SM.NewLeg([Clone(a, fa)]), SM.NewLeg([Clone(a, fb), Clone(a, fc)])]
  {
    var segments := map["aaa" := a, "bbb" := a, "ccc" := a];
    var fares := map["aaa" := fa, "bbb" := fb, "ccc" := fc];
    assert RefError("aaa", segments, fares) == None;
    assert RefError("bbb", segments, fares) == None;
    assert RefError("ccc", segments, fares) == None;
    assert ["aaa"][1..] == [] && ["ccc"][1..] == [] && ["bbb", "ccc"][1..] == ["ccc"];
    var first, second := MapRefs(["aaa"], segments, fares), MapRefs(["bbb", "ccc"], segments, fares);
    assert first.Success? && first.value == [Clone(a, fa)];
    assert second.Success? && second.value == [Clone(a, fb), Clone(a, fc)];
    var legs := [["aaa"], ["bbb", "ccc"]];
    assert legs[1..] == [["bbb", "ccc"]] && legs[1..][1..] == [];
  }

  /** A reference missing from the shared segments fails the mapping rather
      than being skipped. */
  lemma MissingSegmentFails(legs: seq<seq<string>>, segments: map<string, SM.Segment>, fares: map<string, SY.SeeyaPaxFareData>, i: nat, j: nat)
    requires i < |legs| && j < |legs[i]| && legs[i][j] !in segments
    ensures MapSegmentRefs(legs, segments, fares).Failure?
  {
    assert RefError(legs[i][j], segments, fares).Some?;
  }

  /** `from_seeya(SeeyaRecommendation)`: the adult fare data resolves the
      references; the group id and resources are derived from the legs. */
  function MapRecommendation(rec: SY.SeeyaRecommendation, segments: map<string, SM.Segment>, md5: string -> string): (r: Result<SM.SearchResponseData, MappingError>)
    ensures r.Failure? <==>
              || SY.adults !in rec.pricePerPaxType
              || MapSegmentRefs(rec.segRefs.data, segments, rec.pricePerPaxType[SY.adults].fareData).Failure?
    ensures SY.adults !in rec.pricePerPaxType ==> r == Failure(NoAdultFares)
    ensures r.Success? ==>
      var legs := MapSegmentRefs(rec.segRefs.data, segments, rec.pricePerPaxType[SY.adults].fareData).value;
      && SM.LegsServiced(legs)
      && r.value.id == None
      && r.value.provider == SM.NewProvider(rec.gds, rec.deepLink)
      && r.value.provider.presentationName == rec.gds
      && r.value.legs == legs
      && r.value.passengers == MapPassengers(rec.pricePerPaxType)
      && r.value.groupId == SM.GroupId(legs, md5)
      && r.value.resources == SM.ResourcesOf(legs)
  {
    if SY.adults !in rec.pricePerPaxType then Failure(NoAdultFares)
    else
      var fares := rec.pricePerPaxType[SY.adults].fareData;
      var legs := MapSegmentRefs(rec.segRefs.data, segments, fares);
      if legs.Failure? then Failure(legs.error)
      else
        MappedLegs(rec.segRefs.data, segments, fares);
        var data := SM.NewSearchResponseData(None, SM.NewProvider(rec.gds, rec.deepLink), legs.value, MapPassengers(rec.pricePerPaxType), md5);
        if data.Failure? then (assert false; Failure(NoResult))
        else Success(data.value)
  }

  /** `from_seeya(list)`: every element mapped in order, stopping at the
      first failure (the exception raised by one element's mapping). */
  function MapList<T, U>(xs: seq<T>, f: T -> Result<U, MappingError>): (r: Result<seq<U>, MappingError>)
    ensures r.Success? ==> |r.value| == |xs|
    decreases |xs|
  {
    if xs == [] then Success([])
    else
      var first := f(xs[0]);
      if first.Failure? then Failure(first.error)
      else
        var rest := MapList(xs[1..], f);
        if rest.Failure? then Failure(rest.error)
        else Success([first.value] + rest.value)
  }

  /** Item `i` of a successful list mapping is the mapping of element `i`, in
      order; an element whose mapping fails makes the whole mapping fail. */
  lemma {:induction false} MapListAt<T, U>(xs: seq<T>, f: T -> Result<U, MappingError>, i: nat)
    requires i < |xs|
    ensures var r := MapList(xs, f);
            && (r.Success? ==> f(xs[i]) == Success(r.value[i]))
            && (f(xs[i]).Failure? ==> r.Failure?)
    decreases i
  {
    if i > 0 && f(xs[0]).Success? {
      assert xs[1..][i - 1] == xs[i];
      MapListAt(xs[1..], f, i - 1);
    }
  }

  /** A failed list mapping reports the error of the first element whose
      mapping fails: every element before it maps. */
  lemma {:induction false} MapListFailure<T, U>(xs: seq<T>, f: T -> Result<U, MappingError>)
    ensures var r := MapList(xs, f);
            r.Failure? ==> exists i :: 0 <= i < |xs| && f(xs[i]) == Failure(r.error) &&
                                       forall j :: 0 <= j < i ==> f(xs[j]).Success?
    decreases |xs|
  {
    if xs != [] && f(xs[0]).Success? {
      var r := MapList(xs, f);
      MapListFailure(xs[1..], f);
      if r.Failure? {
        var k :| 0 <= k < |xs| - 1 && f(xs[1..][k]) == Failure(r.error) &&
                 forall j :: 0 <= j < k ==> f(xs[1..][j]).Success?;
        assert xs[1..][k] == xs[k + 1];
        forall j | 0 <= j < k + 1 ensures f(xs[j]).Success? {
          if j > 0 { assert xs[1..][j - 1] == xs[j]; }
        }
      }
    }
  }

  /** `from_seeya(list)` over the recommendations, all against the same segments. */
  function MapRecommendations(recs: seq<SY.SeeyaRecommendation>, segments: map<string, SM.Segment>, md5: string -> string): (r: Result<seq<SM.SearchResponseData>, MappingError>)
    ensures r.Success? ==> |r.value| == |recs|
  {
    MapList(recs, rec => MapRecommendation(rec, segments, md5))
  }

  /** `from_seeya(SeeyaSearchResponse)`: an upstream error short-circuits the
      mapping; otherwise the shared segments are mapped once and every
      recommendation becomes one response item. */
  function MapResponse(resp: SY.SeeyaSearchResponse, md5: string -> string): (r: Result<SM.SearchResponse, MappingError>)
    ensures resp.error.Some? ==> r == Success(SM.SearchResponse([], resp.error))
    ensures resp.error.None? && resp.result.None? ==> r == Failure(NoResult)
    ensures resp.error.None? && resp.result.Some? ==>
      var segments := MapSegments(resp.result.value.groupOfSegments);
      match MapRecommendations(resp.result.value.recommendations, segments, md5)
      case Success(data) => r == Success(SM.SearchResponse(data, None))
      case Failure(e) => r == Failure(e)
  {
    if resp.error.Some? then Success(SM.SearchResponse([], resp.error))
    else if resp.result.None? then Failure(NoResult)
    else
      var segments := MapSegments(resp.result.value.groupOfSegments);
      var data := MapRecommendations(resp.result.value.recommendations, segments, md5);
      if data.Failure? then Failure(data.error) else Success(SM.SearchResponse(data.value, None))
  }

  /** With an upstream error the result payload is never looked at. */
  lemma ErrorIgnoresResult(a: SY.SeeyaSearchResponse, b: SY.SeeyaSearchResponse, md5: string -> string)
    requires a.error.Some? && a.error == b.error
    ensures MapResponse(a, md5) == MapResponse(b, md5)
    ensures MapResponse(a, md5).Success? && MapResponse(a, md5).value.data == []
  {
  }

  /** A successful mapping has one response item per recommendation, each
      with a fresh group id over legs that all carry services. */
  lemma ResponseShape(resp: SY.SeeyaSearchResponse, md5: string -> string)
    requires resp.error.None? && MapResponse(resp, md5).Success?
    ensures resp.result.Some?
    ensures var data := MapResponse(resp, md5).value.data;
      && |data| == |resp.result.value.recommendations|
      && MapResponse(resp, md5).value.error == None
      && forall i :: 0 <= i < |data| ==> SM.LegsServiced(data[i].legs) && data[i].groupId == SM.GroupId(data[i].legs, md5)
  {
    var segments := MapSegments(resp.result.value.groupOfSegments);
    var recs := resp.result.value.recommendations;
    var data := MapResponse(resp, md5).value.data;
    forall i | 0 <= i < |data| ensures SM.LegsServiced(data[i].legs) && data[i].groupId == SM.GroupId(data[i].legs, md5) {
      MapListAt(recs, rec => MapRecommendation(rec, segments, md5), i);
    }
  }
}
