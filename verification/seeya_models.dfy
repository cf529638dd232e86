/**
 * The records exchanged with the upstream flight-search service ("Seeya"):
 * the search request with its `provider` encoding inside `method`, the
 * response records, and the segment-reference lists.
 */
module SeeyaModels {
  import opened Wrappers
  import Converters

  // ---------------------------------------------------------------------
  // Request records
  // ---------------------------------------------------------------------

  datatype SeeyaExcludedCarriers = SeeyaExcludedCarriers(marketing: seq<string>, operating: seq<string>, validating: seq<string>)

  /** `SeeyaExcludedCarriers()`: every list defaults to empty. */
  const NoExcludedCarriers := SeeyaExcludedCarriers([], [], [])

  datatype SeeyaLeg = SeeyaLeg(
    dep: string,
    arr: string,
    date: string,
    excludedCarriers: SeeyaExcludedCarriers,
    depRadius: map<string, string>,
    arrRadius: map<string, string>,
    forceIncludedCarriers: seq<string>)

  /** `SeeyaLeg(dep, arr, date, excludedCarriers)` with the defaulted fields. */
  function NewSeeyaLeg(dep: string, arr: string, date: string, excludedCarriers: SeeyaExcludedCarriers): (r: SeeyaLeg)
    ensures r.dep == dep && r.arr == arr && r.date == date && r.excludedCarriers == excludedCarriers
    ensures r.depRadius == map[] && r.arrRadius == map[] && r.forceIncludedCarriers == []
  {
    SeeyaLeg(dep, arr, date, excludedCarriers, map[], map[], [])
  }

  datatype SeeyaPassenger = SeeyaPassenger(count: int, passengerType: string)

  datatype SeeyaSearchQuery = SeeyaSearchQuery(
    direct: bool,
    preferredCarrier: string,
    currency: string,
    recommendedCabinClass: string,
    legs: seq<SeeyaLeg>,
    passengers: seq<SeeyaPassenger>,
    pccs: seq<string>,
    maxRecommendations: int)

  const DefaultMaxRecommendations := 200

  /** `SeeyaSearchQuery(...)` without `pccs` and `maxRecommendations`. */
  function NewSeeyaSearchQuery(direct: bool, preferredCarrier: string, currency: string, recommendedCabinClass: string,
                               legs: seq<SeeyaLeg>, passengers: seq<SeeyaPassenger>): (r: SeeyaSearchQuery)
    ensures r.direct == direct && r.preferredCarrier == preferredCarrier && r.currency == currency
    ensures r.recommendedCabinClass == recommendedCabinClass && r.legs == legs && r.passengers == passengers
    ensures r.pccs == [] && r.maxRecommendations == 200
  {
    SeeyaSearchQuery(direct, preferredCarrier, currency, recommendedCabinClass, legs, passengers, [], DefaultMaxRecommendations)
  }

  datatype SeeyaMetadata = SeeyaMetadata(market: string, locale: string)

  // ---------------------------------------------------------------------
  // The `provider` encoding
  // ---------------------------------------------------------------------

  /** Python's `str.split(sep)`: the pieces between the separators. */
  function SplitOn(s: string, sep: char): (r: seq<string>)
    ensures |r| >= 1
    ensures forall i :: 0 <= i < |r| ==> sep !in r[i]
  {
    if s == [] then [""]
    else
      var rest := SplitOn(s[1..], sep);
      if s[0] == sep then [""] + rest else [[s[0]] + rest[0]] + rest[1..]
  }

  /** Python's `sep.join(pieces)`. */
  function JoinWith(pieces: seq<string>, sep: char): string
    requires |pieces| >= 1
  {
    if |pieces| == 1 then pieces[0] else pieces[0] + [sep] + JoinWith(pieces[1..], sep)
  }

  /** Splitting undoes joining, when no piece holds the separator. */
  lemma {:induction false} SplitJoin(pieces: seq<string>, sep: char)
    requires |pieces| >= 1
    requires forall i :: 0 <= i < |pieces| ==> sep !in pieces[i]
    ensures SplitOn(JoinWith(pieces, sep), sep) == pieces
  {
    if |pieces| == 1 {
      NoSeparatorSplit(pieces[0], sep);
    } else {
      SplitJoin(pieces[1..], sep);
      SplitPrefix(pieces[0], sep, JoinWith(pieces[1..], sep));
      assert pieces[0] + [sep] + JoinWith(pieces[1..], sep) == pieces[0] + ([sep] + JoinWith(pieces[1..], sep));
      assert [pieces[0]] + pieces[1..] == pieces;
    }
  }

  /** Joining undoes splitting. */
  lemma {:induction false} JoinSplit(s: string, sep: char)
    ensures JoinWith(SplitOn(s, sep), sep) == s
  {
    if s != [] {
      JoinSplit(s[1..], sep);
      var rest := SplitOn(s[1..], sep);
      if s[0] == sep {
        assert [""] + rest == SplitOn(s, sep);
        assert ([""] + rest)[1..] == rest;
        assert "" + [sep] + JoinWith(rest, sep) == [s[0]] + s[1..];
      } else {
        var r := SplitOn(s, sep);
        assert r[0] == [s[0]] + rest[0] && r[1..] == rest[1..];
        if |rest| == 1 {
          assert JoinWith(r, sep) == [s[0]] + rest[0];
        } else {
          assert JoinWith(r, sep) == [s[0]] + rest[0] + [sep] + JoinWith(rest[1..], sep);
          assert JoinWith(rest, sep) == rest[0] + [sep] + JoinWith(rest[1..], sep);
        }
        assert [s[0]] + s[1..] == s;
      }
    }
  }

  /** Text without the separator splits into itself. */
  lemma {:induction false} NoSeparatorSplit(s: string, sep: char)
    requires sep !in s
    ensures SplitOn(s, sep) == [s]
  {
    if s != [] {
      NoSeparatorSplit(s[1..], sep);
      assert [s[0]] + s[1..] == s;
    }
  }

  /** A prefix without the separator becomes the first piece. */
  lemma {:induction false} SplitPrefix(a: string, sep: char, b: string)
    requires sep !in a
    ensures SplitOn(a + [sep] + b, sep) == [a] + SplitOn(b, sep)
  {
    if a == [] {
      assert a + [sep] + b == [sep] + b;
      assert ([sep] + b)[1..] == b;
    } else {
      SplitPrefix(a[1..], sep, b);
      assert (a + [sep] + b)[0] == a[0];
      assert (a + [sep] + b)[1..] == a[1..] + [sep] + b;
      assert [a[0]] + a[1..] == a;
    }
  }

  /** The first piece only depends on the text before the first separator. */
  lemma {:induction false} SplitFirstPiece(x: string, sep: char, y: string)
    ensures SplitOn(x + [sep] + y, sep)[0] == SplitOn(x, sep)[0]
  {
    if x == [] {
      assert x + [sep] + y == [sep] + y;
    } else {
      SplitFirstPiece(x[1..], sep, y);
      assert (x + [sep] + y)[0] == x[0];
      assert (x + [sep] + y)[1..] == x[1..] + [sep] + y;
    }
  }

  datatype ProviderError = IndexError  // `method` holds fewer than two pieces

  /** The `provider` getter: None without a method, else the second piece. */
  function ProviderOf(methodName: Option<string>): (r: Result<Option<string>, ProviderError>)
    ensures methodName.None? ==> r == Success(None)
    ensures methodName.Some? ==> (r.Failure? <==> '.' !in methodName.value)
    ensures r.Success? && methodName.Some? ==> r.value.Some? && '.' !in r.value.value
    ensures r.Success? && methodName.Some? ==>
              |SplitOn(methodName.value, '.')| >= 2 && r == Success(Some(SplitOn(methodName.value, '.')[1]))
  {
    match methodName
    case None => Success(None)
    case Some(m) =>
      var pieces := SplitOn(m, '.');
      if |pieces| < 2 then (NoSeparatorOnePiece(m); Failure(IndexError))
      else (SeparatorTwoPieces(m); Success(Some(pieces[1])))
  }

  lemma {:induction false} NoSeparatorOnePiece(m: string)
    ensures |SplitOn(m, '.')| < 2 ==> '.' !in m
  {
    if |SplitOn(m, '.')| < 2 {
      JoinSplit(m, '.');
      assert m == SplitOn(m, '.')[0];
    }
  }

  lemma SeparatorTwoPieces(m: string)
    ensures |SplitOn(m, '.')| >= 2 ==> '.' in m
  {
    if '.' !in m {
      NoSeparatorSplit(m, '.');
    }
  }

  /** The `method` text the `provider` setter writes. */
  function MethodFor(modal: string, provider: string, action: string): string {
    JoinWith([modal, provider, action], '.')
  }

  /** Reading the provider back out of the method name gives the provider's
      text up to its first dot. */
  lemma ProviderReadBack(provider: string)
    ensures ProviderOf(Some(MethodFor(SearchModal, provider, SearchAction))) == Success(Some(SplitOn(provider, '.')[0]))
  {
    var rest := provider + ['.'] + SearchAction;
    var pieces := [SearchModal, provider, SearchAction];
    assert pieces[1..] == [provider, SearchAction] && pieces[1..][1..] == [SearchAction];
    assert JoinWith(pieces[1..], '.') == rest;
    assert MethodFor(SearchModal, provider, SearchAction) == SearchModal + ['.'] + rest;
    SplitPrefix(SearchModal, '.', rest);
    SplitFirstPiece(provider, '.', SearchAction);
  }

  /** Setting then getting the provider gives it back when it holds no dot. */
  lemma ProviderRoundTrip(provider: string)
    requires '.' !in provider
    ensures ProviderOf(Some(MethodFor(SearchModal, provider, SearchAction))) == Success(Some(provider))
  {
    ProviderReadBack(provider);
    NoSeparatorSplit(provider, '.');
  }

  const SearchModal := "flights"
  const SearchAction := "search"

  /** A search request for the upstream service. Its `provider` is not a field
      of its own: it lives inside `method` as `flights.<provider>.search`. */
  class SeeyaSearchRequest {
    var metadata: Option<SeeyaMetadata>
    var transactionId: string
    var pcc: Option<string>
    var methodName: Option<string>  // the `method` field
    var searchQuery: Option<SeeyaSearchQuery>

    /** The transaction id goes through `xstr`: None is stored as `""`. */
    constructor(metadata: Option<SeeyaMetadata>, transactionId: Option<string>, pcc: Option<string>,
                methodName: Option<string>, searchQuery: Option<SeeyaSearchQuery>)
      ensures this.metadata == metadata && this.pcc == pcc && this.methodName == methodName && this.searchQuery == searchQuery
      ensures this.transactionId == Converters.Xstr(transactionId)
      ensures transactionId.None? ==> this.transactionId == ""
    {
      this.metadata := metadata;
      this.transactionId := Converters.Xstr(transactionId);
      this.pcc := pcc;
      this.methodName := methodName;
      this.searchQuery := searchQuery;
    }

    /** The `provider` getter. */
    function Provider(): Result<Option<string>, ProviderError>
      reads this
    {
      ProviderOf(methodName)
    }

    /** The `provider` setter: only the method name changes. */
    method SetProvider(provider: string)
      modifies this
      ensures methodName == Some(MethodFor(SearchModal, provider, SearchAction))
      ensures metadata == old(metadata) && transactionId == old(transactionId)
      ensures pcc == old(pcc) && searchQuery == old(searchQuery)
      ensures Provider() == Success(Some(SplitOn(provider, '.')[0]))
      ensures '.' !in provider ==> Provider() == Success(Some(provider))
    {
      methodName := Some(MethodFor(SearchModal, provider, SearchAction));
      ProviderReadBack(provider);
      if '.' !in provider {
        ProviderRoundTrip(provider);
      }
    }
  }

  // ---------------------------------------------------------------------
  // Response records
  // ---------------------------------------------------------------------

  datatype SeeyaTechnicalStop = SeeyaTechnicalStop(destination: string, duration: int, depDatetime: string, arrDatetime: string)
  datatype SeeyaSegmentPoint = SeeyaSegmentPoint(airport: string, datetime: string)
  datatype SeeyaSegment = SeeyaSegment(
    dep: SeeyaSegmentPoint,
    arr: SeeyaSegmentPoint,
    marketingCarrier: string,
    flightEquipment: string,
    elapsedFlyingTime: int,
    operatingCarrier: string,
    flightNumber: string,
    technicalStop: seq<SeeyaTechnicalStop>)

  /** Amounts are copied through and never computed on. */
  type Amount = real

  datatype SeeyaPrice = SeeyaPrice(currency: string, amount: Amount)
  datatype SeeyaFareData = SeeyaFareData(
    proposedValidatingCarriers: seq<string>,
    totalPrice: SeeyaPrice,
    taxes: SeeyaPrice,
    baseFare: SeeyaPrice,
    obFees: map<string, Amount>)
  datatype SeeyaPaxFareData = SeeyaPaxFareData(
    lastTicketingDatetime: Option<string>,
    fareBasis: string,
    bookingClass: string,
    refundable: bool,
    numberOfSeats: int,
    cabin: string)
  datatype SeeyaPricePerPaxType = SeeyaPricePerPaxType(
    totalPrice: SeeyaPrice,
    baseFare: SeeyaPrice,
    taxes: SeeyaPrice,
    fareData: map<string, SeeyaPaxFareData>)

  datatype SeeyaPassengerType = adults | children | infants

  /** The segment references of a recommendation: one list of refs per leg. */
  datatype SeeyaSegmentReferences = SeeyaSegmentReferences(data: seq<seq<string>>)

  /** The upstream wire form pairs each ref with a connection flag; only the
      refs are kept, the legs come from the outer list. */
  function Deserialize(raw: seq<seq<(string, bool)>>): (r: SeeyaSegmentReferences)
    ensures |r.data| == |raw|
    ensures forall i :: 0 <= i < |raw| ==> |r.data[i]| == |raw[i]|
    ensures forall i, j :: 0 <= i < |raw| && 0 <= j < |raw[i]| ==> r.data[i][j] == raw[i][j].0
  {
    SeeyaSegmentReferences(seq(|raw|, i requires 0 <= i < |raw| => seq(|raw[i]|, j requires 0 <= j < |raw[i]| => raw[i][j].0)))
  }

  /** Pairs each ref of each leg with a flag of the same shape. */
  function Pair(refs: seq<seq<string>>, flags: seq<seq<bool>>): seq<seq<(string, bool)>>
    requires |flags| == |refs| && forall i :: 0 <= i < |refs| ==> |flags[i]| == |refs[i]|
  {
    seq(|refs|, i requires 0 <= i < |refs| => seq(|refs[i]|, j requires 0 <= j < |refs[i]| => (refs[i][j], flags[i][j])))
  }

  /** Deserializing recovers the refs whatever the connection flags say. */
  lemma DeserializeIgnoresFlags(refs: seq<seq<string>>, flags: seq<seq<bool>>)
    requires |flags| == |refs| && forall i :: 0 <= i < |refs| ==> |flags[i]| == |refs[i]|
    ensures Deserialize(Pair(refs, flags)).data == refs
  {
    var d := Deserialize(Pair(refs, flags)).data;
    forall i | 0 <= i < |refs| ensures d[i] == refs[i] {
    }
  }

  datatype SeeyaRecommendation = SeeyaRecommendation(
    pricePerPaxType: map<SeeyaPassengerType, SeeyaPricePerPaxType>,
    segRefs: SeeyaSegmentReferences,
    gds: string,
    fareData: SeeyaFareData,
    deepLink: string)

  datatype SeeyaSearchResult = SeeyaSearchResult(
    transactionId: string,
    groupOfSegments: map<string, SeeyaSegment>,
    recommendations: seq<SeeyaRecommendation>)

  datatype SeeyaSearchResponse = SeeyaSearchResponse(
    transactionId: string,
    result: Option<SeeyaSearchResult>,
    error: Option<string>)
}
