/** The internal domain model of the search service: validated route requests,
    the response records, the per-segment identity, the group id of a fare
    offer and the resource codes it references. */
module SearchModels {
  import opened Wrappers
  import Converters

  // ---------------------------------------------------------------------
  // Date-time validation: datetime.strptime(value, "%Y-%m-%dT%H:%M:%S")
  // ---------------------------------------------------------------------

  datatype DateTime = DateTime(year: int, month: int, day: int, hour: int, minute: int, second: int)

  predicate IsLeapYear(y: int) {
    y % 4 == 0 && (y % 100 != 0 || y % 400 == 0)
  }

  function DaysInMonth(y: int, m: int): int
    requires 1 <= m <= 12
  {
    if m == 2 then (if IsLeapYear(y) then 29 else 28)
    else if m == 4 || m == 6 || m == 9 || m == 11 then 30
    else 31
  }

  /** What `datetime(...)` accepts: years 1 to 9999, real calendar days,
      seconds up to 59. */
  predicate ValidDateTime(dt: DateTime) {
    && 1 <= dt.year <= 9999
    && 1 <= dt.month <= 12
    && 1 <= dt.day <= DaysInMonth(dt.year, dt.month)
    && 0 <= dt.hour <= 23
    && 0 <= dt.minute <= 59
    && 0 <= dt.second <= 59
  }

  predicate IsDigit(c: char) {
    '0' <= c <= '9'
  }

  predicate AllDigits(s: string) {
    forall i :: 0 <= i < |s| ==> IsDigit(s[i])
  }

  function DigitsValue(s: string): nat
    requires AllDigits(s)
  {
    if s == [] then 0 else DigitsValue(s[..|s| - 1]) * 10 + (s[|s| - 1] as int - '0' as int)
  }

  /** The text before the first separator and the text after it. */
  function SplitAt(s: string, seps: set<char>): Option<(string, string)> {
    if s == [] then None
    else if s[0] in seps then Some(([], s[1..]))
    else match SplitAt(s[1..], seps)
      case None => None
      case Some(p) => Some(([s[0]] + p.0, p.1))
  }

  /** Splitting fails exactly on text without a separator; otherwise the
      text is the part before the first separator, that separator, and the
      rest. */
  lemma {:induction false} SplitAtShape(s: string, seps: set<char>)
    ensures var r := SplitAt(s, seps);
            && (r.None? <==> forall i :: 0 <= i < |s| ==> s[i] !in seps)
            && (r.Some? ==>
                  && |r.value.0| < |s|
                  && s == r.value.0 + [s[|r.value.0|]] + r.value.1
                  && s[|r.value.0|] in seps
                  && forall i :: 0 <= i < |r.value.0| ==> r.value.0[i] !in seps)
  {
    if s != [] && s[0] !in seps {
      SplitAtShape(s[1..], seps);
      assert forall i :: 1 <= i < |s| ==> s[i] == s[1..][i - 1];
      if SplitAt(s[1..], seps).Some? {
        var p := SplitAt(s[1..], seps).value;
        assert s == [s[0]] + s[1..];
        assert forall i :: 1 <= i < |p.0| + 1 ==> ([s[0]] + p.0)[i] == p.0[i - 1];
      }
    }
  }

  const DateSeparator: set<char> := {'-'}
  /** The format's literal `T`; strptime matches it ignoring case. */
  const DateTimeSeparator: set<char> := {'T', 't'}
  const TimeSeparator: set<char> := {':'}

  /** One or two digits: what `%m`, `%H`, `%M` and `%S` match before the
      range check. */
  predicate IsShortNumber(t: string) {
    1 <= |t| <= 2 && AllDigits(t)
  }

  /** `%d` also matches a space followed by a non-zero digit. */
  function DayField(t: string): Option<int> {
    if IsShortNumber(t) then Some(DigitsValue(t))
    else if |t| == 2 && t[0] == ' ' && '1' <= t[1] <= '9' then Some(t[1] as int - '0' as int)
    else None
  }

  function FieldsToDateTime(y: string, mo: string, d: string, h: string, mi: string, sec: string): (r: Option<DateTime>)
    ensures r.Some? ==> ValidDateTime(r.value)
  {
    if |y| == 4 && AllDigits(y) && IsShortNumber(mo) && DayField(d).Some?
       && IsShortNumber(h) && IsShortNumber(mi) && IsShortNumber(sec)
    then
      var dt := DateTime(DigitsValue(y), DigitsValue(mo), DayField(d).value,
                         DigitsValue(h), DigitsValue(mi), DigitsValue(sec));
      if ValidDateTime(dt) then Some(dt) else None
    else None
  }

  /** `strptime` with the fixed ISO format: the fields are separated by the
      format's literals, so each field runs up to the next separator. */
  function ParseDateTime(s: string): (r: Option<DateTime>)
    ensures r.Some? ==> ValidDateTime(r.value)
  {
    match SplitAt(s, DateSeparator)
    case None => None
    case Some(p1) =>
      match SplitAt(p1.1, DateSeparator)
      case None => None
      case Some(p2) =>
        match SplitAt(p2.1, DateTimeSeparator)
        case None => None
        case Some(p3) =>
          match SplitAt(p3.1, TimeSeparator)
          case None => None
          case Some(p4) =>
            match SplitAt(p4.1, TimeSeparator)
            case None => None
            case Some(p5) => FieldsToDateTime(p1.0, p2.0, p3.0, p4.0, p5.0, p5.1)
  }

  /** `validate_iso_date` succeeds exactly on these strings. */
  predicate IsIsoDateTime(s: string) {
    ParseDateTime(s).Some?
  }

  function DigitChar(n: nat): char
    requires n < 10
  {
    ('0' as int + n) as char
  }

  function Pad2(n: nat): string
    requires n < 100
  {
    [DigitChar(n / 10), DigitChar(n % 10)]
  }

  function Pad4(n: nat): string
    requires n < 10000
  {
    Pad2(n / 100) + Pad2(n % 100)
  }

  /** The zero-padded text `YYYY-MM-DDTHH:MM:SS` of six field values. */
  function FormatFields(y: nat, mo: nat, d: nat, h: nat, mi: nat, sec: nat): string
    requires y < 10000 && mo < 100 && d < 100 && h < 100 && mi < 100 && sec < 100
  {
    Pad4(y) + "-" + Pad2(mo) + "-" + Pad2(d) + "T" + Pad2(h) + ":" + Pad2(mi) + ":" + Pad2(sec)
  }

  /** The canonical text of a date-time. */
  function FormatDateTime(dt: DateTime): string
    requires ValidDateTime(dt)
  {
    FormatFields(dt.year, dt.month, dt.day, dt.hour, dt.minute, dt.second)
  }

  lemma DigitCharValue(n: nat)
    requires n < 10
    ensures IsDigit(DigitChar(n)) && DigitChar(n) as int - '0' as int == n
  {
  }

  lemma DigitsValueSnoc(s: string, c: char)
    requires AllDigits(s) && IsDigit(c)
    ensures AllDigits(s + [c]) && DigitsValue(s + [c]) == DigitsValue(s) * 10 + (c as int - '0' as int)
  {
    assert (s + [c])[..|s|] == s;
  }

  lemma TwoDigitsValue(t: string)
    requires |t| == 2 && AllDigits(t)
    ensures DigitsValue(t) == (t[0] as int - '0' as int) * 10 + (t[1] as int - '0' as int)
  {
    DigitsValueSnoc([], t[0]);
    assert [] + [t[0]] == [t[0]];
    DigitsValueSnoc([t[0]], t[1]);
    assert [t[0]] + [t[1]] == t;
  }

  lemma FourDigitsValue(t: string)
    requires |t| == 4 && AllDigits(t)
    ensures DigitsValue(t) == (((t[0] as int - '0' as int) * 10 + (t[1] as int - '0' as int)) * 10
                               + (t[2] as int - '0' as int)) * 10 + (t[3] as int - '0' as int)
  {
    TwoDigitsValue(t[..2]);
    DigitsValueSnoc(t[..2], t[2]);
    assert t[..2] + [t[2]] == t[..3];
    DigitsValueSnoc(t[..3], t[3]);
    assert t[..3] + [t[3]] == t;
  }

  lemma Pad2Value(n: nat)
    requires n < 100
    ensures IsShortNumber(Pad2(n)) && DigitsValue(Pad2(n)) == n
  {
    DigitCharValue(n / 10);
    DigitCharValue(n % 10);
    TwoDigitsValue(Pad2(n));
  }

  lemma Pad4Value(n: nat)
    requires n < 10000
    ensures |Pad4(n)| == 4 && AllDigits(Pad4(n)) && DigitsValue(Pad4(n)) == n
  {
    var hi, lo := Pad2(n / 100), Pad2(n % 100);
    Pad2Value(n / 100);
    Pad2Value(n % 100);
    DigitsValueSnoc(hi, lo[0]);
    DigitsValueSnoc(hi + [lo[0]], lo[1]);
    assert hi + [lo[0]] + [lo[1]] == Pad4(n);
    TwoDigitsValue(lo);
  }

  /** Splitting text whose first separator follows `a` yields `a` and the rest. */
  lemma {:induction false} SplitAtFirst(a: string, c: char, b: string, seps: set<char>)
    requires c in seps
    requires forall i :: 0 <= i < |a| ==> a[i] !in seps
    ensures SplitAt(a + [c] + b, seps) == Some((a, b))
  {
    if a != [] {
      SplitAtFirst(a[1..], c, b, seps);
      assert (a + [c] + b)[0] == a[0] && (a + [c] + b)[1..] == a[1..] + [c] + b;
      assert [a[0]] + a[1..] == a;
    } else {
      assert a + [c] + b == [c] + b;
    }
  }

  lemma DigitsHaveNoSeparator(t: string, seps: set<char>)
    requires AllDigits(t)
    requires forall c :: c in seps ==> !IsDigit(c)
    ensures forall i :: 0 <= i < |t| ==> t[i] !in seps
  {
  }

  /** Zero-padded fields convert to their values, and to a date-time
      exactly when those values form a valid one. */
  lemma PaddedFieldsValue(y: nat, mo: nat, d: nat, h: nat, mi: nat, sec: nat)
    requires y < 10000 && mo < 100 && d < 100 && h < 100 && mi < 100 && sec < 100
    ensures var dt := DateTime(y, mo, d, h, mi, sec);
            FieldsToDateTime(Pad4(y), Pad2(mo), Pad2(d), Pad2(h), Pad2(mi), Pad2(sec))
            == if ValidDateTime(dt) then Some(dt) else None
  {
    Pad4Value(y);
    Pad2Value(mo);
    Pad2Value(d);
    Pad2Value(h);
    Pad2Value(mi);
    Pad2Value(sec);
  }

  /** Zero-padded text of six values parses to them exactly when they form a
      valid date-time, and is rejected otherwise. */
  lemma ParseFormatFields(y: nat, mo: nat, d: nat, h: nat, mi: nat, sec: nat)
    requires y < 10000 && mo < 100 && d < 100 && h < 100 && mi < 100 && sec < 100
    ensures var dt := DateTime(y, mo, d, h, mi, sec);
            ParseDateTime(FormatFields(y, mo, d, h, mi, sec)) == if ValidDateTime(dt) then Some(dt) else None
  {
    Pad4Value(y);
    Pad2Value(mo);
    Pad2Value(d);
    Pad2Value(h);
    Pad2Value(mi);
    DigitsHaveNoSeparator(Pad4(y), DateSeparator);
    DigitsHaveNoSeparator(Pad2(mo), DateSeparator);
    DigitsHaveNoSeparator(Pad2(d), DateTimeSeparator);
    DigitsHaveNoSeparator(Pad2(h), TimeSeparator);
    DigitsHaveNoSeparator(Pad2(mi), TimeSeparator);
    ParseFields(Pad4(y), Pad2(mo), Pad2(d), 'T', Pad2(h), Pad2(mi), Pad2(sec));
    PaddedFieldsValue(y, mo, d, h, mi, sec);
  }

  /** Parsing the canonical text of a valid date-time gives it back. */
  lemma ParseFormatRoundTrip(dt: DateTime)
    requires ValidDateTime(dt)
    ensures ParseDateTime(FormatDateTime(dt)) == Some(dt)
  {
    ParseFormatFields(dt.year, dt.month, dt.day, dt.hour, dt.minute, dt.second);
  }

  /** The canonical text never holds a space. */
  lemma FormatHasNoSpace(dt: DateTime)
    requires ValidDateTime(dt)
    ensures ' ' !in FormatDateTime(dt)
  {
  }

  /** The zero-padded texts of the example dates below, one per lemma. */
  lemma December31Text()
    ensures FormatFields(2018, 12, 31, 12, 12, 6) == "2018-12-31T12:12:06"
  {
  }

  lemma LeapYearFebruary29Text()
    ensures FormatFields(2016, 2, 29, 0, 0, 0) == "2016-02-29T00:00:00"
  {
  }

  lemma Day32Text()
    ensures FormatFields(2018, 12, 32, 0, 5, 6) == "2018-12-32T00:05:06"
  {
  }

  lemma CommonYearFebruary29Text()
    ensures FormatFields(2019, 2, 29, 0, 0, 0) == "2019-02-29T00:00:00"
  {
  }

  /** The 31st of December is accepted. */
  lemma December31Accepted()
    ensures ParseDateTime("2018-12-31T12:12:06") == Some(DateTime(2018, 12, 31, 12, 12, 6))
  {
    assert ValidDateTime(DateTime(2018, 12, 31, 12, 12, 6));
    December31Text();
    ParseFormatFields(2018, 12, 31, 12, 12, 6);
  }

  /** 29 February is accepted in a leap year. */
  lemma LeapYearFebruary29Accepted()
    ensures ParseDateTime("2016-02-29T00:00:00") == Some(DateTime(2016, 2, 29, 0, 0, 0))
  {
    assert ValidDateTime(DateTime(2016, 2, 29, 0, 0, 0));
    LeapYearFebruary29Text();
    ParseFormatFields(2016, 2, 29, 0, 0, 0);
  }

  /** strptime's leniency: unpadded fields, a space-padded day and a lower-case `t`. */
  lemma LenientFormAccepted()
    ensures ParseDateTime("2018-1- 5t7:8:9") == Some(DateTime(2018, 1, 5, 7, 8, 9))
  {
    assert FieldsToDateTime("2018", "1", " 5", "7", "8", "9") == Some(DateTime(2018, 1, 5, 7, 8, 9)) by {
      FourDigitsValue("2018");
      assert DigitsValue("1") == 1 by { assert "1"[..0] == []; }
      assert DigitsValue("7") == 7 by { assert "7"[..0] == []; }
      assert DigitsValue("8") == 8 by { assert "8"[..0] == []; }
      assert DigitsValue("9") == 9 by { assert "9"[..0] == []; }
    }
    assert ParseDateTime("2018-1- 5t7:8:9") == FieldsToDateTime("2018", "1", " 5", "7", "8", "9") by {
      assert "2018-1- 5t7:8:9" == "2018" + "-" + "1" + "-" + " 5" + ['t'] + "7" + ":" + "8" + ":" + "9";
      ParseFields("2018", "1", " 5", 't', "7", "8", "9");
    }
  }

  predicate Avoids(t: string, seps: set<char>) {
    forall i :: 0 <= i < |t| ==> t[i] !in seps
  }

  /** The fields of `y-mo-d<T>h:mi:sec` are its six parts whenever the first
      five hold no separator. */
  lemma ParseFields(y: string, mo: string, d: string, tee: char, h: string, mi: string, sec: string)
    requires tee in DateTimeSeparator
    requires Avoids(y, DateSeparator) && Avoids(mo, DateSeparator) && Avoids(d, DateTimeSeparator)
    requires Avoids(h, TimeSeparator) && Avoids(mi, TimeSeparator)
    ensures ParseDateTime(y + "-" + mo + "-" + d + [tee] + h + ":" + mi + ":" + sec)
            == FieldsToDateTime(y, mo, d, h, mi, sec)
  {
    var r4 := mi + [':'] + sec;
    var r3 := h + [':'] + r4;
    var r2 := d + [tee] + r3;
    var r1 := mo + ['-'] + r2;
    assert y + "-" + mo + "-" + d + [tee] + h + ":" + mi + ":" + sec == y + ['-'] + r1;
    SplitAtFirst(y, '-', r1, DateSeparator);
    SplitAtFirst(mo, '-', r2, DateSeparator);
    SplitAtFirst(d, tee, r3, DateTimeSeparator);
    SplitAtFirst(h, ':', r4, TimeSeparator);
    SplitAtFirst(mi, ':', sec, TimeSeparator);
  }

  /** A 32nd day matches the textual shape and still fails. */
  lemma Day32Rejected()
    ensures ParseDateTime("2018-12-32T00:05:06") == None
  {
    assert !ValidDateTime(DateTime(2018, 12, 32, 0, 5, 6));
    Day32Text();
    ParseFormatFields(2018, 12, 32, 0, 5, 6);
  }

  /** 29 February of a common year fails. */
  lemma CommonYearFebruary29Rejected()
    ensures ParseDateTime("2019-02-29T00:00:00") == None
  {
    assert !ValidDateTime(DateTime(2019, 2, 29, 0, 0, 0));
    CommonYearFebruary29Text();
    ParseFormatFields(2019, 2, 29, 0, 0, 0);
  }

  // ---------------------------------------------------------------------
  // Requests
  // ---------------------------------------------------------------------

  datatype ConstructionError =
    | InvalidDateTime(value: string)  // ValueError from the date-time validator
    | MissingServices                 // AttributeError: a segment without services

  /** Departure and arrival codes are stored upper-cased; the date-time is
      validated when the record is built. */
  datatype RouteRequest = RouteRequest(departure: string, arrival: string, datetime: string)

  /** `RouteRequest(departure, arrival, datetime)`: the `upper` converters run
      on the codes and the ISO validator on the date-time. */
  function NewRouteRequest(departure: Option<string>, arrival: Option<string>, datetime: string): (r: Result<RouteRequest, ConstructionError>)
    ensures r.Success? <==> IsIsoDateTime(datetime)
    ensures r.Failure? ==> r.error == InvalidDateTime(datetime)
    ensures r.Success? ==> r.value.datetime == datetime
    ensures r.Success? ==> r.value.departure == Converters.Upper(departure) && r.value.arrival == Converters.Upper(arrival)
    ensures r.Success? ==> |r.value.departure| == |departure.GetOr("")| && |r.value.arrival| == |arrival.GetOr("")|
    ensures r.Success? ==> forall i :: 0 <= i < |r.value.departure| ==> !Converters.IsLowerAscii(r.value.departure[i])
    ensures r.Success? ==> forall i :: 0 <= i < |r.value.arrival| ==> !Converters.IsLowerAscii(r.value.arrival[i])
  {
    Converters.UpperStrShape(departure.GetOr(""));
    Converters.UpperStrShape(arrival.GetOr(""));
    if IsIsoDateTime(datetime) then Success(RouteRequest(Converters.Upper(departure), Converters.Upper(arrival), datetime))
    else Failure(InvalidDateTime(datetime))
  }

  /** Building a route request twice from its own fields changes nothing: the
      stored codes are already upper-case. */
  lemma RouteRequestStable(departure: Option<string>, arrival: Option<string>, datetime: string)
    requires NewRouteRequest(departure, arrival, datetime).Success?
    ensures var r := NewRouteRequest(departure, arrival, datetime).value;
            NewRouteRequest(Some(r.departure), Some(r.arrival), r.datetime) == Success(r)
  {
    Converters.UpperIdempotent(departure);
    Converters.UpperIdempotent(arrival);
  }

  datatype PassengerType = ADT | CHD | INF

  datatype PassengerRequest = PassengerRequest(count: int, passengerType: PassengerType)

  datatype SearchRequest = SearchRequest(
    routes: seq<RouteRequest>,
    passengers: seq<PassengerRequest>,
    cabinClass: string,
    carrier: string,
    flexibleDates: bool,
    locale: string,
    currency: string,
    market: string,
    directRoutes: bool)

  // ---------------------------------------------------------------------
  // Resources and responses
  // ---------------------------------------------------------------------

  /** The categories of reference data, in the order the enrichment visits them. */
  datatype ResourceClass = Carriers | CabinClasses | Locations | Equipments

  /** A resolved reference-data record. */
  datatype Descriptor =
    | ResourceCarrier(code: string, logo: Option<string>, name: string)
    | ResourceCabinClass(code: string, name: string)
    | ResourceLocation(code: string, name: string, country: string, city: string)
    | ResourceEquipment(code: string, name: string)

  /** An insertion-ordered dictionary from code to descriptor (None while unresolved). */
  datatype Dict = Dict(keys: seq<string>, values: map<string, Option<Descriptor>>) {
    ghost predicate Valid() {
      && (forall i, j :: 0 <= i < j < |keys| ==> keys[i] != keys[j])
      && (forall k :: k in values <==> k in keys)
    }

    /** `d.setdefault(k, None)` */
    function SetDefault(k: string): Dict {
      if k in values then this else Dict(keys + [k], values[k := None])
    }

    /** `d[k] = v` */
    function Put(k: string, v: Option<Descriptor>): Dict {
      if k in values then Dict(keys, values[k := v]) else Dict(keys + [k], values[k := v])
    }
  }

  const EmptyDict := Dict([], map[])

  datatype Resources = Resources(carriers: Dict, cabinClasses: Dict, locations: Dict, equipments: Dict)

  /** The dictionary of one category. */
  function Category(r: Resources, c: ResourceClass): Dict {
    match c
    case Carriers => r.carriers
    case CabinClasses => r.cabinClasses
    case Locations => r.locations
    case Equipments => r.equipments
  }

  function WithCategory(r: Resources, c: ResourceClass, d: Dict): Resources {
    match c
    case Carriers => r.(carriers := d)
    case CabinClasses => r.(cabinClasses := d)
    case Locations => r.(locations := d)
    case Equipments => r.(equipments := d)
  }

  /** Prices are copied through and never computed on. */
  type Amount = real

  datatype Price = Price(currency: string, faceValue: Amount, tax: Amount, total: Amount)
  datatype Passenger = Passenger(count: int, price: Price)
  datatype Services = Services(cabinClass: string, bookingClass: string)
  datatype Point = Point(location: string, datetime: string)
  datatype TechnicalStop = TechnicalStop(duration: int, arrival: Point, departure: Point)
  datatype Route = Route(departure: Point, arrival: Point, technicalStop: seq<TechnicalStop>)
  datatype Carrier = Carrier(marketing: string, operating: string)
  datatype Transport = Transport(kind: string, number: string, equipment: string, carriers: Carrier)
  datatype Segment = Segment(transport: Transport, route: Route, duration: int, services: Option<Services>)

  /** A leg's duration is never supplied: it is always None. */
  datatype Leg = Leg(segments: seq<Segment>, duration: Option<int>)

  function NewLeg(segments: seq<Segment>): (r: Leg)
    ensures r.segments == segments && r.duration == None
  {
    Leg(segments, None)
  }

  datatype Provider = Provider(name: string, uri: string, presentationName: string)

  /** `Provider(name, uri)`: the post-init hook copies the name. */
  function NewProvider(name: string, uri: string): (r: Provider)
    ensures r.name == name && r.uri == uri
    ensures r.presentationName == r.name
  {
    Provider(name, uri, name)
  }

  datatype SearchResponseData = SearchResponseData(
    id: Option<string>,
    groupId: string,
    provider: Provider,
    resources: Resources,
    legs: seq<Leg>,
    passengers: map<string, Passenger>)

  datatype SearchResponse = SearchResponse(data: seq<SearchResponseData>, error: Option<string>)

  // ---------------------------------------------------------------------
  // Segment identity and group id
  // ---------------------------------------------------------------------

  /** `Segment.generate_id`: it reads the services, so they must be present. */
  function GenerateId(s: Segment): string
    requires s.services.Some?
  {
    s.transport.number + s.transport.carriers.marketing
      + s.route.departure.datetime + s.route.arrival.datetime
      + s.route.departure.location + s.route.arrival.location
      + s.services.value.cabinClass
  }

  /** An id starts with the flight number and ends with the cabin class. */
  lemma GenerateIdShape(s: Segment)
    requires s.services.Some?
    ensures |s.transport.number| + |s.services.value.cabinClass| <= |GenerateId(s)|
    ensures GenerateId(s)[..|s.transport.number|] == s.transport.number
    ensures GenerateId(s)[|GenerateId(s)| - |s.services.value.cabinClass|..] == s.services.value.cabinClass
  {
  }

  /** The identity ignores the booking class and everything outside its seven
      fields, and tells cabin classes apart. */
  lemma IdentityFields(s: Segment, t: Segment)
    requires s.services.Some? && t.services.Some?
    requires s.transport.number == t.transport.number && s.transport.carriers.marketing == t.transport.carriers.marketing
    requires s.route.departure == t.route.departure && s.route.arrival == t.route.arrival
    ensures GenerateId(s) == GenerateId(t) <==> s.services.value.cabinClass == t.services.value.cabinClass
  {
    var p := s.transport.number + s.transport.carriers.marketing
      + s.route.departure.datetime + s.route.arrival.datetime
      + s.route.departure.location + s.route.arrival.location;
    assert GenerateId(s) == p + s.services.value.cabinClass;
    assert GenerateId(t) == p + t.services.value.cabinClass;
    if GenerateId(s) == GenerateId(t) {
      assert s.services.value.cabinClass == GenerateId(s)[|p|..];
    }
  }

  /** Every segment carries services. */
  predicate Serviced(segs: seq<Segment>) {
    forall i :: 0 <= i < |segs| ==> segs[i].services.Some?
  }

  /** Every segment of every leg carries services. */
  predicate LegsServiced(legs: seq<Leg>) {
    forall i :: 0 <= i < |legs| ==> Serviced(legs[i].segments)
  }

  /** The segments of all legs, leg after leg. */
  function AllSegments(legs: seq<Leg>): seq<Segment> {
    if legs == [] then [] else AllSegments(legs[..|legs| - 1]) + legs[|legs| - 1].segments
  }

  lemma {:induction false} AllSegmentsServiced(legs: seq<Leg>)
    requires LegsServiced(legs)
    ensures Serviced(AllSegments(legs))
  {
    if legs != [] {
      var init := legs[..|legs| - 1];
      assert LegsServiced(init) by {
        forall i | 0 <= i < |init| ensures Serviced(init[i].segments) {
          assert init[i] == legs[i];
        }
      }
      AllSegmentsServiced(init);
      var x, y := AllSegments(init), legs[|legs| - 1].segments;
      assert Serviced(y);
      forall i | 0 <= i < |x + y| ensures (x + y)[i].services.Some? {
        if i < |x| { assert (x + y)[i] == x[i]; } else { assert (x + y)[i] == y[i - |x|]; }
      }
    }
  }

  /** The concatenated identities, in order. */
  function ConcatIds(segs: seq<Segment>): string
    requires Serviced(segs)
  {
    if segs == [] then "" else ConcatIds(segs[..|segs| - 1]) + GenerateId(segs[|segs| - 1])
  }

  /** `generate_group_id`, with the hash function as a parameter. */
  function GroupId(legs: seq<Leg>, md5: string -> string): (r: string)
    requires LegsServiced(legs)
    ensures |legs| == 1 ==> r == md5(ConcatIds(legs[0].segments))
  {
    AllSegmentsServiced(legs);
    AllSegmentsSingle(legs);
    md5(ConcatIds(AllSegments(legs)))
  }

  lemma AllSegmentsSingle(legs: seq<Leg>)
    ensures |legs| == 1 ==> AllSegments(legs) == legs[0].segments
  {
    if |legs| == 1 {
      assert legs == [legs[0]];
      AllSegmentsOne(legs[0]);
    }
  }

  lemma {:induction false} AllSegmentsAppend(a: seq<Leg>, b: seq<Leg>)
    ensures AllSegments(a + b) == AllSegments(a) + AllSegments(b)
  {
    if b == [] {
      assert a + b == a;
    } else {
      var b0 := b[..|b| - 1];
      AllSegmentsAppend(a, b0);
      assert (a + b)[..|a + b| - 1] == a + b0;
      assert (a + b)[|a + b| - 1] == b[|b| - 1];
      calc {
        AllSegments(a + b);
        AllSegments(a + b0) + b[|b| - 1].segments;
        AllSegments(a) + AllSegments(b0) + b[|b| - 1].segments;
        AllSegments(a) + (AllSegments(b0) + b[|b| - 1].segments);
      }
    }
  }

  lemma {:induction false} SegmentsServicedAppend(a: seq<Segment>, b: seq<Segment>)
    requires Serviced(a) && Serviced(b)
    ensures Serviced(a + b)
  {
    forall i | 0 <= i < |a + b| ensures (a + b)[i].services.Some? {
      if i < |a| { assert (a + b)[i] == a[i]; } else { assert (a + b)[i] == b[i - |a|]; }
    }
  }

  lemma {:induction false} ConcatIdsAppend(a: seq<Segment>, b: seq<Segment>)
    requires Serviced(a) && Serviced(b)
    ensures Serviced(a + b)
    ensures ConcatIds(a + b) == ConcatIds(a) + ConcatIds(b)
  {
    SegmentsServicedAppend(a, b);
    if b == [] {
      assert a + b == a;
    } else {
      var b0 := b[..|b| - 1];
      assert Serviced(b0) by {
        forall i | 0 <= i < |b0| ensures b0[i].services.Some? { assert b0[i] == b[i]; }
      }
      ConcatIdsAppend(a, b0);
      assert (a + b)[..|a + b| - 1] == a + b0;
      assert (a + b)[|a + b| - 1] == b[|b| - 1];
      calc {
        ConcatIds(a + b);
        ConcatIds(a + b0) + GenerateId(b[|b| - 1]);
        ConcatIds(a) + ConcatIds(b0) + GenerateId(b[|b| - 1]);
        ConcatIds(a) + (ConcatIds(b0) + GenerateId(b[|b| - 1]));
      }
    }
  }

  /** Regrouping the same segments into other legs keeps the group id, and
      the group id of legs `l1 + l2` hashes the identities of `l1` followed by
      those of `l2`. */
  lemma {:induction false} GroupIdOfLegs(l1: seq<Leg>, l2: seq<Leg>, md5: string -> string)
    requires LegsServiced(l1) && LegsServiced(l2)
    ensures LegsServiced(l1 + l2)
    ensures Serviced(AllSegments(l1)) && Serviced(AllSegments(l2))
    ensures GroupId(l1 + l2, md5) == md5(ConcatIds(AllSegments(l1)) + ConcatIds(AllSegments(l2)))
  {
    assert LegsServiced(l1 + l2) by {
      forall i | 0 <= i < |l1 + l2| ensures Serviced((l1 + l2)[i].segments) {
        if i < |l1| { assert (l1 + l2)[i] == l1[i]; } else { assert (l1 + l2)[i] == l2[i - |l1|]; }
      }
    }
    AllSegmentsAppend(l1, l2);
    AllSegmentsServiced(l1);
    AllSegmentsServiced(l2);
    ConcatIdsAppend(AllSegments(l1), AllSegments(l2));
  }

  /** A segment whose identity is exactly `number`. */
  function NumberOnlySegment(number: string): Segment {
    Segment(Transport("flights", number, "", Carrier("", "")),
            Route(Point("", ""), Point("", ""), []), 0, Some(Services("", "")))
  }

  /** A segment carrying only a flight number has that number as identity. */
  lemma NumberOnlyId(number: string)
    ensures GenerateId(NumberOnlySegment(number)) == number
  {
  }

  lemma ConcatIdsPair(x: Segment, y: Segment)
    requires x.services.Some? && y.services.Some?
    ensures Serviced([x, y]) && ConcatIds([x, y]) == GenerateId(x) + GenerateId(y)
  {
    assert [x, y][..1] == [x] && [x][..0] == [];
    assert ConcatIds([x]) == GenerateId(x) by { assert "" + GenerateId(x) == GenerateId(x); }
  }

  lemma ConcatIdsTriple(x: Segment, y: Segment, z: Segment)
    requires x.services.Some? && y.services.Some? && z.services.Some?
    ensures Serviced([x, y, z]) && ConcatIds([x, y, z]) == GenerateId(x) + GenerateId(y) + GenerateId(z)
  {
    assert [x, y, z][..2] == [x, y];
    ConcatIdsPair(x, y);
  }

  lemma AllSegmentsOne(l: Leg)
    ensures AllSegments([l]) == l.segments
  {
    assert [l][..0] == [];
    assert [] + l.segments == l.segments;
  }

  /** Legs whose segments carry only the flight numbers `a`,`b` and `b`,`c`,`d`
      (for instance `A`,`B` and `B`,`C`,`D`) hash `a + b + b + c + d` (`ABBCD`). */
  lemma GroupIdExample(md5: string -> string, a: string, b: string, c: string, d: string)
    ensures var legs := [NewLeg([NumberOnlySegment(a), NumberOnlySegment(b)]),
                         NewLeg([NumberOnlySegment(b), NumberOnlySegment(c), NumberOnlySegment(d)])];
            LegsServiced(legs) && GroupId(legs, md5) == md5(a + b + b + c + d)
  {
    var sa, sb, sc, sd := NumberOnlySegment(a), NumberOnlySegment(b), NumberOnlySegment(c), NumberOnlySegment(d);
    var l1, l2 := NewLeg([sa, sb]), NewLeg([sb, sc, sd]);
    assert [l1, l2] == [l1] + [l2];
    NumberOnlyId(a); NumberOnlyId(b); NumberOnlyId(c); NumberOnlyId(d);
    AllSegmentsOne(l1);
    AllSegmentsOne(l2);
    ConcatIdsPair(sa, sb);
    ConcatIdsTriple(sb, sc, sd);
    GroupIdOfLegs([l1], [l2], md5);
    assert a + b + (b + c + d) == a + b + b + c + d;
  }

  // ---------------------------------------------------------------------
  // Resources of a response
  // ---------------------------------------------------------------------

  /** The dictionary `setdefault` builds from `codes`, starting empty. */
  function FromKeys(codes: seq<string>): Dict {
    if codes == [] then EmptyDict else FromKeys(codes[..|codes| - 1]).SetDefault(codes[|codes| - 1])
  }

  /** The position of the first occurrence of `k`. */
  function FirstIndex(codes: seq<string>, k: string): (i: nat)
    requires k in codes
    ensures i < |codes| && codes[i] == k && k !in codes[..i]
  {
    if codes[0] == k then 0 else 1 + FirstIndex(codes[1..], k)
  }

  /** The locations of the technical stops: arrival then departure of each. */
  function StopCodes(stops: seq<TechnicalStop>): seq<string> {
    if stops == [] then []
    else StopCodes(stops[..|stops| - 1]) + [stops[|stops| - 1].arrival.location, stops[|stops| - 1].departure.location]
  }

  /** The codes one segment contributes to a category, in visiting order. */
  function SegmentCodes(c: ResourceClass, s: Segment): seq<string>
    requires s.services.Some?
  {
    match c
    case Carriers => [s.transport.carriers.marketing, s.transport.carriers.operating]
    case CabinClasses => [s.services.value.cabinClass]
    case Locations => [s.route.departure.location, s.route.arrival.location] + StopCodes(s.route.technicalStop)
    case Equipments => [s.transport.equipment]
  }

  /** The codes all segments contribute to a category, in visiting order. */
  function CategoryCodes(c: ResourceClass, segs: seq<Segment>): seq<string>
    requires Serviced(segs)
  {
    if segs == [] then [] else CategoryCodes(c, segs[..|segs| - 1]) + SegmentCodes(c, segs[|segs| - 1])
  }

  /** The resources derived from the segments seen so far. */
  function ResourcesFrom(segs: seq<Segment>): Resources
    requires Serviced(segs)
  {
    Resources(FromKeys(CategoryCodes(Carriers, segs)), FromKeys(CategoryCodes(CabinClasses, segs)),
              FromKeys(CategoryCodes(Locations, segs)), FromKeys(CategoryCodes(Equipments, segs)))
  }

  /** The resources `generate_resources` derives from the legs. */
  function ResourcesOf(legs: seq<Leg>): Resources
    requires LegsServiced(legs)
  {
    AllSegmentsServiced(legs);
    ResourcesFrom(AllSegments(legs))
  }

  lemma FromKeysSnoc(codes: seq<string>, k: string)
    ensures FromKeys(codes + [k]) == FromKeys(codes).SetDefault(k)
  {
    assert (codes + [k])[..|codes|] == codes;
  }

  /** `setdefault` from an empty dictionary holds exactly the given codes,
      in its key list and in its map, every value None. */
  lemma {:induction false} FromKeysMembers(codes: seq<string>)
    ensures forall k :: k in FromKeys(codes).values <==> k in codes
    ensures forall k :: k in FromKeys(codes).keys <==> k in codes
    ensures forall k :: k in FromKeys(codes).values ==> FromKeys(codes).values[k] == None
  {
    if codes != [] {
      var init := codes[..|codes| - 1];
      assert codes == init + [codes[|codes| - 1]];
      FromKeysMembers(init);
    }
  }

  /** `setdefault` from an empty dictionary never repeats a key. */
  lemma {:induction false} FromKeysDistinct(codes: seq<string>)
    ensures forall i, j :: 0 <= i < j < |FromKeys(codes).keys| ==> FromKeys(codes).keys[i] != FromKeys(codes).keys[j]
  {
    if codes != [] {
      var init := codes[..|codes| - 1];
      FromKeysDistinct(init);
      FromKeysMembers(init);
    }
  }

  /** `setdefault` from an empty dictionary orders the keys by first occurrence. */
  lemma {:induction false} FromKeysOrder(codes: seq<string>, i: nat, j: nat)
    requires i < j < |FromKeys(codes).keys|
    ensures FromKeys(codes).keys[i] in codes && FromKeys(codes).keys[j] in codes
    ensures FirstIndex(codes, FromKeys(codes).keys[i]) < FirstIndex(codes, FromKeys(codes).keys[j])
  {
    var init, k := codes[..|codes| - 1], codes[|codes| - 1];
    assert codes == init + [k];
    var d, e := FromKeys(init), FromKeys(codes);
    FromKeysMembers(init);
    FromKeysMembers(codes);
    var x, y := e.keys[i], e.keys[j];
    if k in init || j < |d.keys| {
      assert x == d.keys[i] && y == d.keys[j];
      FromKeysOrder(init, i, j);
      FirstIndexPrefix(init, [k], x);
      FirstIndexPrefix(init, [k], y);
    } else {
      assert x == d.keys[i] && x in init && y == k;
      FirstIndexPrefix(init, [k], x);
    }
  }

  /** `setdefault` from an empty dictionary: distinct keys, exactly the given
      codes, in first-occurrence order, every value None. */
  lemma FromKeysShape(codes: seq<string>)
    ensures FromKeys(codes).Valid()
    ensures forall k :: k in FromKeys(codes).values <==> k in codes
    ensures forall k :: k in FromKeys(codes).values ==> FromKeys(codes).values[k] == None
    ensures forall i, j :: 0 <= i < j < |FromKeys(codes).keys| ==>
              FirstIndex(codes, FromKeys(codes).keys[i]) < FirstIndex(codes, FromKeys(codes).keys[j])
  {
    FromKeysMembers(codes);
    FromKeysDistinct(codes);
    forall i, j | 0 <= i < j < |FromKeys(codes).keys| {
      FromKeysOrder(codes, i, j);
    }
  }

  lemma {:induction false} FirstIndexPrefix(a: seq<string>, b: seq<string>, x: string)
    requires x in a
    ensures x in a + b && FirstIndex(a + b, x) == FirstIndex(a, x)
  {
    if a[0] != x {
      assert (a + b)[1..] == a[1..] + b;
      FirstIndexPrefix(a[1..], b, x);
    }
  }

  /** Some technical stop arrives at or departs from `k`. */
  predicate StopsVisit(stops: seq<TechnicalStop>, k: string) {
    exists i :: 0 <= i < |stops| && (k == stops[i].arrival.location || k == stops[i].departure.location)
  }

  lemma {:induction false} StopCodesMembers(stops: seq<TechnicalStop>, k: string)
    ensures k in StopCodes(stops) <==> StopsVisit(stops, k)
  {
    if stops != [] {
      var init, last := stops[..|stops| - 1], stops[|stops| - 1];
      assert StopCodes(stops) == StopCodes(init) + [last.arrival.location, last.departure.location];
      StopCodesMembers(init, k);
      if k in StopCodes(init) {
        var i :| 0 <= i < |init| && (k == init[i].arrival.location || k == init[i].departure.location);
        assert stops[i] == init[i];
      }
      if exists i :: 0 <= i < |stops| && (k == stops[i].arrival.location || k == stops[i].departure.location) {
        var i :| 0 <= i < |stops| && (k == stops[i].arrival.location || k == stops[i].departure.location);
        if i < |init| { assert init[i] == stops[i]; }
      }
    }
  }

  /** A code in a category's list comes from some segment. */
  lemma {:induction false} CategoryCodesSource(c: ResourceClass, segs: seq<Segment>, k: string) returns (i: nat)
    requires Serviced(segs) && k in CategoryCodes(c, segs)
    ensures i < |segs| && k in SegmentCodes(c, segs[i])
  {
    var init, last := segs[..|segs| - 1], segs[|segs| - 1];
    assert Serviced(init) by {
      forall j | 0 <= j < |init| ensures init[j].services.Some? { assert init[j] == segs[j]; }
    }
    assert CategoryCodes(c, segs) == CategoryCodes(c, init) + SegmentCodes(c, last);
    if k in CategoryCodes(c, init) {
      i := CategoryCodesSource(c, init, k);
      assert segs[i] == init[i];
    } else {
      i := |segs| - 1;
    }
  }

  /** Every code a segment contributes is in the category's list. */
  lemma {:induction false} CategoryCodesHas(c: ResourceClass, segs: seq<Segment>, i: nat, k: string)
    requires Serviced(segs) && i < |segs| && k in SegmentCodes(c, segs[i])
    ensures k in CategoryCodes(c, segs)
  {
    var init, last := segs[..|segs| - 1], segs[|segs| - 1];
    assert Serviced(init) by {
      forall j | 0 <= j < |init| ensures init[j].services.Some? { assert init[j] == segs[j]; }
    }
    assert CategoryCodes(c, segs) == CategoryCodes(c, init) + SegmentCodes(c, last);
    if i < |init| {
      assert init[i] == segs[i];
      CategoryCodesHas(c, init, i, k);
    }
  }

  lemma CategoryCodesMembers(c: ResourceClass, segs: seq<Segment>, k: string)
    requires Serviced(segs)
    ensures k in CategoryCodes(c, segs) <==> exists i :: 0 <= i < |segs| && k in SegmentCodes(c, segs[i])
  {
    if k in CategoryCodes(c, segs) {
      var i := CategoryCodesSource(c, segs, k);
    }
    if exists i :: 0 <= i < |segs| && k in SegmentCodes(c, segs[i]) {
      var i :| 0 <= i < |segs| && k in SegmentCodes(c, segs[i]);
      CategoryCodesHas(c, segs, i, k);
    }
  }

  lemma CategoryKeys(legs: seq<Leg>, c: ResourceClass, k: string)
    requires LegsServiced(legs)
    ensures Serviced(AllSegments(legs))
    ensures var segs := AllSegments(legs);
      k in Category(ResourcesOf(legs), c).values <==> exists i :: 0 <= i < |segs| && k in SegmentCodes(c, segs[i])
  {
    AllSegmentsServiced(legs);
    var segs := AllSegments(legs);
    assert Category(ResourcesOf(legs), c) == FromKeys(CategoryCodes(c, segs));
    var codes := CategoryCodes(c, segs);
    assert k in FromKeys(codes).values <==> k in codes by { FromKeysShape(codes); }
    CategoryCodesMembers(c, segs, k);
  }

  /** The segment mentions code `k` in category `c`: as its marketing or
      operating carrier, its cabin class, its equipment, or its departure,
      arrival or technical-stop location. */
  predicate Mentions(c: ResourceClass, s: Segment, k: string)
    requires s.services.Some?
  {
    match c
    case Carriers => k == s.transport.carriers.marketing || k == s.transport.carriers.operating
    case CabinClasses => k == s.services.value.cabinClass
    case Locations => k == s.route.departure.location || k == s.route.arrival.location || StopsVisit(s.route.technicalStop, k)
    case Equipments => k == s.transport.equipment
  }

  /** The keys of each category are exactly the codes its segments mention. */
  lemma ResourcesKeys(legs: seq<Leg>, c: ResourceClass, k: string)
    requires LegsServiced(legs)
    ensures Serviced(AllSegments(legs))
    ensures var segs := AllSegments(legs);
      k in Category(ResourcesOf(legs), c).values <==> exists i :: 0 <= i < |segs| && Mentions(c, segs[i], k)
  {
    CategoryKeys(legs, c, k);
    MentionsCodes(c, AllSegments(legs), k);
  }

  /** A segment contributes `k` to a category exactly when it mentions it. */
  lemma MentionsCodes(c: ResourceClass, segs: seq<Segment>, k: string)
    requires Serviced(segs)
    ensures (exists i :: 0 <= i < |segs| && k in SegmentCodes(c, segs[i]))
        <==> (exists i :: 0 <= i < |segs| && Mentions(c, segs[i], k))
  {
    forall i | 0 <= i < |segs| ensures k in SegmentCodes(c, segs[i]) <==> Mentions(c, segs[i], k) {
      StopCodesMembers(segs[i].route.technicalStop, k);
    }
  }

  /** Every category of the derived resources is a valid dictionary whose
      values are all None, with its keys in first-seen order. */
  lemma ResourcesShape(legs: seq<Leg>, c: ResourceClass)
    requires LegsServiced(legs)
    ensures Serviced(AllSegments(legs))
    ensures var d, codes := Category(ResourcesOf(legs), c), CategoryCodes(c, AllSegments(legs));
      && d.Valid()
      && (forall k :: k in d.values <==> k in codes)
      && (forall k :: k in d.values ==> d.values[k] == None)
      && (forall i, j :: 0 <= i < j < |d.keys| ==> FirstIndex(codes, d.keys[i]) < FirstIndex(codes, d.keys[j]))
  {
    AllSegmentsServiced(legs);
    FromKeysShape(CategoryCodes(c, AllSegments(legs)));
  }

  lemma CategoryCodesSnoc(c: ResourceClass, segs: seq<Segment>, s: Segment)
    requires Serviced(segs) && s.services.Some?
    ensures Serviced(segs + [s])
    ensures CategoryCodes(c, segs + [s]) == CategoryCodes(c, segs) + SegmentCodes(c, s)
  {
    SegmentsServicedAppend(segs, [s]);
    assert (segs + [s])[..|segs|] == segs;
  }

  lemma AllSegmentsSnoc(legs: seq<Leg>, i: nat)
    requires i < |legs|
    ensures AllSegments(legs[..i + 1]) == AllSegments(legs[..i]) + legs[i].segments
  {
    assert legs[..i + 1][..i] == legs[..i];
  }

  lemma TakeAll<T>(s: seq<T>)
    ensures s[..|s|] == s
  {
  }

  lemma TakeSnoc<T>(s: seq<T>, j: nat)
    requires j < |s|
    ensures s[..j + 1] == s[..j] + [s[j]]
  {
  }

  /** `setdefault` of the arrival then the departure location of every stop. */
  function AddStops(d: Dict, stops: seq<TechnicalStop>): Dict {
    if stops == [] then d
    else AddStops(d, stops[..|stops| - 1]).SetDefault(stops[|stops| - 1].arrival.location).SetDefault(stops[|stops| - 1].departure.location)
  }

  /** One iteration of the segment loop of `generate_resources`. */
  function AddSegment(r: Resources, s: Segment): Resources
    requires s.services.Some?
  {
    Resources(r.carriers.SetDefault(s.transport.carriers.marketing).SetDefault(s.transport.carriers.operating),
              r.cabinClasses.SetDefault(s.services.value.cabinClass),
              AddStops(r.locations.SetDefault(s.route.departure.location).SetDefault(s.route.arrival.location), s.route.technicalStop),
              r.equipments.SetDefault(s.transport.equipment))
  }

  lemma {:induction false} AddStopsFromKeys(codes: seq<string>, stops: seq<TechnicalStop>)
    ensures AddStops(FromKeys(codes), stops) == FromKeys(codes + StopCodes(stops))
  {
    if stops == [] {
      assert codes + StopCodes(stops) == codes;
    } else {
      var init, last := stops[..|stops| - 1], stops[|stops| - 1];
      var x, y := last.arrival.location, last.departure.location;
      AddStopsFromKeys(codes, init);
      var a := codes + StopCodes(init);
      FromKeysSnoc(a, x);
      FromKeysSnoc(a + [x], y);
      assert StopCodes(stops) == StopCodes(init) + [x, y];
      assert codes + StopCodes(stops) == a + [x] + [y];
      calc {
        AddStops(FromKeys(codes), stops);
        AddStops(FromKeys(codes), init).SetDefault(x).SetDefault(y);
        FromKeys(a).SetDefault(x).SetDefault(y);
        FromKeys(a + [x] + [y]);
      }
    }
  }

  lemma CarriersSnoc(segs: seq<Segment>, s: Segment)
    requires Serviced(segs) && s.services.Some?
    ensures Serviced(segs + [s])
    ensures FromKeys(CategoryCodes(Carriers, segs + [s]))
         == FromKeys(CategoryCodes(Carriers, segs)).SetDefault(s.transport.carriers.marketing).SetDefault(s.transport.carriers.operating)
  {
    var m, o := s.transport.carriers.marketing, s.transport.carriers.operating;
    var cs := CategoryCodes(Carriers, segs);
    CategoryCodesSnoc(Carriers, segs, s);
    FromKeysSnoc(cs, m);
    FromKeysSnoc(cs + [m], o);
    assert CategoryCodes(Carriers, segs + [s]) == cs + [m] + [o];
  }

  lemma LocationSegmentCodes(s: Segment)
    requires s.services.Some?
    ensures SegmentCodes(Locations, s) == [s.route.departure.location, s.route.arrival.location] + StopCodes(s.route.technicalStop)
  {
  }

  lemma LocationCodesSnoc(segs: seq<Segment>, s: Segment)
    requires Serviced(segs) && s.services.Some?
    ensures Serviced(segs + [s])
    ensures CategoryCodes(Locations, segs + [s])
         == CategoryCodes(Locations, segs) + [s.route.departure.location] + [s.route.arrival.location] + StopCodes(s.route.technicalStop)
  {
    var ls, sc := CategoryCodes(Locations, segs), StopCodes(s.route.technicalStop);
    var dep, arr := s.route.departure.location, s.route.arrival.location;
    CategoryCodesSnoc(Locations, segs, s);
    LocationSegmentCodes(s);
    assert ls + ([dep, arr] + sc) == ls + [dep] + [arr] + sc;
  }

  lemma FromKeysSnocTwice(codes: seq<string>, x: string, y: string)
    ensures FromKeys(codes + [x] + [y]) == FromKeys(codes).SetDefault(x).SetDefault(y)
  {
    FromKeysSnoc(codes, x);
    FromKeysSnoc(codes + [x], y);
  }

  lemma LocationsSnoc(segs: seq<Segment>, s: Segment)
    requires Serviced(segs) && s.services.Some?
    ensures Serviced(segs + [s])
    ensures FromKeys(CategoryCodes(Locations, segs + [s]))
         == AddStops(FromKeys(CategoryCodes(Locations, segs)).SetDefault(s.route.departure.location).SetDefault(s.route.arrival.location),
                     s.route.technicalStop)
  {
    var ls := CategoryCodes(Locations, segs);
    var dep, arr, stops := s.route.departure.location, s.route.arrival.location, s.route.technicalStop;
    LocationCodesSnoc(segs, s);
    FromKeysSnocTwice(ls, dep, arr);
    AddStopsFromKeys(ls + [dep] + [arr], stops);
  }

  lemma CabinClassesSnoc(segs: seq<Segment>, s: Segment)
    requires Serviced(segs) && s.services.Some?
    ensures Serviced(segs + [s])
    ensures FromKeys(CategoryCodes(CabinClasses, segs + [s]))
         == FromKeys(CategoryCodes(CabinClasses, segs)).SetDefault(s.services.value.cabinClass)
  {
    CategoryCodesSnoc(CabinClasses, segs, s);
    FromKeysSnoc(CategoryCodes(CabinClasses, segs), s.services.value.cabinClass);
  }

  lemma EquipmentsSnoc(segs: seq<Segment>, s: Segment)
    requires Serviced(segs) && s.services.Some?
    ensures Serviced(segs + [s])
    ensures FromKeys(CategoryCodes(Equipments, segs + [s]))
         == FromKeys(CategoryCodes(Equipments, segs)).SetDefault(s.transport.equipment)
  {
    CategoryCodesSnoc(Equipments, segs, s);
    FromKeysSnoc(CategoryCodes(Equipments, segs), s.transport.equipment);
  }

  lemma ResourcesFromSnoc(segs: seq<Segment>, s: Segment)
    requires Serviced(segs) && s.services.Some?
    ensures Serviced(segs + [s])
    ensures ResourcesFrom(segs + [s]) == AddSegment(ResourcesFrom(segs), s)
  {
    CarriersSnoc(segs, s);
    CabinClassesSnoc(segs, s);
    LocationsSnoc(segs, s);
    EquipmentsSnoc(segs, s);
  }

  /** The technical-stop loop of `generate_resources`. */
  method SetDefaultStops(locations: Dict, stops: seq<TechnicalStop>) returns (d: Dict)
    ensures d == AddStops(locations, stops)
  {
    d := locations;
    for k := 0 to |stops|
      invariant d == AddStops(locations, stops[..k])
    {
      var stop := stops[k];
      assert stops[..k + 1][..k] == stops[..k];
      d := d.SetDefault(stop.arrival.location);
      d := d.SetDefault(stop.departure.location);
    }
    assert stops[..|stops|] == stops;
  }

  /** The resources after visiting `segs` in order, starting from `r`. */
  function AddSegments(r: Resources, segs: seq<Segment>): Resources
    requires Serviced(segs)
  {
    if segs == [] then r else AddSegment(AddSegments(r, segs[..|segs| - 1]), segs[|segs| - 1])
  }

  lemma {:induction false} AddSegmentsAppend(r: Resources, a: seq<Segment>, b: seq<Segment>)
    requires Serviced(a) && Serviced(b)
    ensures Serviced(a + b)
    ensures AddSegments(r, a + b) == AddSegments(AddSegments(r, a), b)
  {
    SegmentsServicedAppend(a, b);
    if b == [] {
      assert a + b == a;
    } else {
      var init, last := b[..|b| - 1], b[|b| - 1];
      assert (a + b)[..|a + b| - 1] == a + init && (a + b)[|a + b| - 1] == last;
      AddSegmentsAppend(r, a, init);
    }
  }

  /** Visiting the segments from empty dictionaries yields the resources
      derived from them. */
  lemma {:induction false} AddSegmentsFromEmpty(segs: seq<Segment>)
    requires Serviced(segs)
    ensures AddSegments(Resources(EmptyDict, EmptyDict, EmptyDict, EmptyDict), segs) == ResourcesFrom(segs)
  {
    if segs != [] {
      var init := segs[..|segs| - 1];
      assert segs == init + [segs[|segs| - 1]];
      AddSegmentsFromEmpty(init);
      ResourcesFromSnoc(init, segs[|segs| - 1]);
    }
  }

  /** `generate_resources`: one pass over legs and segments, `setdefault`-ing
      every code into its category. */
  method GenerateResources(legs: seq<Leg>) returns (r: Resources)
    requires LegsServiced(legs)
    ensures r == ResourcesOf(legs)
  {
    var carriers, cabinClasses, locations, equipments := EmptyDict, EmptyDict, EmptyDict, EmptyDict;
    ghost var empty := Resources(EmptyDict, EmptyDict, EmptyDict, EmptyDict);
    for i := 0 to |legs|
      invariant LegsServiced(legs[..i]) && Serviced(AllSegments(legs[..i]))
      invariant Resources(carriers, cabinClasses, locations, equipments) == AddSegments(empty, AllSegments(legs[..i]))
    {
      var segments := legs[i].segments;
      ghost var start := Resources(carriers, cabinClasses, locations, equipments);
      for j := 0 to |segments|
        invariant Resources(carriers, cabinClasses, locations, equipments) == AddSegments(start, segments[..j])
      {
        var segment := segments[j];
        TakeSnoc(segments, j);

        carriers := carriers.SetDefault(segment.transport.carriers.marketing);
        carriers := carriers.SetDefault(segment.transport.carriers.operating);
        cabinClasses := cabinClasses.SetDefault(segment.services.value.cabinClass);
        equipments := equipments.SetDefault(segment.transport.equipment);

        locations := locations.SetDefault(segment.route.departure.location);
        locations := locations.SetDefault(segment.route.arrival.location);
        locations := SetDefaultStops(locations, segment.route.technicalStop);
      }
      TakeAll(segments);
      AllSegmentsSnoc(legs, i);
      AddSegmentsAppend(empty, AllSegments(legs[..i]), segments);
      assert legs[..i + 1][..i] == legs[..i];
      AllSegmentsServiced(legs[..i + 1]);
    }
    TakeAll(legs);
    AllSegmentsServiced(legs);
    AddSegmentsFromEmpty(AllSegments(legs));
    r := Resources(carriers, cabinClasses, locations, equipments);
  }

  /** `SearchResponseData(id, provider, legs, passengers)`: the group id and
      the resources are derived from the legs, never passed in; a segment
      without services makes construction fail. */
  function NewSearchResponseData(id: Option<string>, provider: Provider, legs: seq<Leg>,
                                 passengers: map<string, Passenger>, md5: string -> string): (r: Result<SearchResponseData, ConstructionError>)
    ensures r.Failure? <==> exists i, j :: 0 <= i < |legs| && 0 <= j < |legs[i].segments| && legs[i].segments[j].services.None?
    ensures r.Failure? ==> r.error == MissingServices
    ensures r.Success? ==> LegsServiced(legs) && r.value.groupId == GroupId(legs, md5) && r.value.resources == ResourcesOf(legs)
    ensures r.Success? ==> r.value.id == id && r.value.provider == provider && r.value.legs == legs && r.value.passengers == passengers
  {
    if LegsServiced(legs) then Success(SearchResponseData(id, GroupId(legs, md5), provider, ResourcesOf(legs), legs, passengers))
    else Failure(MissingServices)
  }
}
