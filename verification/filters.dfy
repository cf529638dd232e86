/** The multi-value lookup filter of the reference-data endpoints: the request's
    values for the view's lookup field are kept when they match the view's
    anchored lookup pattern, upper-cased, and bound to `<field>__in`; a request
    with no surviving value is a parse error. */
module Filters {
  import opened Wrappers
  import Converters

  /** The lookup patterns in use: `[A-Za-z]{3}` (airports), `[A-Za-z0-9]{2}`
      (airlines) and the default `(.*?)` of a view without a pattern. */
  datatype Pattern = ThreeLetters | TwoAlphanumerics | AnyText

  datatype View = View(lookupField: string, pattern: Pattern)

  const AirportView := View("code", ThreeLetters)
  const AirlineView := View("code", TwoAlphanumerics)

  predicate IsAsciiLetter(c: char) {
    'a' <= c <= 'z' || 'A' <= c <= 'Z'
  }

  predicate IsAsciiAlphanumeric(c: char) {
    IsAsciiLetter(c) || '0' <= c <= '9'
  }

  /** The pattern's body matches the whole of `v` (`.` does not match a newline). */
  predicate BodyMatches(p: Pattern, v: string) {
    match p
    case ThreeLetters => |v| == 3 && forall i :: 0 <= i < 3 ==> IsAsciiLetter(v[i])
    case TwoAlphanumerics => |v| == 2 && forall i :: 0 <= i < 2 ==> IsAsciiAlphanumeric(v[i])
    case AnyText => forall i :: 0 <= i < |v| ==> v[i] != '\n'
  }

  /** `re.match("^<body>$", v)`: `$` matches at the end or just before a
      final newline, so one trailing newline is accepted too. */
  predicate PatternMatches(p: Pattern, v: string) {
    BodyMatches(p, v) || (|v| > 0 && v[|v| - 1] == '\n' && BodyMatches(p, v[..|v| - 1]))
  }

  /** `[c.upper() for c in values if p.match(c)]` */
  function Cleaned(p: Pattern, values: seq<string>): (r: seq<string>)
    ensures |r| <= |values|
  {
    if values == [] then []
    else if PatternMatches(p, values[0]) then [Converters.UpperStr(values[0])] + Cleaned(p, values[1..])
    else Cleaned(p, values[1..])
  }

  datatype ParseError = ParseError

  /** The lookup handed to the query set: `{"<field>__in": values}`. */
  datatype Lookup = Lookup(parameter: string, values: seq<string>)

  /** `MultiValueFilter.filter_queryset` up to the query-set hand-off. */
  function FilterLookup(view: View, values: seq<string>): (r: Result<Lookup, ParseError>)
    ensures r.Failure? <==> forall v :: v in values ==> !PatternMatches(view.pattern, v)
    ensures r.Success? ==> r.value.parameter == view.lookupField + "__in"
    ensures r.Success? ==> r.value.values == Cleaned(view.pattern, values) && r.value.values != []
  {
    CleanedEmpty(view.pattern, values);
    var cleaned := Cleaned(view.pattern, values);
    if cleaned == [] then Failure(ParseError)
    else Success(Lookup(view.lookupField + "__in", cleaned))
  }

  /** Nothing survives exactly when no value matches. */
  lemma {:induction false} CleanedEmpty(p: Pattern, values: seq<string>)
    ensures Cleaned(p, values) == [] <==> forall v :: v in values ==> !PatternMatches(p, v)
  {
    if values != [] {
      CleanedEmpty(p, values[1..]);
      assert forall v :: v in values <==> v == values[0] || v in values[1..];
    }
  }

  /** A value is kept exactly when it is the upper-cased form of a matching input. */
  lemma {:induction false} CleanedMembers(p: Pattern, values: seq<string>, x: string)
    ensures x in Cleaned(p, values) <==>
            exists v :: v in values && PatternMatches(p, v) && Converters.UpperStr(v) == x
  {
    if values != [] {
      CleanedMembers(p, values[1..], x);
      assert forall v :: v in values <==> v == values[0] || v in values[1..];
    }
  }

  /** Kept values stay in input order: filtering distributes over concatenation. */
  lemma {:induction false} CleanedAppend(p: Pattern, a: seq<string>, b: seq<string>)
    ensures Cleaned(p, a + b) == Cleaned(p, a) + Cleaned(p, b)
  {
    if a != [] {
      CleanedAppend(p, a[1..], b);
      assert (a + b)[0] == a[0] && (a + b)[1..] == a[1..] + b;
    } else {
      assert a + b == b;
    }
  }

  /** Upper-casing a matching value keeps it matching. */
  lemma UpperKeepsMatch(p: Pattern, v: string)
    requires PatternMatches(p, v)
    ensures PatternMatches(p, Converters.UpperStr(v))
  {
    var u := Converters.UpperStr(v);
    if !BodyMatches(p, v) {
      var w := v[..|v| - 1];
      Converters.UpperStrAppend(w, "\n");
      assert v == w + "\n";
      assert u[..|u| - 1] == Converters.UpperStr(w);
    }
  }

  /** Cleaning an already cleaned list changes nothing. */
  lemma {:induction false} CleanedIdempotent(p: Pattern, values: seq<string>)
    ensures Cleaned(p, Cleaned(p, values)) == Cleaned(p, values)
  {
    if values != [] {
      CleanedIdempotent(p, values[1..]);
      if PatternMatches(p, values[0]) {
        UpperKeepsMatch(p, values[0]);
        Converters.UpperStrIdempotent(values[0]);
        var c := Cleaned(p, values);
        assert c[0] == Converters.UpperStr(values[0]) && c[1..] == Cleaned(p, values[1..]);
      }
    }
  }

  /** Without a lookup pattern every single-line value is accepted. */
  lemma AnyTextAcceptsLines(v: string)
    requires forall i :: 0 <= i < |v| ==> v[i] != '\n'
    ensures PatternMatches(AnyText, v)
  {
  }

  /** The airline lookup of `a3`, `fr` and `no` keeps all three, upper-cased. */
  lemma AirlineExample()
    ensures FilterLookup(AirlineView, ["a3", "fr", "no"]) == Success(Lookup("code__in", ["A3", "FR", "NO"]))
  {
    assert PatternMatches(TwoAlphanumerics, "a3") && PatternMatches(TwoAlphanumerics, "fr")
      && PatternMatches(TwoAlphanumerics, "no");
    assert Converters.UpperStr("a3") == "A3";
    assert Converters.UpperStr("fr") == "FR";
    assert Converters.UpperStr("no") == "NO";
    var vs := ["a3", "fr", "no"];
    assert Cleaned(TwoAlphanumerics, vs[3..]) == [];
    assert Cleaned(TwoAlphanumerics, vs[2..]) == ["NO"];
    assert Cleaned(TwoAlphanumerics, vs[1..]) == ["FR", "NO"];
    assert Cleaned(TwoAlphanumerics, vs) == ["A3", "FR", "NO"];
    assert AirlineView.lookupField + "__in" == "code__in";
  }

  /** A request without values is a parse error. */
  lemma NoValuesExample(view: View)
    ensures FilterLookup(view, []) == Failure(ParseError)
  {
  }

  /** The anchored pattern lets one trailing newline through: `ath\n` passes
      the airport lookup and is kept as `ATH\n`. */
  lemma TrailingNewlineExample()
    ensures FilterLookup(AirportView, ["ath\n", "athens"]) == Success(Lookup("code__in", ["ATH\n"]))
  {
    assert "ath\n"[..3] == "ath";
    assert PatternMatches(ThreeLetters, "ath\n");
    assert !PatternMatches(ThreeLetters, "athens");
    assert Converters.UpperStr("ath\n") == "ATH\n";
    var vs := ["ath\n", "athens"];
    assert Cleaned(ThreeLetters, vs[2..]) == [];
    assert Cleaned(ThreeLetters, vs[1..]) == [];
    assert Cleaned(ThreeLetters, vs) == ["ATH\n"];
    assert AirportView.lookupField + "__in" == "code__in";
  }
}
