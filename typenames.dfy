/**
 * The specification of `parseTypeName`: a type reference is an identifier,
 * optionally followed by `<` Identifier (`,` Identifier)* `>`. The scan
 * yields the rendered name used in diagnostics (`Outer<A, B>`) and the
 * log extended with the type marker and the type's children, or the
 * position and message of the first malformation.
 */
module TypeNames {
  import opened Tokens
  import opened Diagnostics

  datatype TypeNameResult =
    | TypeNameOk(name: string, end: nat, evs: Log)
    | TypeNameErr(at: nat, evs: Log, msg: string)

  /**
   * The `while (true)` loop of `parseTypeName` from position `q`, which
   * follows a type parameter; `name` and `evs` are what the loop has built.
   */
  function ScanTypeParameters(toks: seq<Token>, q: nat, name: string, evs: Log): (r: TypeNameResult)
    requires q <= |toks|
    ensures r.TypeNameOk? ==> q < r.end <= |toks| && IsKind(toks, r.end - 1, RAngle) && name <= r.name
    ensures r.TypeNameErr? ==> q <= r.at <= |toks|
    decreases |toks| - q
  {
    if IsKind(toks, q, RAngle) then
      TypeNameOk(name + ">", q + 1, Then(evs, Tok(toks[q])))
    else if IsKind(toks, q, Comma) then
      if IsKind(toks, q + 1, Identifier) then
        ScanTypeParameters(toks, q + 2, name + ", " + toks[q + 1].text,
                           Leaf(Then(evs, Tok(toks[q])), toks, q + 1, TypeParameterName))
      else
        TypeNameErr(q + 1, Then(evs, Tok(toks[q])), TypenameAfterCommaMissing)
    else
      TypeNameErr(q, evs, InvalidInsideAngles(DisplayText(toks, q)))
  }

  /**
   * `parseTypeName` started on the identifier at `p`, after the log `log`.
   * The type marker it opens is left for the caller, which closes it as
   * `FieldType` on success and drops it on failure.
   */
  function ScanTypeName(toks: seq<Token>, p: nat, log: Log): (r: TypeNameResult)
    requires p < |toks|
    ensures r.TypeNameOk? ==> p < r.end <= |toks|
    ensures r.TypeNameErr? ==> IsKind(toks, p + 1, LAngle) && p + 2 <= r.at <= |toks|
    ensures !IsKind(toks, p + 1, LAngle) ==> r == TypeNameOk(toks[p].text, p + 1, Leaf(Then(log, Open), toks, p, TypeName))
  {
    var outer := toks[p].text;
    var head := Leaf(Then(log, Open), toks, p, TypeName);
    if !IsKind(toks, p + 1, LAngle) then
      TypeNameOk(outer, p + 1, head)
    else
      var withAngle := outer + "<";
      if !IsKind(toks, p + 2, Identifier) then
        TypeNameErr(p + 2, Then(head, Tok(toks[p + 1])), TypenameMissing(withAngle))
      else
        ScanTypeParameters(toks, p + 3, withAngle + toks[p + 2].text,
                           Leaf(Then(head, Tok(toks[p + 1])), toks, p + 2, TypeParameterName))
  }

  /** What the scan finds does not depend on the log it extends. */
  predicate SameScan(r1: TypeNameResult, r2: TypeNameResult) {
    match r1
    case TypeNameOk(n, e, _) => r2.TypeNameOk? && r2.name == n && r2.end == e
    case TypeNameErr(a, _, m) => r2.TypeNameErr? && r2.at == a && r2.msg == m
  }

  lemma {:induction false} ScanTypeParametersLogFree(toks: seq<Token>, q: nat, name: string, evs1: Log, evs2: Log)
    requires q <= |toks|
    ensures SameScan(ScanTypeParameters(toks, q, name, evs1), ScanTypeParameters(toks, q, name, evs2))
    decreases |toks| - q
  {
    if !IsKind(toks, q, RAngle) && IsKind(toks, q, Comma) && IsKind(toks, q + 1, Identifier) {
      ScanTypeParametersLogFree(toks, q + 2, name + ", " + toks[q + 1].text,
                                Leaf(Then(evs1, Tok(toks[q])), toks, q + 1, TypeParameterName),
                                Leaf(Then(evs2, Tok(toks[q])), toks, q + 1, TypeParameterName));
    }
  }

  lemma ScanTypeNameLogFree(toks: seq<Token>, p: nat, log1: Log, log2: Log)
    requires p < |toks|
    ensures SameScan(ScanTypeName(toks, p, log1), ScanTypeName(toks, p, log2))
  {
    if IsKind(toks, p + 1, LAngle) && IsKind(toks, p + 2, Identifier) {
      var n := toks[p].text + "<" + toks[p + 2].text;
      ScanTypeParametersLogFree(toks, p + 3, n,
        Leaf(Then(Leaf(Then(log1, Open), toks, p, TypeName), Tok(toks[p + 1])), toks, p + 2, TypeParameterName),
        Leaf(Then(Leaf(Then(log2, Open), toks, p, TypeName), Tok(toks[p + 1])), toks, p + 2, TypeParameterName));
    }
  }

  /** The parameter loop issues no error node of its own. */
  lemma {:induction false} ScanTypeParametersErrorFree(toks: seq<Token>, q: nat, name: string, evs: Log)
    requires q <= |toks|
    ensures ErrorCount(ScanTypeParameters(toks, q, name, evs).evs) == ErrorCount(evs)
    decreases |toks| - q
  {
    if !IsKind(toks, q, RAngle) && IsKind(toks, q, Comma) && IsKind(toks, q + 1, Identifier) {
      LeafEvents(Then(evs, Tok(toks[q])), toks, q + 1, TypeParameterName);
      ScanTypeParametersErrorFree(toks, q + 2, name + ", " + toks[q + 1].text,
                                  Leaf(Then(evs, Tok(toks[q])), toks, q + 1, TypeParameterName));
    }
  }

  /** A type name issues no error node of its own: a malformed one is reported by the caller. */
  lemma ScanTypeNameErrorFree(toks: seq<Token>, p: nat, log: Log)
    requires p < |toks|
    ensures ErrorCount(ScanTypeName(toks, p, log).evs) == ErrorCount(log)
  {
    var head := Leaf(Then(log, Open), toks, p, TypeName);
    LeafEvents(Then(log, Open), toks, p, TypeName);
    if IsKind(toks, p + 1, LAngle) && IsKind(toks, p + 2, Identifier) {
      LeafEvents(Then(head, Tok(toks[p + 1])), toks, p + 2, TypeParameterName);
      ScanTypeParametersErrorFree(toks, p + 3, toks[p].text + "<" + toks[p + 2].text,
                                  Leaf(Then(head, Tok(toks[p + 1])), toks, p + 2, TypeParameterName));
    }
  }

  /**
   * The events the parameter loop adds from `q` on: each `, name` as the
   * comma and a `TypeParameterName` leaf, then the closing `>`.
   */
  function ParameterEvents(toks: seq<Token>, q: nat): seq<Event>
    requires q <= |toks|
    decreases |toks| - q
  {
    if IsKind(toks, q, RAngle) then [Tok(toks[q])]
    else if IsKind(toks, q, Comma) then
      if IsKind(toks, q + 1, Identifier) then
        [Tok(toks[q]), Open, Tok(toks[q + 1]), Close(TypeParameterName)] + ParameterEvents(toks, q + 2)
      else [Tok(toks[q])]
    else []
  }

  /**
   * The events a type name adds from `p` on: the type marker, a `TypeName`
   * leaf, and for a generic type the `<`, a `TypeParameterName` leaf and
   * the rest of the parameters.
   */
  function TypeNameEvents(toks: seq<Token>, p: nat): seq<Event>
    requires p < |toks|
  {
    [Open, Open, Tok(toks[p]), Close(TypeName)]
    + (if !IsKind(toks, p + 1, LAngle) then []
       else [Tok(toks[p + 1])]
            + (if !IsKind(toks, p + 2, Identifier) then []
               else [Open, Tok(toks[p + 2]), Close(TypeParameterName)] + ParameterEvents(toks, p + 3)))
  }

  /** The parameter loop appends exactly `ParameterEvents` to the log, whatever it was. */
  lemma {:induction false} ScanTypeParametersEvents(toks: seq<Token>, q: nat, name: string, evs: Log)
    requires q <= |toks|
    ensures Events(ScanTypeParameters(toks, q, name, evs).evs) == Events(evs) + ParameterEvents(toks, q)
    decreases |toks| - q
  {
    if !IsKind(toks, q, RAngle) && IsKind(toks, q, Comma) && IsKind(toks, q + 1, Identifier) {
      var evs' := Leaf(Then(evs, Tok(toks[q])), toks, q + 1, TypeParameterName);
      var added := [Tok(toks[q]), Open, Tok(toks[q + 1]), Close(TypeParameterName)];
      LeafEvents(Then(evs, Tok(toks[q])), toks, q + 1, TypeParameterName);
      assert Events(evs') == Events(evs) + added;
      ScanTypeParametersEvents(toks, q + 2, name + ", " + toks[q + 1].text, evs');
      AppendAssoc(Events(evs), added, ParameterEvents(toks, q + 2));
    }
  }

  lemma Regroup<T>(a: seq<T>, b: seq<T>, c: seq<T>, d: seq<T>, e: seq<T>)
    ensures a + b + c + d + e == a + (b + (c + (d + e)))
  {
    AppendAssoc(a + b + c, d, e);
    AppendAssoc(a + b, c, d + e);
    AppendAssoc(a, b, c + (d + e));
  }

  /** A type name appends exactly `TypeNameEvents` to the log, whatever it was. */
  lemma ScanTypeNameEvents(toks: seq<Token>, p: nat, log: Log)
    requires p < |toks|
    ensures Events(ScanTypeName(toks, p, log).evs) == Events(log) + TypeNameEvents(toks, p)
  {
    var head := Leaf(Then(log, Open), toks, p, TypeName);
    var added := [Open, Open, Tok(toks[p]), Close(TypeName)];
    LeafEvents(Then(log, Open), toks, p, TypeName);
    if !IsKind(toks, p + 1, LAngle) {
      assert TypeNameEvents(toks, p) == added + [];
    } else if !IsKind(toks, p + 2, Identifier) {
      assert TypeNameEvents(toks, p) == added + ([Tok(toks[p + 1])] + []);
      AppendAssoc(Events(log), added, [Tok(toks[p + 1])]);
    } else {
      GenericEvents(toks, p, log);
    }
  }

  /** `ScanTypeNameEvents` for a generic type, `Outer < A ...`. */
  lemma GenericEvents(toks: seq<Token>, p: nat, log: Log)
    requires p < |toks| && IsKind(toks, p + 1, LAngle) && IsKind(toks, p + 2, Identifier)
    ensures Events(ScanTypeName(toks, p, log).evs) == Events(log) + TypeNameEvents(toks, p)
  {
    var head := Leaf(Then(log, Open), toks, p, TypeName);
    var angledLog := Then(head, Tok(toks[p + 1]));
    var evs := Leaf(angledLog, toks, p + 2, TypeParameterName);
    var added := [Open, Open, Tok(toks[p]), Close(TypeName)];
    var param := [Open, Tok(toks[p + 2]), Close(TypeParameterName)];
    var rest := ParameterEvents(toks, p + 3);
    LeafEvents(Then(log, Open), toks, p, TypeName);
    LeafEvents(angledLog, toks, p + 2, TypeParameterName);
    var l := Events(log);
    assert Events(evs) == l + added + [Tok(toks[p + 1])] + param;
    ScanTypeParametersEvents(toks, p + 3, toks[p].text + "<" + toks[p + 2].text, evs);
    assert TypeNameEvents(toks, p) == added + ([Tok(toks[p + 1])] + (param + rest));
    Regroup(l, added, [Tok(toks[p + 1])], param, rest);
  }

  /** `, A, B` for the parameters after the first. */
  function JoinTail(ps: seq<string>): string {
    if ps == [] then "" else ", " + ps[0] + JoinTail(ps[1..])
  }

  /** The rendering of a generic type name, `Outer<A, B>`. */
  function RenderTypeName(outer: string, ps: seq<string>): string
    requires |ps| >= 1
  {
    outer + "<" + ps[0] + JoinTail(ps[1..]) + ">"
  }

  /** The tokens from `q` on are `, p0 , p1 ...` for the names `ps`. */
  predicate ParametersAt(toks: seq<Token>, q: nat, ps: seq<string>) {
    forall i :: 0 <= i < |ps| ==>
      && IsKind(toks, q + 2 * i, Comma)
      && IsKind(toks, q + 2 * i + 1, Identifier)
      && toks[q + 2 * i + 1].text == ps[i]
  }

  lemma ParametersAtTail(toks: seq<Token>, q: nat, ps: seq<string>)
    requires ParametersAt(toks, q, ps) && ps != []
    ensures IsKind(toks, q, Comma) && IsKind(toks, q + 1, Identifier) && toks[q + 1].text == ps[0]
    ensures ParametersAt(toks, q + 2, ps[1..])
  {
    assert IsKind(toks, q + 2 * 0, Comma) && IsKind(toks, q + 2 * 0 + 1, Identifier);
    forall i | 0 <= i < |ps[1..]|
      ensures IsKind(toks, q + 2 + 2 * i, Comma) && IsKind(toks, q + 2 + 2 * i + 1, Identifier)
      ensures toks[q + 2 + 2 * i + 1].text == ps[1..][i]
    {
      assert q + 2 + 2 * i == q + 2 * (i + 1);
    }
  }

  lemma JoinTailCons(name: string, ps: seq<string>)
    requires ps != []
    ensures name + ", " + ps[0] + JoinTail(ps[1..]) + ">" == name + JoinTail(ps) + ">"
  {
    assert JoinTail(ps) == ", " + ps[0] + JoinTail(ps[1..]);
    assert name + ", " + ps[0] + JoinTail(ps[1..]) == name + (", " + ps[0] + JoinTail(ps[1..]));
  }

  lemma {:induction false} ScanTypeParametersRoundTrip(toks: seq<Token>, q: nat, ps: seq<string>, name: string, evs: Log)
    requires q <= |toks|
    requires ParametersAt(toks, q, ps) && IsKind(toks, q + 2 * |ps|, RAngle)
    ensures var r := ScanTypeParameters(toks, q, name, evs);
      r.TypeNameOk? && r.name == name + JoinTail(ps) + ">" && r.end == q + 2 * |ps| + 1
    decreases |ps|
  {
    if ps != [] {
      ParametersAtTail(toks, q, ps);
      var name' := name + ", " + ps[0];
      var evs' := Leaf(Then(evs, Tok(toks[q])), toks, q + 1, TypeParameterName);
      ScanTypeParametersRoundTrip(toks, q + 2, ps[1..], name', evs');
      JoinTailCons(name, ps);
    }
  }

  /** The tokens of `, A, B` for the parameters after the first. */
  function TailTokens(ps: seq<string>): (r: seq<Token>)
    ensures |r| == 2 * |ps|
  {
    if ps == [] then [] else [Token(Comma, ","), Token(Identifier, ps[0])] + TailTokens(ps[1..])
  }

  /** The tokens of a generic type reference `Outer < A , B >`. */
  function GenericTokens(outer: string, ps: seq<string>): (r: seq<Token>)
    requires |ps| >= 1
  {
    [Token(Identifier, outer), Token(LAngle, "<"), Token(Identifier, ps[0])] + TailTokens(ps[1..])
      + [Token(RAngle, ">")]
  }

  lemma {:induction false} TailTokensAt(ps: seq<string>, i: nat)
    requires i < |ps|
    ensures TailTokens(ps)[2 * i] == Token(Comma, ",")
    ensures TailTokens(ps)[2 * i + 1] == Token(Identifier, ps[i])
    decreases |ps|
  {
    if i > 0 {
      TailTokensAt(ps[1..], i - 1);
    }
  }

  /** The events of `, A, B`: per parameter, the comma and a `TypeParameterName` leaf. */
  function TailEvents(ps: seq<string>): seq<Event> {
    if ps == [] then []
    else [Tok(Token(Comma, ",")), Open, Tok(Token(Identifier, ps[0])), Close(TypeParameterName)] + TailEvents(ps[1..])
  }

  lemma {:induction false} TailParameterEvents(toks: seq<Token>, q: nat, ps: seq<string>)
    requires q + 2 * |ps| < |toks| && toks[q..q + 2 * |ps|] == TailTokens(ps) && IsKind(toks, q + 2 * |ps|, RAngle)
    ensures ParameterEvents(toks, q) == TailEvents(ps) + [Tok(toks[q + 2 * |ps|])]
    decreases |ps|
  {
    if ps != [] {
      var tt := TailTokens(ps);
      assert tt == [Token(Comma, ","), Token(Identifier, ps[0])] + TailTokens(ps[1..]);
      assert toks[q] == tt[0] && toks[q + 1] == tt[1];
      assert toks[q + 2..q + 2 + 2 * |ps[1..]|] == tt[2..];
      TailParameterEvents(toks, q + 2, ps[1..]);
      AppendAssoc([Tok(toks[q]), Open, Tok(toks[q + 1]), Close(TypeParameterName)], TailEvents(ps[1..]), [Tok(toks[q + 2 * |ps|])]);
    }
  }

  /**
   * Round trip: the tokens of a generic type reference, whatever follows
   * them, scan back to that type's rendering and end right after its `>`.
   */
  lemma TypeNameRoundTrip(outer: string, ps: seq<string>, rest: seq<Token>)
    requires |ps| >= 1
    ensures var g := GenericTokens(outer, ps);
      var r := ScanTypeName(g + rest, 0, Start);
      && r.TypeNameOk? && r.name == RenderTypeName(outer, ps) && r.end == |g|
      && Events(Then(r.evs, Close(FieldType)))
         == [Open, Open, Tok(Token(Identifier, outer)), Close(TypeName),
             Tok(Token(LAngle, "<")), Open, Tok(Token(Identifier, ps[0])), Close(TypeParameterName)]
            + TailEvents(ps[1..]) + [Tok(Token(RAngle, ">")), Close(FieldType)]
  {
    var g := GenericTokens(outer, ps);
    var toks := g + rest;
    var tail := ps[1..];
    assert ParametersAt(toks, 3, tail) by {
      forall i | 0 <= i < |tail|
        ensures IsKind(toks, 3 + 2 * i, Comma) && IsKind(toks, 3 + 2 * i + 1, Identifier)
        ensures toks[3 + 2 * i + 1].text == tail[i]
      {
        TailTokensAt(tail, i);
        assert toks[3 + 2 * i] == TailTokens(tail)[2 * i];
        assert toks[3 + 2 * i + 1] == TailTokens(tail)[2 * i + 1];
      }
    }
    assert toks[3 + 2 * |tail|] == Token(RAngle, ">");
    ScanTypeParametersRoundTrip(toks, 3, tail, outer + "<" + ps[0],
                                Leaf(Then(Leaf(Then(Start, Open), toks, 0, TypeName), Tok(toks[1])), toks, 2, TypeParameterName));
    RoundTripEvents(outer, ps, rest);
  }

  /** A generic type name's events: the two leaves around `<`, then the parameter loop's. */
  lemma GenericTypeNameEvents(toks: seq<Token>, p: nat)
    requires p < |toks| && IsKind(toks, p + 1, LAngle) && IsKind(toks, p + 2, Identifier)
    ensures TypeNameEvents(toks, p)
         == [Open, Open, Tok(toks[p]), Close(TypeName), Tok(toks[p + 1]), Open, Tok(toks[p + 2]), Close(TypeParameterName)]
            + ParameterEvents(toks, p + 3)
  {
    var pe := ParameterEvents(toks, p + 3);
    AppendAssoc([Tok(toks[p + 1])], [Open, Tok(toks[p + 2]), Close(TypeParameterName)], pe);
    AppendAssoc([Open, Open, Tok(toks[p]), Close(TypeName)], [Tok(toks[p + 1])] + [Open, Tok(toks[p + 2]), Close(TypeParameterName)], pe);
  }

  /** Where the pieces of a generic type reference sit in its token list. */
  lemma GenericTokensAt(outer: string, ps: seq<string>, rest: seq<Token>)
    requires |ps| >= 1
    ensures var toks := GenericTokens(outer, ps) + rest;
      && 3 + 2 * |ps[1..]| < |toks|
      && toks[0] == Token(Identifier, outer) && toks[1] == Token(LAngle, "<") && toks[2] == Token(Identifier, ps[0])
      && toks[3..3 + 2 * |ps[1..]|] == TailTokens(ps[1..])
      && toks[3 + 2 * |ps[1..]|] == Token(RAngle, ">")
  {
    var toks := GenericTokens(outer, ps) + rest;
    assert toks[3..3 + 2 * |ps[1..]|] == TailTokens(ps[1..]);
  }

  /** Closing the type marker after a log whose events are `head + tail + [closing]`. */
  lemma ClosedEvents(evs: Log, head: seq<Event>, te: seq<Event>, closing: Event)
    requires Events(evs) == head + (te + [closing])
    ensures Events(Then(evs, Close(FieldType))) == head + te + [closing, Close(FieldType)]
  {
    AppendAssoc(head, te + [closing], [Close(FieldType)]);
    AppendAssoc(te, [closing], [Close(FieldType)]);
    AppendAssoc(head, te, [closing, Close(FieldType)]);
  }

  /** The events half of `TypeNameRoundTrip`. */
  lemma RoundTripEvents(outer: string, ps: seq<string>, rest: seq<Token>)
    requires |ps| >= 1
    ensures var r := ScanTypeName(GenericTokens(outer, ps) + rest, 0, Start);
      Events(Then(r.evs, Close(FieldType)))
      == [Open, Open, Tok(Token(Identifier, outer)), Close(TypeName),
          Tok(Token(LAngle, "<")), Open, Tok(Token(Identifier, ps[0])), Close(TypeParameterName)]
         + TailEvents(ps[1..]) + [Tok(Token(RAngle, ">")), Close(FieldType)]
  {
    var toks := GenericTokens(outer, ps) + rest;
    var tail := ps[1..];
    GenericTokensAt(outer, ps, rest);
    TailParameterEvents(toks, 3, tail);
    ScanTypeNameEvents(toks, 0, Start);
    GenericTypeNameEvents(toks, 0);
    ClosedEvents(ScanTypeName(toks, 0, Start).evs,
                 [Open, Open, Tok(Token(Identifier, outer)), Close(TypeName),
                  Tok(Token(LAngle, "<")), Open, Tok(Token(Identifier, ps[0])), Close(TypeParameterName)],
                 TailEvents(tail), Tok(Token(RAngle, ">")));
  }
}
