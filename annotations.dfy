/**
 * The specifications of the annotation grammar: `[Type]`, `[Type(v, ...)]`
 * with positional values, `[Type(name = v, ...)]` with named values, and
 * the values themselves: literals, decimals, arrays, maps, constructor
 * calls and enum references. Every value is one `AnnotationField` node; a
 * malformed one recovers in statement context and the enclosing loop
 * carries on from wherever the recovery stopped.
 *
 * Every specification extends the log of the events issued before it.
 */
module Annotations {
  import opened Tokens
  import opened SchemaText
  import opened Recovery
  import opened Statements
  import opened Diagnostics

  /**
   * A literal value at `p`: one `OptionValue` leaf, or, for an integer
   * followed by the identifier `.`, the three leaves of a decimal, which
   * must end in an integer.
   */
  function LiteralSpec(toks: seq<Token>, p: nat, log: Log): (o: Outcome)
    requires p < |toks|
    ensures WellFormed(toks, o) && Advances(o, p)
    ensures o.Reject? <==> toks[p].kind == Integer && IsWord(toks, p + 1, ".") && !IsKind(toks, p + 2, Integer)
    ensures o.Reject? ==> o.at == p + 2 && o.closeAs == AnnotationField
    ensures o.Accept? ==> o.end == (if toks[p].kind == Integer && IsWord(toks, p + 1, ".") then p + 3 else p + 1)
  {
    var value := Leaf(log, toks, p, OptionValue);
    if toks[p].kind == Integer && IsWord(toks, p + 1, ".") then
      var point := Leaf(value, toks, p + 1, OptionValue);
      if !IsKind(toks, p + 2, Integer) then
        Reject(p + 2, point, AnnotationField, DecimalDigitsMissing)
      else
        Accept(p + 3, Leaf(point, toks, p + 2, OptionValue))
    else
      Accept(p + 1, value)
  }

  /**
   * `parseAnnotationField` at `p`: one `AnnotationField` node around a
   * value.
   */
  function AnnotationFieldSpec(toks: seq<Token>, p: nat, log: Log): (o: Outcome)
    requires p <= |toks|
    ensures WellFormed(toks, o) && Reaches(o, p)
    ensures o.Reject? ==> p < o.at && o.closeAs == AnnotationField
    decreases |toks| - p, 4
  {
    FieldValueSpec(toks, p, Then(log, Open))
  }

  /**
   * The value inside an annotation field at `p`, dispatched on its first
   * token: a literal, an array, a map or an identifier. Anything else is an
   * empty value and consumes nothing.
   */
  function FieldValueSpec(toks: seq<Token>, p: nat, m: Log): (o: Outcome)
    requires p <= |toks|
    ensures WellFormed(toks, o) && Reaches(o, p)
    ensures o.Reject? ==> p < o.at && o.closeAs == AnnotationField
    decreases |toks| - p, 3
  {
    if p < |toks| && MatchesOptionPattern(toks[p].text) then
      LiteralSpec(toks, p, m)
    else if IsKind(toks, p, LBracket) then
      ArrayValueSpec(toks, p, m)
    else if IsKind(toks, p, LBrace) then
      MapValueSpec(toks, p, m)
    else if IsKind(toks, p, Identifier) then
      var r := ReferenceValueSpec(toks, p, m);
      Accept(r.end, r.log)
    else
      Accept(p, m)
  }

  /** An array value on the `[` at `p`: `[]`, or elements up to the closing `]`. */
  function ArrayValueSpec(toks: seq<Token>, p: nat, m: Log): (o: Outcome)
    requires p < |toks|
    ensures WellFormed(toks, o) && Advances(o, p)
    ensures o.Reject? ==> o.closeAs == AnnotationField
    decreases |toks| - p, 2
  {
    var open := Then(m, Tok(toks[p]));
    if IsKind(toks, p + 1, RBracket) then Accept(p + 2, Then(open, Tok(toks[p + 1])))
    else ArrayElementsSpec(toks, p + 1, open)
  }

  /** The loop of a non-empty array value `[v, ...]`, from the element at `q`. */
  function ArrayElementsSpec(toks: seq<Token>, q: nat, acc: Log): (o: Outcome)
    requires q <= |toks|
    ensures WellFormed(toks, o)
    ensures o.Accept? ==> q < o.end
    ensures o.Reject? ==> q <= o.at && o.closeAs == AnnotationField
    decreases |toks| - q, 6
  {
    var f := AnnotationFieldSpec(toks, q, acc);
    var fin := Finish(toks, f, AnnotationField, Statement);
    var e := fin.end;
    var elements := fin.log;
    if IsKind(toks, e, RBracket) then
      Accept(e + 1, Then(elements, Tok(toks[e])))
    else if !IsKind(toks, e, Comma) then
      Reject(e, elements, AnnotationField, ArrayCommaMissing)
    else
      ArrayElementsSpec(toks, e + 1, Then(elements, Tok(toks[e])))
  }

  /** One turn of the array-elements loop that ends on a `,`. */
  lemma ArrayElementsStep(toks: seq<Token>, q: nat, acc: Log, e: nat, evs: Log)
    requires q <= |toks|
    requires var fin := Finish(toks, AnnotationFieldSpec(toks, q, acc), AnnotationField, Statement);
      && !IsKind(toks, fin.end, RBracket) && IsKind(toks, fin.end, Comma)
      && e == fin.end + 1 && evs == Then(fin.log, Tok(toks[fin.end]))
    ensures ArrayElementsSpec(toks, q, acc) == ArrayElementsSpec(toks, e, evs)
  {
  }

  /** A map value on the `{` at `p`: `{}`, or entries up to the closing `}`. */
  function MapValueSpec(toks: seq<Token>, p: nat, m: Log): (o: Outcome)
    requires p < |toks|
    ensures WellFormed(toks, o) && Advances(o, p)
    ensures o.Reject? ==> o.closeAs == AnnotationField
    decreases |toks| - p, 2
  {
    var open := Then(m, Tok(toks[p]));
    if IsKind(toks, p + 1, RBrace) then Accept(p + 2, Then(open, Tok(toks[p + 1])))
    else MapEntriesSpec(toks, p + 1, open)
  }

  /** One map entry `k: v` at `q`; the `:` is a `TypeName` leaf. */
  function MapEntrySpec(toks: seq<Token>, q: nat, acc: Log): (o: Outcome)
    requires q <= |toks|
    ensures WellFormed(toks, o) && Reaches(o, q)
    ensures o.Accept? ==> q < o.end
    ensures o.Reject? ==> o.closeAs == AnnotationField
    decreases |toks| - q, 5
  {
    var k := AnnotationFieldSpec(toks, q, acc);
    var keyFin := Finish(toks, k, AnnotationField, Statement);
    var c := keyFin.end;
    if !IsKind(toks, c, Colon) then
      Reject(c, keyFin.log, AnnotationField, MapColonMissing)
    else
      var v := AnnotationFieldSpec(toks, c + 1, Leaf(keyFin.log, toks, c, TypeName));
      var valueFin := Finish(toks, v, AnnotationField, Statement);
      Accept(valueFin.end, valueFin.log)
  }
  /** The loop of a non-empty map value `{k: v, ...}`, from the key at `q`. */
  function MapEntriesSpec(toks: seq<Token>, q: nat, acc: Log): (o: Outcome)
    requires q <= |toks|
    ensures WellFormed(toks, o)
    ensures o.Accept? ==> q < o.end
    ensures o.Reject? ==> q <= o.at && o.closeAs == AnnotationField
    decreases |toks| - q, 6
  {
    var entry := MapEntrySpec(toks, q, acc);
    if entry.Reject? then entry
    else
      var e := entry.end;
      if IsKind(toks, e, RBrace) then
        Accept(e + 1, Then(entry.evs, Tok(toks[e])))
      else if !IsKind(toks, e, Comma) then
        Reject(e, entry.evs, AnnotationField, MapCommaMissing)
      else
        MapEntriesSpec(toks, e + 1, Then(entry.evs, Tok(toks[e])))
  }

  /** One turn of the map-entries loop that ends on a `,`. */
  lemma MapEntriesStep(toks: seq<Token>, q: nat, acc: Log, e: nat, evs: Log)
    requires q <= |toks|
    requires var entry := MapEntrySpec(toks, q, acc);
      && entry.Accept? && !IsKind(toks, entry.end, RBrace) && IsKind(toks, entry.end, Comma)
      && e == entry.end + 1 && evs == Then(entry.evs, Tok(toks[entry.end]))
    ensures MapEntriesSpec(toks, q, acc) == MapEntriesSpec(toks, e, evs)
  {
  }

  /**
   * An identifier value at `p`: a constructor call `Name(v, ...)` when a
   * `(` follows, whose name is highlighted segment by segment between the
   * dots; otherwise a plain name, or an enum reference when it holds a dot.
   */
  function ReferenceValueSpec(toks: seq<Token>, p: nat, m: Log): (r: Parsed)
    requires p < |toks|
    ensures p < r.end <= |toks|
    decreases |toks| - p, 2
  {
    var text := toks[p].text;
    if IsKind(toks, p + 1, LParentheses) then
      var a := FieldArraySpec(toks, p + 1, Leaf(m, toks, p, Ranged("Method Initializing", DotSplit(text))));
      Finish(toks, a, AnnotationFieldArray, Statement)
    else if IndexOf(text, '.') == -1 then
      Parsed(p + 1, Leaf(m, toks, p, TypeName))
    else
      Parsed(p + 1, Leaf(m, toks, p, Ranged("Enum Reference", EnumReferenceEntries(text))))
  }

  /** A constructor call continues with the arguments array at `e`, after the name leaf `evs`. */
  lemma ConstructorCall(toks: seq<Token>, p: nat, m: Log, e: nat, evs: Log)
    requires p < |toks| && IsKind(toks, p + 1, LParentheses)
    requires e == p + 1 && evs == Leaf(m, toks, p, Ranged("Method Initializing", DotSplit(toks[p].text)))
    ensures ReferenceValueSpec(toks, p, m) == Finish(toks, FieldArraySpec(toks, e, evs), AnnotationFieldArray, Statement)
  {
  }

  /**
   * `parseAnnotationFieldArray` on the `(` at `p`: positional values, then
   * the closing `)` consumed (nothing at end of input).
   */
  function FieldArraySpec(toks: seq<Token>, p: nat, log: Log): (o: Outcome)
    requires p < |toks|
    ensures WellFormed(toks, o) && Advances(o, p)
    ensures o.Reject? ==> o.closeAs == AnnotationFieldArray
    decreases |toks| - p, 1
  {
    var items := FieldArrayItemsSpec(toks, p + 1, Then(Then(log, Open), Tok(toks[p])));
    if items.Reject? then items
    else Accept(if items.end < |toks| then items.end + 1 else items.end, TokAt(items.evs, toks, items.end))
  }

  /**
   * The loop of `parseAnnotationFieldArray` from `q`: at end of input it
   * stops without error; otherwise a value, then a `)` stops it (left for
   * the caller to consume) and a `,` goes on.
   */
  function FieldArrayItemsSpec(toks: seq<Token>, q: nat, acc: Log): (o: Outcome)
    requires q <= |toks|
    ensures WellFormed(toks, o) && Reaches(o, q)
    ensures o.Reject? ==> o.closeAs == AnnotationFieldArray
    decreases |toks| - q, 6
  {
    if q == |toks| then Accept(q, acc)
    else
      var f := AnnotationFieldSpec(toks, q, acc);
      var fin := Finish(toks, f, AnnotationField, Statement);
      var e := fin.end;
      var items := fin.log;
      if IsKind(toks, e, RParentheses) then
        Accept(e, items)
      else if !IsKind(toks, e, Comma) then
        Reject(e, items, AnnotationFieldArray, ArrayCommaMissing)
      else
        FieldArrayItemsSpec(toks, e + 1, Then(items, Tok(toks[e])))
  }

  /**
   * One turn of the `parseAnnotationFieldArray` loop that ends on a `,`: the
   * loop goes on after it at `e` with the log `evs`.
   */
  lemma FieldArrayItemsStep(toks: seq<Token>, q: nat, acc: Log, e: nat, evs: Log)
    requires q < |toks|
    requires var fin := Finish(toks, AnnotationFieldSpec(toks, q, acc), AnnotationField, Statement);
      && !IsKind(toks, fin.end, RParentheses) && IsKind(toks, fin.end, Comma)
      && e == fin.end + 1 && evs == Then(fin.log, Tok(toks[fin.end]))
    ensures FieldArrayItemsSpec(toks, q, acc) == FieldArrayItemsSpec(toks, e, evs)
  {
  }

  /** One named annotation value `name = v` at `q`. */
  function NamedFieldSpec(toks: seq<Token>, q: nat, acc: Log): (o: Outcome)
    requires q <= |toks|
    ensures WellFormed(toks, o) && Reaches(o, q)
    ensures o.Accept? ==> q + 2 <= o.end
    ensures o.Reject? ==> o.closeAs == Annotation
  {
    if !IsKind(toks, q, Identifier) then
      Reject(q, acc, Annotation, AnnotationFieldNameMissing)
    else if !IsKind(toks, q + 1, Equals) then
      Reject(q + 1, Then(acc, Tok(toks[q])), Annotation, AnnotationEqualsMissing)
    else
      var f := AnnotationFieldSpec(toks, q + 2, Then(Then(acc, Tok(toks[q])), Tok(toks[q + 1])));
      var fin := Finish(toks, f, AnnotationField, Statement);
      Accept(fin.end, fin.log)
  }

  /** The loop of named annotation values `name = v, ...`, from `q`, up to and including the `)`. */
  function NamedFieldsSpec(toks: seq<Token>, q: nat, acc: Log): (o: Outcome)
    requires q <= |toks|
    ensures WellFormed(toks, o) && Reaches(o, q)
    ensures o.Reject? ==> o.closeAs == Annotation
    decreases |toks| - q
  {
    var f := NamedFieldSpec(toks, q, acc);
    if f.Reject? then f
    else
      var e := f.end;
      if IsKind(toks, e, RParentheses) then
        Accept(e + 1, Then(f.evs, Tok(toks[e])))
      else if !IsKind(toks, e, Comma) then
        Reject(e, f.evs, Annotation, AnnotationCommaMissing)
      else
        NamedFieldsSpec(toks, e + 1, Then(f.evs, Tok(toks[e])))
  }

  /** One turn of the named-values loop that ends on a `,`. */
  lemma NamedFieldsStep(toks: seq<Token>, q: nat, acc: Log, e: nat, evs: Log)
    requires q <= |toks|
    requires var f := NamedFieldSpec(toks, q, acc);
      && f.Accept? && !IsKind(toks, f.end, RParentheses) && IsKind(toks, f.end, Comma)
      && e == f.end + 1 && evs == Then(f.evs, Tok(toks[f.end]))
    ensures NamedFieldsSpec(toks, q, acc) == NamedFieldsSpec(toks, e, evs)
  {
  }

  /** The closing `]` of an annotation, expected at `r`. */
  function CloseAnnotation(toks: seq<Token>, r: nat, evs: Log): (o: Outcome)
    requires r <= |toks|
    ensures WellFormed(toks, o)
    ensures o.Accept? <==> IsKind(toks, r, RBracket)
    ensures o.Accept? ==> o.end == r + 1 && o.evs == Then(evs, Tok(toks[r]))
    ensures o.Reject? ==> o.at == r && o.evs == evs && o.closeAs == Annotation
  {
    if !IsKind(toks, r, RBracket) then
      Reject(r, evs, Annotation, AnnotationEndMissing)
    else
      Accept(r + 1, Then(evs, Tok(toks[r])))
  }

  /**
   * The arguments of an annotation, from `q` after its type name: none
   * unless a `(` follows; named values when the token two places on is `=`,
   * positional values otherwise.
   */
  function AnnotationArgumentsSpec(toks: seq<Token>, q: nat, typed: Log): (o: Outcome)
    requires q <= |toks|
    ensures WellFormed(toks, o) && Reaches(o, q)
    ensures o.Reject? ==> o.closeAs == Annotation
  {
    if !IsKind(toks, q, LParentheses) then
      Accept(q, typed)
    else if IsKind(toks, q + 2, Equals) then
      NamedFieldsSpec(toks, q + 1, Then(typed, Tok(toks[q])))
    else
      var fin := Finish(toks, FieldArraySpec(toks, q, typed), AnnotationFieldArray, Statement);
      Accept(fin.end, fin.log)
  }

  /** The arguments, if any, and the closing `]` of an annotation, from `q` after its type name. */
  function AnnotationBodySpec(toks: seq<Token>, q: nat, typed: Log): (o: Outcome)
    requires q <= |toks|
    ensures WellFormed(toks, o) && Reaches(o, q)
    ensures o.Reject? ==> o.closeAs == Annotation
  {
    var a := AnnotationArgumentsSpec(toks, q, typed);
    if a.Reject? then a else CloseAnnotation(toks, a.end, a.evs)
  }

  /**
   * `parseAnnotation` on the `[` at `p`: the type name, then the arguments
   * and the closing `]`.
   */
  function AnnotationSpec(toks: seq<Token>, p: nat, log: Log): (o: Outcome)
    requires p < |toks|
    ensures WellFormed(toks, o) && Advances(o, p)
    ensures o.Reject? ==> o.closeAs == Annotation
  {
    var bracket := Then(Then(log, Open), Tok(toks[p]));
    if !IsKind(toks, p + 1, Identifier) then
      Reject(p + 1, bracket, Annotation, AnnotationTypeMissing)
    else
      AnnotationBodySpec(toks, p + 2, Leaf(bracket, toks, p + 1, TypeName))
  }
}
