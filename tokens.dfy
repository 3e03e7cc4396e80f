/**
 * Tokens, syntax-node kinds and the event log of the tree builder.
 *
 * The lexer is external: a token is a kind plus its text, and a document is
 * a `seq<Token>`. The tree builder is recorded as a log of events in the
 * order the parser issues them: opening a marker, consuming a token,
 * closing the innermost open marker as a kind, closing it as an error with
 * a message, or dropping it.
 */
module Tokens {

  datatype Option<+T> = None | Some(value: T)

  /** The token types the schema lexer produces. */
  datatype TokenKind =
    | Identifier | Integer | StringLit
    | Semicolon | Equals | LAngle | RAngle | Comma
    | LBrace | RBrace | LBracket | RBracket | LParentheses | RParentheses | Colon

  datatype Token = Token(kind: TokenKind, text: string)

  /** Highlight categories used by ranged nodes (presentation only). */
  datatype Highlight = Metadata | Number

  /** A highlighted sub-range [from, to) of one token's text. */
  datatype RangedNodeEntry = RangedNodeEntry(from: int, to: int, attributes: Highlight)

  /** The element types the parser closes markers as. */
  datatype NodeKind =
    | SchemaFile
    | Keyword | DefinitionName
    | PackageDefinition | PackageName
    | ImportDefinition | ImportFilename
    | OptionDefinition | OptionName | OptionValue
    | TypeName | TypeParameterName
    | FieldType | FieldName | FieldNumber
    | EnumDefinition | EnumValueDefinition
    | DataDefinition | FieldDefinition | EventDefinition
    | TypeDefinition | ComponentDefinition | ComponentIdDefinition
    | CommandDefinition | CommandName
    | Annotation | AnnotationField | AnnotationFieldArray
    | Ranged(debugName: string, entries: seq<RangedNodeEntry>)

  /** One call on the tree builder, in issue order. */
  datatype Event =
    | Open
    | Tok(token: Token)
    | Close(kind: NodeKind)
    | ErrorClose(message: string)
    | Drop

  /**
   * The event log, newest event last: `Then(before, last)` is the log
   * `before` followed by the event `last`.
   */
  datatype Log = Start | Then(before: Log, last: Event)

  /** Where a production or a loop left the cursor, and the log up to there. */
  datatype Parsed = Parsed(end: nat, log: Log)

  /** The number of events in a log. */
  function Size(log: Log): nat {
    match log
    case Start => 0
    case Then(before, _) => Size(before) + 1
  }

  /** The log as it was when it held `n` events (`rollbackTo`). */
  function Upto(log: Log, n: nat): (r: Log)
    ensures Size(r) == if n <= Size(log) then n else Size(log)
  {
    if Size(log) <= n then log else Upto(log.before, n)
  }

  /** Rolling back over a marker and one token restores the log before the marker. */
  lemma UptoMark(log: Log, e: Event)
    ensures Upto(Then(Then(log, Open), e), Size(log)) == log
    ensures Upto(Then(log, Open), Size(log)) == log
  {
    assert Upto(Then(log, Open), Size(log)) == Upto(log, Size(log));
  }

  /** Does `log` consist of `base` followed by further events? */
  predicate Extends(log: Log, base: Log) {
    log == base || (log.Then? && Extends(log.before, base))
  }

  /** The log as a sequence, oldest event first. */
  function Events(log: Log): (s: seq<Event>)
    ensures |s| == Size(log)
  {
    match log
    case Start => []
    case Then(before, e) => Events(before) + [e]
  }

  /** Is the token at `p` present and of kind `k`? */
  predicate IsKind(toks: seq<Token>, p: int, k: TokenKind) {
    0 <= p < |toks| && toks[p].kind == k
  }

  /** Is the token at `p` the identifier `w` (`isIdentifier`)? */
  predicate IsWord(toks: seq<Token>, p: int, w: string) {
    IsKind(toks, p, Identifier) && toks[p].text == w
  }

  /** The identifier text at `p`, or "" at end of input (`getIdentifier`). */
  function TextAt(toks: seq<Token>, p: int): string {
    if 0 <= p < |toks| then toks[p].text else ""
  }

  /** The token text at `p`, or "<EOF>" at end of input (`getTokenText`). */
  function DisplayText(toks: seq<Token>, p: int): string {
    if 0 <= p < |toks| then toks[p].text else "<EOF>"
  }

  /** `log` after consuming the token at `p`; unchanged at end of input. */
  function TokAt(log: Log, toks: seq<Token>, p: int): Log {
    if 0 <= p < |toks| then Then(log, Tok(toks[p])) else log
  }

  /** `log` after consuming the token at `p` as a leaf node of `kind`. */
  function Leaf(log: Log, toks: seq<Token>, p: nat, kind: NodeKind): Log
    requires p < |toks|
  {
    Then(Then(Then(log, Open), Tok(toks[p])), Close(kind))
  }

  /** `log` after `consumeTokenAs(nodeType)` on the token at `p`. */
  function Consumed(log: Log, toks: seq<Token>, p: nat, nodeType: Option<NodeKind>): Log
    requires p < |toks|
  {
    if nodeType.Some? then Leaf(log, toks, p, nodeType.value) else Then(log, Tok(toks[p]))
  }

  /** `log` after consuming the tokens at positions [a, b) without nodes. */
  function Skip(log: Log, toks: seq<Token>, a: nat, b: nat): (r: Log)
    requires a <= b <= |toks|
    ensures Size(r) == Size(log) + (b - a)
    decreases b - a
  {
    if a == b then log else Skip(Then(log, Tok(toks[a])), toks, a + 1, b)
  }

  /**
   * How many of the expected kinds `ks` the tokens from `q` on match, up to
   * the first one that deviates (or the end of input).
   */
  function Matches(toks: seq<Token>, q: int, ks: seq<TokenKind>): (n: nat)
    ensures n <= |ks|
    decreases |ks|
  {
    if ks == [] || !IsKind(toks, q, ks[0]) then 0 else 1 + Matches(toks, q + 1, ks[1..])
  }

  /**
   * `Matches` counts a matching prefix that cannot be extended: the first `n`
   * tokens have the expected kinds and, when `n < |ks|`, the next does not.
   */
  lemma {:induction false} MatchesPrefix(toks: seq<Token>, q: int, ks: seq<TokenKind>)
    ensures forall i :: 0 <= i < Matches(toks, q, ks) ==> IsKind(toks, q + i, ks[i])
    ensures Matches(toks, q, ks) < |ks| ==> !IsKind(toks, q + Matches(toks, q, ks), ks[Matches(toks, q, ks)])
    decreases |ks|
  {
    if ks != [] && IsKind(toks, q, ks[0]) {
      MatchesPrefix(toks, q + 1, ks[1..]);
      forall i | 0 <= i < Matches(toks, q, ks)
        ensures IsKind(toks, q + i, ks[i])
      {
        if i > 0 {
          assert ks[i] == ks[1..][i - 1];
          assert q + i == (q + 1) + (i - 1);
        }
      }
    }
  }

  /** The number of error nodes in an event log. */
  function ErrorCount(log: Log): nat {
    match log
    case Start => 0
    case Then(before, e) => ErrorCount(before) + (if e.ErrorClose? then 1 else 0)
  }

  /** Consuming tokens issues no error node. */
  lemma {:induction false} SkipErrorCount(log: Log, toks: seq<Token>, a: nat, b: nat)
    requires a <= b <= |toks|
    ensures ErrorCount(Skip(log, toks, a, b)) == ErrorCount(log)
    decreases b - a
  {
    if a < b {
      SkipErrorCount(Then(log, Tok(toks[a])), toks, a + 1, b);
    }
  }

  /** A leaf node adds its three events, and no error node. */
  lemma LeafEvents(log: Log, toks: seq<Token>, p: nat, kind: NodeKind)
    requires p < |toks|
    ensures Events(Leaf(log, toks, p, kind)) == Events(log) + [Open, Tok(toks[p]), Close(kind)]
    ensures ErrorCount(Leaf(log, toks, p, kind)) == ErrorCount(log)
  {
    var marked := Then(log, Open);
    var consumed := Then(marked, Tok(toks[p]));
    assert Events(marked) == Events(log) + [Open];
    assert Events(consumed) == Events(log) + [Open] + [Tok(toks[p])];
    assert Events(Then(consumed, Close(kind))) == Events(log) + [Open] + [Tok(toks[p])] + [Close(kind)];
    assert ErrorCount(consumed) == ErrorCount(log);
  }

  lemma AppendAssoc<T>(a: seq<T>, b: seq<T>, c: seq<T>)
    ensures a + b + c == a + (b + c)
  {
  }
}
