/**
 * The cursor-and-tree-builder the parser drives (IntelliJ's `PsiBuilder`),
 * reduced to what the parser uses: the current token, look-ahead, one-token
 * advance, and markers that are opened, closed as a kind, closed as an
 * error, dropped, or rolled back.
 *
 * Markers follow stack discipline: only the innermost open marker may be
 * closed, dropped or rolled back.
 */
module Psi {
  import opened Tokens

  /** A marker handle: the cursor, the log size and the number of open markers when it was made. */
  datatype Marker = Marker(pos: nat, at: nat, depth: nat)

  class Builder {
    const toks: seq<Token>
    var pos: nat
    var events: Log
    var depth: nat

    ghost predicate Valid()
      reads this
    {
      pos <= |toks|
    }

    /** Is `m` the innermost open marker? */
    ghost predicate IsTop(m: Marker)
      reads this
    {
      depth == m.depth + 1
    }

    constructor (tokens: seq<Token>)
      ensures Valid()
      ensures toks == tokens && pos == 0 && events == Start && depth == 0
    {
      toks := tokens;
      pos := 0;
      events := Start;
      depth := 0;
    }

    /** `getTokenType()`: the kind of the current token, None at end of input. */
    function TokenType(): Option<TokenKind>
      reads this
    {
      if pos < |toks| then Some(toks[pos].kind) else None
    }

    /** `getTokenText()`: the text of the current token, None at end of input. */
    function TokenText(): Option<string>
      reads this
    {
      if pos < |toks| then Some(toks[pos].text) else None
    }

    /** `eof()` */
    function Eof(): bool
      reads this
    {
      pos >= |toks|
    }

    /** `lookAhead(k)`: the kind of the token `k` places ahead, None past the end. */
    function LookAhead(k: nat): Option<TokenKind>
      reads this
    {
      if pos + k < |toks| then Some(toks[pos + k].kind) else None
    }

    /** `advanceLexer()`: consume the current token; a no-op at end of input. */
    method AdvanceLexer()
      requires Valid()
      modifies this
      ensures Valid() && depth == old(depth)
      ensures old(pos) < |toks| ==> pos == old(pos) + 1
      ensures old(pos) == |toks| ==> pos == old(pos)
      ensures events == TokAt(old(events), toks, old(pos))
    {
      if pos < |toks| {
        events := Then(events, Tok(toks[pos]));
        pos := pos + 1;
      }
    }

    /** `mark()`: open a new marker at the current position. */
    method Mark() returns (m: Marker)
      requires Valid()
      modifies this
      ensures Valid() && pos == old(pos)
      ensures m == Marker(pos, Size(old(events)), old(depth))
      ensures events == Then(old(events), Open)
      ensures depth == old(depth) + 1 && IsTop(m)
    {
      m := Marker(pos, Size(events), depth);
      events := Then(events, Open);
      depth := depth + 1;
    }

    /** `marker.done(kind)` */
    method Done(m: Marker, kind: NodeKind)
      requires Valid() && IsTop(m)
      modifies this
      ensures Valid() && pos == old(pos)
      ensures events == Then(old(events), Close(kind))
      ensures depth == old(depth) - 1
    {
      events := Then(events, Close(kind));
      depth := depth - 1;
    }

    /** `marker.error(message)` */
    method Error(m: Marker, message: string)
      requires Valid() && IsTop(m)
      modifies this
      ensures Valid() && pos == old(pos)
      ensures events == Then(old(events), ErrorClose(message))
      ensures depth == old(depth) - 1
    {
      events := Then(events, ErrorClose(message));
      depth := depth - 1;
    }

    /** `marker.drop()`: discard the marker, keeping what it enclosed. */
    method Drop(m: Marker)
      requires Valid() && IsTop(m)
      modifies this
      ensures Valid() && pos == old(pos)
      ensures events == Then(old(events), Event.Drop)
      ensures depth == old(depth) - 1
    {
      events := Then(events, Event.Drop);
      depth := depth - 1;
    }

    /** `marker.rollbackTo()`: restore the cursor and the log to the marker. */
    method RollbackTo(m: Marker)
      requires Valid() && IsTop(m)
      requires m.pos <= |toks|
      modifies this
      ensures Valid()
      ensures pos == m.pos
      ensures events == Upto(old(events), m.at)
      ensures depth == old(depth) - 1
    {
      pos := m.pos;
      events := Upto(events, m.at);
      depth := depth - 1;
    }
  }
}
