/**
 * The specification of the parser's one recovery routine (`error`): which
 * tokens it skips, where it stops, and whether it consumes the token it
 * stops at, for each of the three recovery contexts.
 */
module Recovery {
  import opened Tokens

  /** The recovery context a production passes to `error`. */
  datatype Construct = Statement | Braces | TopLevel

  /** Does recovery in context `c` stop at a token of kind `k`? */
  predicate StopsAt(k: TokenKind, c: Construct) {
    match c
    case Statement => k == Semicolon || k == RBrace
    case Braces => k == RBrace
    case TopLevel => k == Semicolon || k == RBrace
  }

  /** Is the token recovery stops at consumed? Only a `}` in a statement is left. */
  predicate ConsumesStop(k: TokenKind, c: Construct) {
    !(c == Statement && k == RBrace)
  }

  /** The position of the first token from `p` on where recovery stops, or the end. */
  function RecoveryStop(toks: seq<Token>, p: nat, c: Construct): (s: nat)
    requires p <= |toks|
    ensures p <= s <= |toks|
    ensures s < |toks| ==> StopsAt(toks[s].kind, c)
    decreases |toks| - p
  {
    if p == |toks| then p
    else if StopsAt(toks[p].kind, c) then p
    else RecoveryStop(toks, p + 1, c)
  }

  /** Recovery skips only tokens it does not stop at. */
  lemma {:induction false} RecoveryStopSkips(toks: seq<Token>, p: nat, c: Construct, i: nat)
    requires p <= |toks| && p <= i < RecoveryStop(toks, p, c)
    ensures !StopsAt(toks[i].kind, c)
    decreases |toks| - p
  {
    if i > p {
      RecoveryStopSkips(toks, p + 1, c, i);
    }
  }

  /** Does the recovery that starts at `p` consume the token it stops at? */
  predicate ConsumesBoundary(toks: seq<Token>, p: nat, c: Construct)
    requires p <= |toks|
  {
    var s := RecoveryStop(toks, p, c);
    s < |toks| && ConsumesStop(toks[s].kind, c)
  }

  /** The cursor after recovery from `p`. */
  function RecoveryEnd(toks: seq<Token>, p: nat, c: Construct): nat
    requires p <= |toks|
  {
    var s := RecoveryStop(toks, p, c);
    if ConsumesBoundary(toks, p, c) then s + 1 else s
  }

  /**
   * `log` after recovery from `p`: one error marker opened at `p` enclosing
   * every skipped token and closed with `msg`, then the consumed boundary
   * token, if any, outside it.
   */
  function Recovered(log: Log, toks: seq<Token>, p: nat, c: Construct, msg: string): Log
    requires p <= |toks|
  {
    var s := RecoveryStop(toks, p, c);
    var closed := Then(Skip(Then(log, Open), toks, p, s), ErrorClose(msg));
    if ConsumesBoundary(toks, p, c) then Then(closed, Tok(toks[s])) else closed
  }

  /**
   * The loop of `error` from `q`, with the error marker already open at
   * the end of `log`: skip tokens until a boundary of `c` or the end of
   * input, then close the marker with `msg` and consume the boundary token
   * when the context says so.
   */
  function Recover(toks: seq<Token>, q: nat, c: Construct, log: Log, msg: string): (r: Parsed)
    requires q <= |toks|
    ensures q <= r.end <= |toks|
    decreases |toks| - q
  {
    if q == |toks| then Parsed(q, Then(log, ErrorClose(msg)))
    else if StopsAt(toks[q].kind, c) && ConsumesStop(toks[q].kind, c) then
      Parsed(q + 1, Then(Then(log, ErrorClose(msg)), Tok(toks[q])))
    else if StopsAt(toks[q].kind, c) then
      Parsed(q, Then(log, ErrorClose(msg)))
    else
      Recover(toks, q + 1, c, Then(log, Tok(toks[q])), msg)
  }

  /**
   * The loop agrees with the closed form: it ends at `RecoveryEnd` and
   * appends exactly the skipped tokens, the error close and the consumed
   * boundary.
   */
  lemma {:induction false} RecoverClosedForm(toks: seq<Token>, q: nat, c: Construct, log: Log, msg: string)
    requires q <= |toks|
    ensures var s := RecoveryStop(toks, q, c);
      var closed := Then(Skip(log, toks, q, s), ErrorClose(msg));
      Recover(toks, q, c, log, msg)
      == Parsed(RecoveryEnd(toks, q, c), if ConsumesBoundary(toks, q, c) then Then(closed, Tok(toks[s])) else closed)
    decreases |toks| - q
  {
    if q < |toks| && !StopsAt(toks[q].kind, c) {
      RecoverClosedForm(toks, q + 1, c, Then(log, Tok(toks[q])), msg);
    }
  }

  /** With the error marker opened on `before`, the loop issues exactly `Recovered`. */
  lemma RecoverIsRecovered(toks: seq<Token>, q: nat, c: Construct, before: Log, msg: string)
    requires q <= |toks|
    ensures Recover(toks, q, c, Then(before, Open), msg)
            == Parsed(RecoveryEnd(toks, q, c), Recovered(before, toks, q, c, msg))
  {
    RecoverClosedForm(toks, q, c, Then(before, Open), msg);
  }

  /** A statement recovery stops at the first `;` or `}`, consuming a `;` but never a `}`. */
  lemma StatementRecovery(toks: seq<Token>, p: nat)
    requires p <= |toks|
    ensures var e := RecoveryEnd(toks, p, Statement);
      && (forall i :: p <= i < e - 1 ==> toks[i].kind != Semicolon && toks[i].kind != RBrace)
      && (e == |toks| || IsKind(toks, e, RBrace) || IsKind(toks, e - 1, Semicolon))
      && (IsKind(toks, RecoveryStop(toks, p, Statement), RBrace) ==> e == RecoveryStop(toks, p, Statement))
  {
    forall i | p <= i < RecoveryEnd(toks, p, Statement) - 1
      ensures toks[i].kind != Semicolon && toks[i].kind != RBrace
    {
      RecoveryStopSkips(toks, p, Statement, i);
    }
  }

  /** A braces recovery consumes through the first `}`, stepping over any `;`. */
  lemma BracesRecovery(toks: seq<Token>, p: nat)
    requires p <= |toks|
    ensures var e := RecoveryEnd(toks, p, Braces);
      && (forall i :: p <= i < e - 1 ==> toks[i].kind != RBrace)
      && (e == |toks| || IsKind(toks, e - 1, RBrace))
  {
    forall i | p <= i < RecoveryEnd(toks, p, Braces) - 1
      ensures toks[i].kind != RBrace
    {
      RecoveryStopSkips(toks, p, Braces, i);
    }
  }

  /** A top-level recovery consumes through whichever of `;` and `}` comes first. */
  lemma TopLevelRecovery(toks: seq<Token>, p: nat)
    requires p <= |toks|
    ensures var e := RecoveryEnd(toks, p, TopLevel);
      && (forall i :: p <= i < e - 1 ==> toks[i].kind != Semicolon && toks[i].kind != RBrace)
      && (e == |toks| || IsKind(toks, e - 1, Semicolon) || IsKind(toks, e - 1, RBrace))
      && (p < |toks| ==> p < e)
  {
    forall i | p <= i < RecoveryEnd(toks, p, TopLevel) - 1
      ensures toks[i].kind != Semicolon && toks[i].kind != RBrace
    {
      RecoveryStopSkips(toks, p, TopLevel, i);
    }
  }

  /** Recovery opens exactly one error node. */
  lemma RecoveryOneError(log: Log, toks: seq<Token>, p: nat, c: Construct, msg: string)
    requires p <= |toks|
    ensures ErrorCount(Recovered(log, toks, p, c, msg)) == ErrorCount(log) + 1
  {
    SkipErrorCount(Then(log, Open), toks, p, RecoveryStop(toks, p, c));
  }
}
