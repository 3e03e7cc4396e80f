/**
 * Coverage: the tree the parser builds holds every token of the file
 * exactly once, in order. Each production consumes precisely the tokens
 * between where it starts and where it stops (a recovery included), so
 * the leaves of the finished tree are the whole token stream, whatever
 * errors the file contains.
 *
 * Every lemma here takes a log `base` and a position `a` with the events
 * so far covering [a, p); it shows the production from `p` extends that
 * cover up to where the production stops.
 */
module Coverage {
  import opened Tokens
  import opened Recovery
  import opened TypeNames
  import opened Statements
  import opened Blocks
  import opened Annotations
  import opened TopLevel
  import opened SchemaText
  import opened Diagnostics

  /** The tokens a log consumes, oldest first: the leaves of the tree it describes. */
  function Leaves(log: Log): seq<Token> {
    match log
    case Start => []
    case Then(before, e) => Leaves(before) + (if e.Tok? then [e.token] else [])
  }

  /** The events from `before` to `after` consume exactly the tokens at positions [a, b). */
  predicate Covers(toks: seq<Token>, before: Log, a: nat, after: Log, b: nat) {
    a <= b <= |toks| && Leaves(after) == Leaves(before) + toks[a..b]
  }

  /** A production's events cover the tokens up to where it completes or deviates. */
  predicate OutcomeCovers(toks: seq<Token>, base: Log, a: nat, o: Outcome) {
    match o
    case Accept(end, evs) => Covers(toks, base, a, evs, end)
    case Reject(at, evs, _, _) => Covers(toks, base, a, evs, at)
  }

  /** A type-name scan's events cover the tokens up to where it ends or fails. */
  predicate ScanCovers(toks: seq<Token>, base: Log, a: nat, r: TypeNameResult) {
    match r
    case TypeNameOk(_, end, evs) => Covers(toks, base, a, evs, end)
    case TypeNameErr(at, evs, _) => Covers(toks, base, a, evs, at)
  }

  lemma CoversTrans(toks: seq<Token>, x: Log, a: nat, y: Log, b: nat, z: Log, c: nat)
    requires Covers(toks, x, a, y, b) && Covers(toks, y, b, z, c)
    ensures Covers(toks, x, a, z, c)
  {
    assert toks[a..c] == toks[a..b] + toks[b..c];
  }

  /** Consuming the token at `p` extends a cover by that token. */
  lemma ExtendTok(toks: seq<Token>, base: Log, a: nat, log: Log, p: nat)
    requires Covers(toks, base, a, log, p) && p < |toks|
    ensures Covers(toks, base, a, Then(log, Tok(toks[p])), p + 1)
  {
    assert toks[a..p + 1] == toks[a..p] + [toks[p]];
  }

  /** Opening, closing or dropping a marker consumes nothing. */
  lemma ExtendMark(toks: seq<Token>, base: Log, a: nat, log: Log, p: nat, e: Event)
    requires Covers(toks, base, a, log, p) && !e.Tok?
    ensures Covers(toks, base, a, Then(log, e), p)
  {
  }

  /** A leaf node holds exactly its one token. */
  lemma ExtendLeafNode(toks: seq<Token>, base: Log, a: nat, log: Log, p: nat, k: NodeKind)
    requires Covers(toks, base, a, log, p) && p < |toks|
    ensures Covers(toks, base, a, Leaf(log, toks, p, k), p + 1)
  {
    ExtendMark(toks, base, a, log, p, Open);
    ExtendTok(toks, base, a, Then(log, Open), p);
    ExtendMark(toks, base, a, Then(Then(log, Open), Tok(toks[p])), p + 1, Close(k));
  }

  /** A leaf node, directly or inside a freshly opened marker, holds exactly its one token. */
  lemma ExtendLeaf(toks: seq<Token>, base: Log, a: nat, log: Log, p: nat, k: NodeKind)
    requires Covers(toks, base, a, log, p) && p < |toks|
    ensures Covers(toks, base, a, Leaf(log, toks, p, k), p + 1)
    ensures Covers(toks, base, a, Leaf(Then(log, Open), toks, p, k), p + 1)
  {
    ExtendLeafNode(toks, base, a, log, p, k);
    ExtendMark(toks, base, a, log, p, Open);
    ExtendLeafNode(toks, base, a, Then(log, Open), p, k);
  }

  /** `TokAt` consumes the token at `p`, if there is one. */
  lemma ExtendTokAt(toks: seq<Token>, base: Log, a: nat, log: Log, p: nat)
    requires Covers(toks, base, a, log, p)
    ensures Covers(toks, base, a, TokAt(log, toks, p), if p < |toks| then p + 1 else p)
  {
    if p < |toks| {
      ExtendTok(toks, base, a, log, p);
    }
  }

  /** A recovery consumes every token it passes over, and the boundary token it consumes. */
  lemma {:induction false} RecoverCovers(toks: seq<Token>, base: Log, a: nat, q: nat, c: Construct, log: Log, msg: string)
    requires Covers(toks, base, a, log, q)
    ensures var r := Recover(toks, q, c, log, msg); Covers(toks, base, a, r.log, r.end)
    decreases |toks| - q
  {
    if q == |toks| {
      ExtendMark(toks, base, a, log, q, ErrorClose(msg));
    } else if StopsAt(toks[q].kind, c) {
      ExtendMark(toks, base, a, log, q, ErrorClose(msg));
      if ConsumesStop(toks[q].kind, c) {
        ExtendTok(toks, base, a, Then(log, ErrorClose(msg)), q);
      }
    } else {
      ExtendTok(toks, base, a, log, q);
      RecoverCovers(toks, base, a, q + 1, c, Then(log, Tok(toks[q])), msg);
    }
  }

  /** Settling an outcome, a recovery included, keeps the cover up to where the cursor stops. */
  lemma SettleCovers(toks: seq<Token>, base: Log, a: nat, o: Outcome, c: Construct)
    requires WellFormed(toks, o) && OutcomeCovers(toks, base, a, o)
    ensures var r := Settle(toks, o, c); Covers(toks, base, a, r.log, r.end)
  {
    if o.Reject? {
      var closed := Then(o.evs, Close(o.closeAs));
      ExtendMark(toks, base, a, o.evs, o.at, Close(o.closeAs));
      ExtendMark(toks, base, a, closed, o.at, Open);
      RecoverCovers(toks, base, a, o.at, c, Then(closed, Open), o.msg);
    }
  }

  /** Finishing an outcome keeps the cover up to where the cursor stops. */
  lemma FinishCovers(toks: seq<Token>, base: Log, a: nat, o: Outcome, kind: NodeKind, c: Construct)
    requires WellFormed(toks, o) && OutcomeCovers(toks, base, a, o)
    ensures var r := Finish(toks, o, kind, c); Covers(toks, base, a, r.log, r.end)
  {
    if o.Accept? {
      ExtendMark(toks, base, a, o.evs, o.end, Close(kind));
    } else {
      SettleCovers(toks, base, a, o, c);
    }
  }

  // ---------------------------------------------------------------------
  // Type names and straight-line statements
  // ---------------------------------------------------------------------

  lemma {:induction false} ScanTypeParametersCovers(toks: seq<Token>, base: Log, a: nat, q: nat, name: string, evs: Log)
    requires Covers(toks, base, a, evs, q)
    ensures ScanCovers(toks, base, a, ScanTypeParameters(toks, q, name, evs))
    decreases |toks| - q
  {
    if IsKind(toks, q, RAngle) {
      ExtendTok(toks, base, a, evs, q);
    } else if IsKind(toks, q, Comma) {
      ExtendTok(toks, base, a, evs, q);
      if IsKind(toks, q + 1, Identifier) {
        ExtendLeaf(toks, base, a, Then(evs, Tok(toks[q])), q + 1, TypeParameterName);
        ScanTypeParametersCovers(toks, base, a, q + 2, name + ", " + toks[q + 1].text,
                                 Leaf(Then(evs, Tok(toks[q])), toks, q + 1, TypeParameterName));
      }
    }
  }

  lemma ScanTypeNameCovers(toks: seq<Token>, base: Log, a: nat, p: nat, log: Log)
    requires Covers(toks, base, a, log, p) && p < |toks|
    ensures ScanCovers(toks, base, a, ScanTypeName(toks, p, log))
  {
    var head := Leaf(Then(log, Open), toks, p, TypeName);
    ExtendLeaf(toks, base, a, log, p, TypeName);
    if IsKind(toks, p + 1, LAngle) {
      ExtendTok(toks, base, a, head, p + 1);
      if IsKind(toks, p + 2, Identifier) {
        ExtendLeaf(toks, base, a, Then(head, Tok(toks[p + 1])), p + 2, TypeParameterName);
        ScanTypeParametersCovers(toks, base, a, p + 3, toks[p].text + "<" + toks[p + 2].text,
                                 Leaf(Then(head, Tok(toks[p + 1])), toks, p + 2, TypeParameterName));
      }
    }
  }

  /** Closing or dropping the type marker keeps the cover. */
  lemma TypeNodeCovers(toks: seq<Token>, base: Log, a: nat, t: TypeNameResult)
    requires ScanCovers(toks, base, a, t)
    ensures t.TypeNameOk? ==> Covers(toks, base, a, TypeNode(t), t.end)
    ensures t.TypeNameErr? ==> Covers(toks, base, a, DroppedTypeNode(t), t.at)
  {
    if t.TypeNameOk? {
      ExtendMark(toks, base, a, t.evs, t.end, Close(FieldType));
    } else {
      ExtendMark(toks, base, a, t.evs, t.at, Event.Drop);
    }
  }

  lemma PackageCovers(toks: seq<Token>, base: Log, a: nat, p: nat, log: Log)
    requires Covers(toks, base, a, log, p) && p < |toks|
    ensures OutcomeCovers(toks, base, a, PackageSpec(toks, p, log))
  {
    var kw := Leaf(Then(log, Open), toks, p, Keyword);
    ExtendLeaf(toks, base, a, log, p, Keyword);
    if IsKind(toks, p + 1, Identifier) {
      ExtendLeaf(toks, base, a, kw, p + 1, PackageName);
      if IsKind(toks, p + 2, Semicolon) {
        ExtendTok(toks, base, a, Leaf(kw, toks, p + 1, PackageName), p + 2);
      }
    }
  }

  lemma ImportCovers(toks: seq<Token>, base: Log, a: nat, p: nat, log: Log)
    requires Covers(toks, base, a, log, p) && p < |toks|
    ensures OutcomeCovers(toks, base, a, ImportSpec(toks, p, log))
  {
    var kw := Leaf(Then(log, Open), toks, p, Keyword);
    ExtendLeaf(toks, base, a, log, p, Keyword);
    if IsKind(toks, p + 1, StringLit) {
      ExtendLeaf(toks, base, a, kw, p + 1, ImportFilename);
      if IsKind(toks, p + 2, Semicolon) {
        ExtendTok(toks, base, a, Leaf(kw, toks, p + 1, ImportFilename), p + 2);
      }
    }
  }

  lemma OptionCovers(toks: seq<Token>, base: Log, a: nat, p: nat, log: Log)
    requires Covers(toks, base, a, log, p) && p < |toks|
    ensures OutcomeCovers(toks, base, a, OptionSpec(toks, p, log))
  {
    var kw := Leaf(Then(log, Open), toks, p, Keyword);
    ExtendLeaf(toks, base, a, log, p, Keyword);
    if IsKind(toks, p + 1, Identifier) {
      var named := Leaf(kw, toks, p + 1, OptionName);
      ExtendLeaf(toks, base, a, kw, p + 1, OptionName);
      if IsKind(toks, p + 2, Equals) {
        ExtendTok(toks, base, a, named, p + 2);
        if IsKind(toks, p + 3, Identifier) {
          var valued := Leaf(Then(named, Tok(toks[p + 2])), toks, p + 3, OptionValue);
          ExtendLeaf(toks, base, a, Then(named, Tok(toks[p + 2])), p + 3, OptionValue);
          if IsKind(toks, p + 4, Semicolon) {
            ExtendTok(toks, base, a, valued, p + 4);
          }
        }
      }
    }
  }

  lemma ComponentIdCovers(toks: seq<Token>, base: Log, a: nat, p: nat, log: Log)
    requires Covers(toks, base, a, log, p) && p < |toks|
    ensures OutcomeCovers(toks, base, a, ComponentIdSpec(toks, p, log))
  {
    var kw := Leaf(Then(log, Open), toks, p, Keyword);
    ExtendLeaf(toks, base, a, log, p, Keyword);
    if IsKind(toks, p + 1, Equals) {
      ExtendTok(toks, base, a, kw, p + 1);
      if IsKind(toks, p + 2, Integer) {
        var valued := Leaf(Then(kw, Tok(toks[p + 1])), toks, p + 2, FieldNumber);
        ExtendLeaf(toks, base, a, Then(kw, Tok(toks[p + 1])), p + 2, FieldNumber);
        if IsKind(toks, p + 3, Semicolon) {
          ExtendTok(toks, base, a, valued, p + 3);
        }
      }
    }
  }

  lemma EnumValueCovers(toks: seq<Token>, base: Log, a: nat, p: nat, log: Log)
    requires Covers(toks, base, a, log, p) && p < |toks|
    ensures OutcomeCovers(toks, base, a, EnumValueSpec(toks, p, log))
  {
    var named := Leaf(Then(log, Open), toks, p, FieldName);
    ExtendLeaf(toks, base, a, log, p, FieldName);
    if IsKind(toks, p + 1, Equals) {
      ExtendTok(toks, base, a, named, p + 1);
      if IsKind(toks, p + 2, Integer) {
        var valued := Leaf(Then(named, Tok(toks[p + 1])), toks, p + 2, FieldNumber);
        ExtendLeaf(toks, base, a, Then(named, Tok(toks[p + 1])), p + 2, FieldNumber);
        if IsKind(toks, p + 3, Semicolon) {
          ExtendTok(toks, base, a, valued, p + 3);
        }
      }
    }
  }

  lemma FieldTailCovers(toks: seq<Token>, base: Log, a: nat, e: nat, tn: string, typed: Log)
    requires Covers(toks, base, a, typed, e)
    ensures OutcomeCovers(toks, base, a, FieldTailSpec(toks, e, tn, typed))
  {
    if IsKind(toks, e, Identifier) {
      var named := Leaf(typed, toks, e, FieldName);
      ExtendLeaf(toks, base, a, typed, e, FieldName);
      if IsKind(toks, e + 1, Equals) {
        ExtendTok(toks, base, a, named, e + 1);
        if IsKind(toks, e + 2, Integer) {
          var numbered := Leaf(Then(named, Tok(toks[e + 1])), toks, e + 2, FieldNumber);
          ExtendLeaf(toks, base, a, Then(named, Tok(toks[e + 1])), e + 2, FieldNumber);
          if IsKind(toks, e + 3, Semicolon) {
            ExtendTok(toks, base, a, numbered, e + 3);
          }
        }
      }
    }
  }

  lemma FieldCovers(toks: seq<Token>, base: Log, a: nat, p: nat, log: Log)
    requires Covers(toks, base, a, log, p) && p < |toks|
    ensures OutcomeCovers(toks, base, a, FieldSpec(toks, p, log))
  {
    ExtendMark(toks, base, a, log, p, Open);
    var t := ScanTypeName(toks, p, Then(log, Open));
    ScanTypeNameCovers(toks, base, a, p, Then(log, Open));
    TypeNodeCovers(toks, base, a, t);
    if t.TypeNameOk? {
      FieldTailCovers(toks, base, a, t.end, t.name, TypeNode(t));
    }
  }

  lemma DataCovers(toks: seq<Token>, base: Log, a: nat, p: nat, log: Log)
    requires Covers(toks, base, a, log, p) && p < |toks|
    ensures OutcomeCovers(toks, base, a, DataSpec(toks, p, log))
  {
    var kw := Leaf(Then(log, Open), toks, p, Keyword);
    ExtendLeaf(toks, base, a, log, p, Keyword);
    if IsKind(toks, p + 1, Identifier) {
      var t := ScanTypeName(toks, p + 1, kw);
      assert ScanCovers(toks, base, a, t) by {
        ScanTypeNameCovers(toks, base, a, p + 1, kw);
      }
      if t.TypeNameErr? {
        assert Covers(toks, base, a, DroppedTypeNode(t), t.at) by {
          TypeNodeCovers(toks, base, a, t);
        }
        assert DataSpec(toks, p, log) == Reject(t.at, DroppedTypeNode(t), FieldDefinition, t.msg);
      } else if IsKind(toks, t.end, Semicolon) {
        assert Covers(toks, base, a, Then(TypeNode(t), Tok(toks[t.end])), t.end + 1) by {
          TypeNodeCovers(toks, base, a, t);
          ExtendTok(toks, base, a, TypeNode(t), t.end);
        }
        assert DataSpec(toks, p, log) == Accept(t.end + 1, Then(TypeNode(t), Tok(toks[t.end])));
      } else {
        assert Covers(toks, base, a, TypeNode(t), t.end) by {
          TypeNodeCovers(toks, base, a, t);
        }
        assert DataSpec(toks, p, log) == Reject(t.end, TypeNode(t), DataDefinition, DataSemicolonMissing(t.name));
      }
    }
  }

  lemma EventCovers(toks: seq<Token>, base: Log, a: nat, p: nat, log: Log)
    requires Covers(toks, base, a, log, p) && p < |toks|
    ensures OutcomeCovers(toks, base, a, EventSpec(toks, p, log))
  {
    var kw := Leaf(Then(log, Open), toks, p, Keyword);
    ExtendLeaf(toks, base, a, log, p, Keyword);
    if IsKind(toks, p + 1, Identifier) {
      var t := ScanTypeName(toks, p + 1, kw);
      ScanTypeNameCovers(toks, base, a, p + 1, kw);
      TypeNodeCovers(toks, base, a, t);
      if t.TypeNameOk? {
        EventTailCovers(toks, base, a, t.end, t.name, TypeNode(t));
      }
    }
  }

  lemma EventTailCovers(toks: seq<Token>, base: Log, a: nat, e: nat, tn: string, typed: Log)
    requires Covers(toks, base, a, typed, e)
    ensures OutcomeCovers(toks, base, a, EventTailSpec(toks, e, tn, typed))
  {
    if IsKind(toks, e, Identifier) {
      ExtendLeaf(toks, base, a, typed, e, FieldName);
      if IsKind(toks, e + 1, Semicolon) {
        ExtendTok(toks, base, a, Leaf(typed, toks, e, FieldName), e + 1);
      }
    }
  }

  lemma CommandTailCovers(toks: seq<Token>, base: Log, a: nat, q: nat, response: string, name: string, named: Log)
    requires Covers(toks, base, a, named, q)
    ensures OutcomeCovers(toks, base, a, CommandTailSpec(toks, q, response, name, named))
  {
    if IsKind(toks, q, LParentheses) {
      ExtendTok(toks, base, a, named, q);
      if IsKind(toks, q + 1, Identifier) {
        var requested := Leaf(Then(named, Tok(toks[q])), toks, q + 1, TypeName);
        ExtendLeaf(toks, base, a, Then(named, Tok(toks[q])), q + 1, TypeName);
        if IsKind(toks, q + 2, RParentheses) {
          ExtendTok(toks, base, a, requested, q + 2);
          if IsKind(toks, q + 3, Semicolon) {
            ExtendTok(toks, base, a, Then(requested, Tok(toks[q + 2])), q + 3);
          }
        }
      }
    }
  }

  lemma CommandCovers(toks: seq<Token>, base: Log, a: nat, p: nat, log: Log)
    requires Covers(toks, base, a, log, p) && p < |toks|
    ensures OutcomeCovers(toks, base, a, CommandSpec(toks, p, log))
  {
    var kw := Leaf(Then(log, Open), toks, p, Keyword);
    ExtendLeaf(toks, base, a, log, p, Keyword);
    if IsKind(toks, p + 1, Identifier) {
      var typed := Leaf(kw, toks, p + 1, TypeName);
      ExtendLeaf(toks, base, a, kw, p + 1, TypeName);
      if IsKind(toks, p + 2, Identifier) {
        ExtendLeaf(toks, base, a, typed, p + 2, FieldName);
        CommandTailCovers(toks, base, a, p + 3, toks[p + 1].text, toks[p + 2].text, Leaf(typed, toks, p + 2, FieldName));
      }
    }
  }

  // ---------------------------------------------------------------------
  // Blocks
  // ---------------------------------------------------------------------

  lemma StatementStepCovers(toks: seq<Token>, base: Log, a: nat, o: Outcome, kind: NodeKind, p: nat)
    requires WellFormed(toks, o) && Advances(o, p) && OutcomeCovers(toks, base, a, o)
    ensures var r := StatementStep(toks, o, kind, p); Covers(toks, base, a, r.log, r.end)
  {
    FinishCovers(toks, base, a, o, kind, Statement);
  }

  lemma DefinitionStepCovers(toks: seq<Token>, base: Log, a: nat, o: Outcome, kind: NodeKind, p: nat)
    requires WellFormed(toks, o) && Advances(o, p) && OutcomeCovers(toks, base, a, o)
    ensures var r := DefinitionStep(toks, o, kind, p); Covers(toks, base, a, r.log, r.end)
  {
    FinishCovers(toks, base, a, o, kind, Braces);
  }

  lemma CloseBodyCovers(toks: seq<Token>, base: Log, a: nat, c: Parsed, kind: NodeKind, keyword: string, name: string)
    requires Covers(toks, base, a, c.log, c.end)
    ensures OutcomeCovers(toks, base, a, CloseBody(toks, c, kind, keyword, name))
  {
    if IsKind(toks, c.end, RBrace) {
      ExtendTok(toks, base, a, c.log, c.end);
    }
  }

  lemma {:induction false} EnumContentsCovers(toks: seq<Token>, base: Log, a: nat, p: nat, acc: Log)
    requires Covers(toks, base, a, acc, p)
    ensures var r := EnumContentsSpec(toks, p, acc); Covers(toks, base, a, r.log, r.end)
    decreases |toks| - p
  {
    if IsKind(toks, p, Identifier) {
      EnumValueCovers(toks, base, a, p, acc);
      StatementStepCovers(toks, base, a, EnumValueSpec(toks, p, acc), EnumValueDefinition, p);
      var step := StatementStep(toks, EnumValueSpec(toks, p, acc), EnumValueDefinition, p);
      EnumContentsCovers(toks, base, a, step.end, step.log);
    }
  }

  lemma EnumDefinitionCovers(toks: seq<Token>, base: Log, a: nat, p: nat, log: Log)
    requires Covers(toks, base, a, log, p) && p < |toks|
    ensures OutcomeCovers(toks, base, a, EnumDefinitionSpec(toks, p, log))
  {
    var kw := Leaf(Then(log, Open), toks, p, Keyword);
    ExtendLeaf(toks, base, a, log, p, Keyword);
    if IsKind(toks, p + 1, Identifier) {
      var named := Leaf(kw, toks, p + 1, DefinitionName);
      ExtendLeaf(toks, base, a, kw, p + 1, DefinitionName);
      if IsKind(toks, p + 2, LBrace) {
        ExtendTok(toks, base, a, named, p + 2);
        EnumContentsCovers(toks, base, a, p + 3, Then(named, Tok(toks[p + 2])));
        CloseBodyCovers(toks, base, a, EnumContentsSpec(toks, p + 3, Then(named, Tok(toks[p + 2]))),
                        EnumDefinition, "enum", toks[p + 1].text);
      }
    }
  }

  lemma {:induction false} TypeStatementCovers(toks: seq<Token>, base: Log, a: nat, p: nat, log: Log)
    requires Covers(toks, base, a, log, p) && IsKind(toks, p, Identifier)
    ensures var r := TypeStatementSpec(toks, p, log); Covers(toks, base, a, r.log, r.end)
    decreases |toks| - p, 1
  {
    if IsWord(toks, p, "option") && !IsKind(toks, p + 1, LAngle) {
      OptionCovers(toks, base, a, p, log);
      StatementStepCovers(toks, base, a, OptionSpec(toks, p, log), OptionDefinition, p);
    } else if IsWord(toks, p, "enum") {
      EnumDefinitionCovers(toks, base, a, p, log);
      DefinitionStepCovers(toks, base, a, EnumDefinitionSpec(toks, p, log), EnumDefinition, p);
    } else if IsWord(toks, p, "type") {
      TypeDefinitionCovers(toks, base, a, p, log);
      DefinitionStepCovers(toks, base, a, TypeDefinitionSpec(toks, p, log), TypeDefinition, p);
    } else {
      FieldCovers(toks, base, a, p, log);
      StatementStepCovers(toks, base, a, FieldSpec(toks, p, log), FieldDefinition, p);
    }
  }

  lemma {:induction false} TypeContentsCovers(toks: seq<Token>, base: Log, a: nat, p: nat, acc: Log)
    requires Covers(toks, base, a, acc, p)
    ensures var r := TypeContentsSpec(toks, p, acc); Covers(toks, base, a, r.log, r.end)
    decreases |toks| - p, 2
  {
    if IsKind(toks, p, Identifier) {
      TypeStatementCovers(toks, base, a, p, acc);
      var step := TypeStatementSpec(toks, p, acc);
      TypeContentsCovers(toks, base, a, step.end, step.log);
    }
  }

  lemma {:induction false} TypeDefinitionCovers(toks: seq<Token>, base: Log, a: nat, p: nat, log: Log)
    requires Covers(toks, base, a, log, p) && p < |toks|
    ensures OutcomeCovers(toks, base, a, TypeDefinitionSpec(toks, p, log))
    decreases |toks| - p, 0
  {
    var kw := Leaf(Then(log, Open), toks, p, Keyword);
    ExtendLeaf(toks, base, a, log, p, Keyword);
    if IsKind(toks, p + 1, Identifier) {
      var named := Leaf(kw, toks, p + 1, DefinitionName);
      ExtendLeaf(toks, base, a, kw, p + 1, DefinitionName);
      if IsKind(toks, p + 2, LBrace) {
        ExtendTok(toks, base, a, named, p + 2);
        TypeContentsCovers(toks, base, a, p + 3, Then(named, Tok(toks[p + 2])));
        CloseBodyCovers(toks, base, a, TypeContentsSpec(toks, p + 3, Then(named, Tok(toks[p + 2]))),
                        TypeDefinition, "type", toks[p + 1].text);
      }
    }
  }

  lemma ComponentStatementCovers(toks: seq<Token>, base: Log, a: nat, p: nat, log: Log)
    requires Covers(toks, base, a, log, p) && IsKind(toks, p, Identifier)
    ensures var r := ComponentStatementSpec(toks, p, log); Covers(toks, base, a, r.log, r.end)
  {
    if IsWord(toks, p, "option") && !IsKind(toks, p + 1, LAngle) {
      OptionCovers(toks, base, a, p, log);
      StatementStepCovers(toks, base, a, OptionSpec(toks, p, log), OptionDefinition, p);
    } else if IsWord(toks, p, "id") {
      ComponentIdCovers(toks, base, a, p, log);
      StatementStepCovers(toks, base, a, ComponentIdSpec(toks, p, log), ComponentIdDefinition, p);
    } else if IsWord(toks, p, "data") {
      DataCovers(toks, base, a, p, log);
      StatementStepCovers(toks, base, a, DataSpec(toks, p, log), DataDefinition, p);
    } else if IsWord(toks, p, "event") {
      EventCovers(toks, base, a, p, log);
      StatementStepCovers(toks, base, a, EventSpec(toks, p, log), EventDefinition, p);
    } else if IsWord(toks, p, "command") {
      CommandCovers(toks, base, a, p, log);
      StatementStepCovers(toks, base, a, CommandSpec(toks, p, log), CommandDefinition, p);
    } else {
      FieldCovers(toks, base, a, p, log);
      StatementStepCovers(toks, base, a, FieldSpec(toks, p, log), FieldDefinition, p);
    }
  }

  lemma {:induction false} ComponentContentsCovers(toks: seq<Token>, base: Log, a: nat, p: nat, acc: Log)
    requires Covers(toks, base, a, acc, p)
    ensures var r := ComponentContentsSpec(toks, p, acc); Covers(toks, base, a, r.log, r.end)
    decreases |toks| - p
  {
    if IsKind(toks, p, Identifier) {
      ComponentStatementCovers(toks, base, a, p, acc);
      var step := ComponentStatementSpec(toks, p, acc);
      ComponentContentsCovers(toks, base, a, step.end, step.log);
    }
  }

  lemma ComponentDefinitionCovers(toks: seq<Token>, base: Log, a: nat, p: nat, log: Log)
    requires Covers(toks, base, a, log, p) && p < |toks|
    ensures OutcomeCovers(toks, base, a, ComponentDefinitionSpec(toks, p, log))
  {
    var kw := Leaf(Then(log, Open), toks, p, Keyword);
    ExtendLeaf(toks, base, a, log, p, Keyword);
    if IsKind(toks, p + 1, Identifier) {
      var named := Leaf(kw, toks, p + 1, DefinitionName);
      ExtendLeaf(toks, base, a, kw, p + 1, DefinitionName);
      if IsKind(toks, p + 2, LBrace) {
        ExtendTok(toks, base, a, named, p + 2);
        ComponentContentsCovers(toks, base, a, p + 3, Then(named, Tok(toks[p + 2])));
        CloseBodyCovers(toks, base, a, ComponentContentsSpec(toks, p + 3, Then(named, Tok(toks[p + 2]))),
                        ComponentDefinition, "component", toks[p + 1].text);
      }
    }
  }

  // ---------------------------------------------------------------------
  // Annotations
  // ---------------------------------------------------------------------

  lemma LiteralCovers(toks: seq<Token>, base: Log, a: nat, p: nat, log: Log)
    requires Covers(toks, base, a, log, p) && p < |toks|
    ensures OutcomeCovers(toks, base, a, LiteralSpec(toks, p, log))
  {
    var value := Leaf(log, toks, p, OptionValue);
    ExtendLeaf(toks, base, a, log, p, OptionValue);
    if toks[p].kind == Integer && IsWord(toks, p + 1, ".") {
      var point := Leaf(value, toks, p + 1, OptionValue);
      ExtendLeaf(toks, base, a, value, p + 1, OptionValue);
      if IsKind(toks, p + 2, Integer) {
        ExtendLeaf(toks, base, a, point, p + 2, OptionValue);
      }
    }
  }

  lemma {:induction false} AnnotationFieldCovers(toks: seq<Token>, base: Log, a: nat, p: nat, log: Log)
    requires Covers(toks, base, a, log, p)
    ensures OutcomeCovers(toks, base, a, AnnotationFieldSpec(toks, p, log))
    decreases |toks| - p, 4
  {
    ExtendMark(toks, base, a, log, p, Open);
    FieldValueCovers(toks, base, a, p, Then(log, Open));
  }

  /** A field, then its marker closed or a recovery from where it deviates. */
  lemma {:induction false} FinishedFieldCovers(toks: seq<Token>, base: Log, a: nat, p: nat, log: Log)
    requires Covers(toks, base, a, log, p)
    ensures var r := Finish(toks, AnnotationFieldSpec(toks, p, log), AnnotationField, Statement);
      p <= r.end && Covers(toks, base, a, r.log, r.end)
    decreases |toks| - p, 5
  {
    AnnotationFieldCovers(toks, base, a, p, log);
    FinishCovers(toks, base, a, AnnotationFieldSpec(toks, p, log), AnnotationField, Statement);
  }

  lemma {:induction false} FieldValueCovers(toks: seq<Token>, base: Log, a: nat, p: nat, m: Log)
    requires Covers(toks, base, a, m, p)
    ensures OutcomeCovers(toks, base, a, FieldValueSpec(toks, p, m))
    decreases |toks| - p, 3
  {
    if p < |toks| && MatchesOptionPattern(toks[p].text) {
      LiteralCovers(toks, base, a, p, m);
    } else if IsKind(toks, p, LBracket) {
      ArrayValueCovers(toks, base, a, p, m);
    } else if IsKind(toks, p, LBrace) {
      MapValueCovers(toks, base, a, p, m);
    } else if IsKind(toks, p, Identifier) {
      ReferenceValueCovers(toks, base, a, p, m);
    }
  }

  lemma {:induction false} ArrayValueCovers(toks: seq<Token>, base: Log, a: nat, p: nat, m: Log)
    requires Covers(toks, base, a, m, p) && p < |toks|
    ensures OutcomeCovers(toks, base, a, ArrayValueSpec(toks, p, m))
    decreases |toks| - p, 2
  {
    var open := Then(m, Tok(toks[p]));
    ExtendTok(toks, base, a, m, p);
    if IsKind(toks, p + 1, RBracket) {
      ExtendTok(toks, base, a, open, p + 1);
    } else {
      ArrayElementsCovers(toks, base, a, p + 1, open);
    }
  }

  lemma {:induction false} ArrayElementsCovers(toks: seq<Token>, base: Log, a: nat, q: nat, acc: Log)
    requires Covers(toks, base, a, acc, q)
    ensures OutcomeCovers(toks, base, a, ArrayElementsSpec(toks, q, acc))
    decreases |toks| - q, 6
  {
    FinishedFieldCovers(toks, base, a, q, acc);
    var fin := Finish(toks, AnnotationFieldSpec(toks, q, acc), AnnotationField, Statement);
    ArrayElementsAfterCovers(toks, base, a, q, fin.end, fin.log);
  }

  /** The array-elements loop after the value that ends at `e`. */
  lemma {:induction false} ArrayElementsAfterCovers(toks: seq<Token>, base: Log, a: nat, q: nat, e: nat, elements: Log)
    requires Covers(toks, base, a, elements, e) && q <= e
    ensures OutcomeCovers(toks, base, a,
      if IsKind(toks, e, RBracket) then Accept(e + 1, Then(elements, Tok(toks[e])))
      else if !IsKind(toks, e, Comma) then Reject(e, elements, AnnotationField, ArrayCommaMissing)
      else ArrayElementsSpec(toks, e + 1, Then(elements, Tok(toks[e]))))
    decreases |toks| - q, 5
  {
    if IsKind(toks, e, RBracket) || IsKind(toks, e, Comma) {
      ExtendTok(toks, base, a, elements, e);
      if !IsKind(toks, e, RBracket) {
        ArrayElementsCovers(toks, base, a, e + 1, Then(elements, Tok(toks[e])));
      }
    }
  }

  lemma {:induction false} MapValueCovers(toks: seq<Token>, base: Log, a: nat, p: nat, m: Log)
    requires Covers(toks, base, a, m, p) && p < |toks|
    ensures OutcomeCovers(toks, base, a, MapValueSpec(toks, p, m))
    decreases |toks| - p, 2
  {
    var open := Then(m, Tok(toks[p]));
    ExtendTok(toks, base, a, m, p);
    if IsKind(toks, p + 1, RBrace) {
      ExtendTok(toks, base, a, open, p + 1);
    } else {
      MapEntriesCovers(toks, base, a, p + 1, open);
    }
  }

  lemma {:induction false} MapEntryCovers(toks: seq<Token>, base: Log, a: nat, q: nat, acc: Log)
    requires Covers(toks, base, a, acc, q)
    ensures OutcomeCovers(toks, base, a, MapEntrySpec(toks, q, acc))
    decreases |toks| - q, 6
  {
    FinishedFieldCovers(toks, base, a, q, acc);
    var keyFin := Finish(toks, AnnotationFieldSpec(toks, q, acc), AnnotationField, Statement);
    var c := keyFin.end;
    if IsKind(toks, c, Colon) {
      ExtendLeaf(toks, base, a, keyFin.log, c, TypeName);
      FinishedFieldCovers(toks, base, a, c + 1, Leaf(keyFin.log, toks, c, TypeName));
    }
  }

  lemma {:induction false} MapEntriesCovers(toks: seq<Token>, base: Log, a: nat, q: nat, acc: Log)
    requires Covers(toks, base, a, acc, q)
    ensures OutcomeCovers(toks, base, a, MapEntriesSpec(toks, q, acc))
    decreases |toks| - q, 8
  {
    MapEntryCovers(toks, base, a, q, acc);
    var entry := MapEntrySpec(toks, q, acc);
    if entry.Accept? {
      MapEntriesAfterCovers(toks, base, a, q, entry.end, entry.evs);
    }
  }

  /** The map-entries loop after the entry that ends at `e`. */
  lemma {:induction false} MapEntriesAfterCovers(toks: seq<Token>, base: Log, a: nat, q: nat, e: nat, evs: Log)
    requires Covers(toks, base, a, evs, e) && q < e
    ensures OutcomeCovers(toks, base, a,
      if IsKind(toks, e, RBrace) then Accept(e + 1, Then(evs, Tok(toks[e])))
      else if !IsKind(toks, e, Comma) then Reject(e, evs, AnnotationField, MapCommaMissing)
      else MapEntriesSpec(toks, e + 1, Then(evs, Tok(toks[e]))))
    decreases |toks| - q, 7
  {
    if IsKind(toks, e, RBrace) || IsKind(toks, e, Comma) {
      ExtendTok(toks, base, a, evs, e);
      if !IsKind(toks, e, RBrace) {
        MapEntriesCovers(toks, base, a, e + 1, Then(evs, Tok(toks[e])));
      }
    }
  }

  lemma {:induction false} ReferenceValueCovers(toks: seq<Token>, base: Log, a: nat, p: nat, m: Log)
    requires Covers(toks, base, a, m, p) && p < |toks|
    ensures var r := ReferenceValueSpec(toks, p, m); Covers(toks, base, a, r.log, r.end)
    decreases |toks| - p, 2
  {
    var text := toks[p].text;
    if IsKind(toks, p + 1, LParentheses) {
      var name := Leaf(m, toks, p, Ranged("Method Initializing", DotSplit(text)));
      ExtendLeaf(toks, base, a, m, p, Ranged("Method Initializing", DotSplit(text)));
      FieldArrayCovers(toks, base, a, p + 1, name);
      FinishCovers(toks, base, a, FieldArraySpec(toks, p + 1, name), AnnotationFieldArray, Statement);
    } else if IndexOf(text, '.') == -1 {
      ExtendLeaf(toks, base, a, m, p, TypeName);
    } else {
      ExtendLeaf(toks, base, a, m, p, Ranged("Enum Reference", EnumReferenceEntries(text)));
    }
  }

  lemma {:induction false} FieldArrayCovers(toks: seq<Token>, base: Log, a: nat, p: nat, log: Log)
    requires Covers(toks, base, a, log, p) && p < |toks|
    ensures OutcomeCovers(toks, base, a, FieldArraySpec(toks, p, log))
    decreases |toks| - p, 1
  {
    ExtendMark(toks, base, a, log, p, Open);
    ExtendTok(toks, base, a, Then(log, Open), p);
    FieldArrayItemsCovers(toks, base, a, p + 1, Then(Then(log, Open), Tok(toks[p])));
    var items := FieldArrayItemsSpec(toks, p + 1, Then(Then(log, Open), Tok(toks[p])));
    if items.Accept? {
      ExtendTokAt(toks, base, a, items.evs, items.end);
    }
  }

  lemma {:induction false} FieldArrayItemsCovers(toks: seq<Token>, base: Log, a: nat, q: nat, acc: Log)
    requires Covers(toks, base, a, acc, q)
    ensures OutcomeCovers(toks, base, a, FieldArrayItemsSpec(toks, q, acc))
    decreases |toks| - q, 6
  {
    if q < |toks| {
      FinishedFieldCovers(toks, base, a, q, acc);
      var fin := Finish(toks, AnnotationFieldSpec(toks, q, acc), AnnotationField, Statement);
      if !IsKind(toks, fin.end, RParentheses) && IsKind(toks, fin.end, Comma) {
        ExtendTok(toks, base, a, fin.log, fin.end);
        FieldArrayItemsCovers(toks, base, a, fin.end + 1, Then(fin.log, Tok(toks[fin.end])));
      }
    }
  }

  lemma NamedFieldCovers(toks: seq<Token>, base: Log, a: nat, q: nat, acc: Log)
    requires Covers(toks, base, a, acc, q)
    ensures OutcomeCovers(toks, base, a, NamedFieldSpec(toks, q, acc))
  {
    if IsKind(toks, q, Identifier) {
      ExtendTok(toks, base, a, acc, q);
      if IsKind(toks, q + 1, Equals) {
        ExtendTok(toks, base, a, Then(acc, Tok(toks[q])), q + 1);
        FinishedFieldCovers(toks, base, a, q + 2, Then(Then(acc, Tok(toks[q])), Tok(toks[q + 1])));
      }
    }
  }

  lemma {:induction false} NamedFieldsCovers(toks: seq<Token>, base: Log, a: nat, q: nat, acc: Log)
    requires Covers(toks, base, a, acc, q)
    ensures OutcomeCovers(toks, base, a, NamedFieldsSpec(toks, q, acc))
    decreases |toks| - q, 1
  {
    var f := NamedFieldSpec(toks, q, acc);
    assert OutcomeCovers(toks, base, a, f) by {
      NamedFieldCovers(toks, base, a, q, acc);
    }
    if f.Accept? {
      var e := f.end;
      NamedFieldsAfterCovers(toks, base, a, q, e, f.evs);
      assert NamedFieldsSpec(toks, q, acc)
          == if IsKind(toks, e, RParentheses) then Accept(e + 1, Then(f.evs, Tok(toks[e])))
             else if !IsKind(toks, e, Comma) then Reject(e, f.evs, Annotation, AnnotationCommaMissing)
             else NamedFieldsSpec(toks, e + 1, Then(f.evs, Tok(toks[e])));
    }
  }

  /** The named-values loop after the value that ends at `e`. */
  lemma {:induction false} NamedFieldsAfterCovers(toks: seq<Token>, base: Log, a: nat, q: nat, e: nat, evs: Log)
    requires Covers(toks, base, a, evs, e) && q < e
    ensures OutcomeCovers(toks, base, a,
      if IsKind(toks, e, RParentheses) then Accept(e + 1, Then(evs, Tok(toks[e])))
      else if !IsKind(toks, e, Comma) then Reject(e, evs, Annotation, AnnotationCommaMissing)
      else NamedFieldsSpec(toks, e + 1, Then(evs, Tok(toks[e]))))
    decreases |toks| - q, 0
  {
    if IsKind(toks, e, RParentheses) || IsKind(toks, e, Comma) {
      ExtendTok(toks, base, a, evs, e);
      if !IsKind(toks, e, RParentheses) {
        NamedFieldsCovers(toks, base, a, e + 1, Then(evs, Tok(toks[e])));
      }
    }
  }

  lemma AnnotationArgumentsCovers(toks: seq<Token>, base: Log, a: nat, q: nat, typed: Log)
    requires Covers(toks, base, a, typed, q)
    ensures OutcomeCovers(toks, base, a, AnnotationArgumentsSpec(toks, q, typed))
  {
    if IsKind(toks, q, LParentheses) {
      if IsKind(toks, q + 2, Equals) {
        ExtendTok(toks, base, a, typed, q);
        NamedFieldsCovers(toks, base, a, q + 1, Then(typed, Tok(toks[q])));
      } else {
        FieldArrayCovers(toks, base, a, q, typed);
        FinishCovers(toks, base, a, FieldArraySpec(toks, q, typed), AnnotationFieldArray, Statement);
      }
    }
  }

  lemma AnnotationBodyCovers(toks: seq<Token>, base: Log, a: nat, q: nat, typed: Log)
    requires Covers(toks, base, a, typed, q)
    ensures OutcomeCovers(toks, base, a, AnnotationBodySpec(toks, q, typed))
  {
    AnnotationArgumentsCovers(toks, base, a, q, typed);
    var args := AnnotationArgumentsSpec(toks, q, typed);
    if args.Accept? && IsKind(toks, args.end, RBracket) {
      ExtendTok(toks, base, a, args.evs, args.end);
    }
  }

  lemma AnnotationCovers(toks: seq<Token>, base: Log, a: nat, p: nat, log: Log)
    requires Covers(toks, base, a, log, p) && p < |toks|
    ensures OutcomeCovers(toks, base, a, AnnotationSpec(toks, p, log))
  {
    var bracket := Then(Then(log, Open), Tok(toks[p]));
    ExtendMark(toks, base, a, log, p, Open);
    ExtendTok(toks, base, a, Then(log, Open), p);
    if IsKind(toks, p + 1, Identifier) {
      ExtendLeaf(toks, base, a, bracket, p + 1, TypeName);
      AnnotationBodyCovers(toks, base, a, p + 2, Leaf(bracket, toks, p + 1, TypeName));
    }
  }

  // ---------------------------------------------------------------------
  // The whole file
  // ---------------------------------------------------------------------

  lemma TopLevelCovers(toks: seq<Token>, base: Log, a: nat, p: nat, log: Log)
    requires Covers(toks, base, a, log, p) && p < |toks|
    ensures var r := TopLevelSpec(toks, p, log); Covers(toks, base, a, r.log, r.end)
  {
    if IsWord(toks, p, "package") {
      PackageCovers(toks, base, a, p, log);
      StatementStepCovers(toks, base, a, PackageSpec(toks, p, log), PackageDefinition, p);
    } else if IsWord(toks, p, "import") {
      ImportCovers(toks, base, a, p, log);
      StatementStepCovers(toks, base, a, ImportSpec(toks, p, log), ImportDefinition, p);
    } else if IsWord(toks, p, "enum") {
      EnumDefinitionCovers(toks, base, a, p, log);
      DefinitionStepCovers(toks, base, a, EnumDefinitionSpec(toks, p, log), EnumDefinition, p);
    } else if IsWord(toks, p, "type") {
      TypeDefinitionCovers(toks, base, a, p, log);
      DefinitionStepCovers(toks, base, a, TypeDefinitionSpec(toks, p, log), TypeDefinition, p);
    } else if IsWord(toks, p, "component") {
      ComponentDefinitionCovers(toks, base, a, p, log);
      DefinitionStepCovers(toks, base, a, ComponentDefinitionSpec(toks, p, log), ComponentDefinition, p);
    } else if toks[p].text == "[" {
      AnnotationCovers(toks, base, a, p, log);
      StatementStepCovers(toks, base, a, AnnotationSpec(toks, p, log), Annotation, p);
    } else {
      ExtendMark(toks, base, a, log, p, Open);
      RecoverCovers(toks, base, a, p, TopLevel, Then(log, Open), TopLevelMessage);
    }
  }

  lemma {:induction false} DefinitionsCovers(toks: seq<Token>, base: Log, a: nat, p: nat, acc: Log)
    requires Covers(toks, base, a, acc, p)
    ensures Covers(toks, base, a, DefinitionsSpec(toks, p, acc), |toks|)
    decreases |toks| - p
  {
    if p < |toks| {
      TopLevelCovers(toks, base, a, p, acc);
      var step := TopLevelSpec(toks, p, acc);
      DefinitionsCovers(toks, base, a, step.end, step.log);
    }
  }

  /**
   * The tree of any token stream holds every token exactly once, in order:
   * however malformed the file, nothing is lost and nothing is repeated.
   */
  lemma SchemaFileCovers(toks: seq<Token>, root: NodeKind)
    ensures Leaves(SchemaFileSpec(toks, root)) == toks
  {
    DefinitionsCovers(toks, Start, 0, 0, Then(Start, Open));
    assert toks[0..|toks|] == toks;
  }
}
