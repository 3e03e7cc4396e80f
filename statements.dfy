/**
 * The specifications of the straight-line productions: package, import,
 * option, component id, enum value, field, data, event and command. Each is
 * a fixed sequence of expected tokens; the outcome is either the end of
 * the completed node, or the first position that deviates, the kind the
 * production's marker is closed as, and the diagnostic. The error itself
 * is a statement-context recovery.
 *
 * Every specification takes the log of events issued before the production
 * starts and extends it one builder call at a time, in the order the
 * parser issues them: an outcome carries the whole log up to the point
 * where the production finishes or deviates.
 */
module Statements {
  import opened Tokens
  import opened SchemaText
  import opened Recovery
  import opened TypeNames
  import opened Diagnostics

  datatype Outcome =
    | Accept(end: nat, evs: Log)
    | Reject(at: nat, evs: Log, closeAs: NodeKind, msg: string)

  predicate WellFormed(toks: seq<Token>, o: Outcome) {
    match o
    case Accept(end, _) => end <= |toks|
    case Reject(at, _, _, _) => at <= |toks|
  }

  /**
   * The cursor and the log where a production's own code stops: at the end
   * of a completed production, before its marker is closed; or, on a
   * deviation, after the marker is closed as `closeAs` and a recovery in
   * context `c` from the deviation.
   */
  function Settle(toks: seq<Token>, o: Outcome, c: Construct): (r: Parsed)
    requires WellFormed(toks, o)
    ensures r.end <= |toks|
    ensures o.Accept? ==> r == Parsed(o.end, o.evs)
    ensures o.Reject? ==> o.at <= r.end
  {
    match o
    case Accept(end, evs) => Parsed(end, evs)
    case Reject(at, evs, closeAs, msg) => Recover(toks, at, c, Then(Then(evs, Close(closeAs)), Open), msg)
  }

  /**
   * The cursor and the log after a production with this outcome: its marker
   * closed as `kind`; or, on a deviation, what `Settle` leaves.
   */
  function Finish(toks: seq<Token>, o: Outcome, kind: NodeKind, c: Construct): (r: Parsed)
    requires WellFormed(toks, o)
    ensures r.end <= |toks|
    ensures o.Accept? ==> r.end == o.end
    ensures o.Reject? ==> o.at <= r.end
  {
    match o
    case Accept(end, evs) => Parsed(end, Then(evs, Close(kind)))
    case Reject(_, _, _, _) => Settle(toks, o, c)
  }

  predicate Reaches(o: Outcome, p: nat) {
    match o
    case Accept(end, _) => p <= end
    case Reject(at, _, _, _) => p <= at
  }

  /** A production with this outcome, started at `p`, has moved past `p`. */
  predicate Advances(o: Outcome, p: nat) {
    match o
    case Accept(end, _) => p < end
    case Reject(at, _, _, _) => p < at
  }

  /**
   * Finishing a production adds no error node when it completes and exactly
   * one when it deviates.
   */
  lemma FinishErrorCount(toks: seq<Token>, o: Outcome, kind: NodeKind, c: Construct)
    requires WellFormed(toks, o)
    ensures ErrorCount(Finish(toks, o, kind, c).log) == ErrorCount(o.evs) + (if o.Reject? then 1 else 0)
  {
    if o.Reject? {
      RecoverIsRecovered(toks, o.at, c, Then(o.evs, Close(o.closeAs)), o.msg);
      RecoveryOneError(Then(o.evs, Close(o.closeAs)), toks, o.at, c, o.msg);
    }
  }

  /** `package IDENT ;` from the keyword at `p`. */
  function PackageSpec(toks: seq<Token>, p: nat, log: Log): (o: Outcome)
    requires p < |toks|
    ensures WellFormed(toks, o) && Advances(o, p)
  {
    var kw := Leaf(Then(log, Open), toks, p, Keyword);
    if !IsKind(toks, p + 1, Identifier) then
      Reject(p + 1, kw, PackageDefinition, PackageNameMissing)
    else if !IsKind(toks, p + 2, Semicolon) then
      Reject(p + 2, Leaf(kw, toks, p + 1, PackageName), PackageDefinition,
             PackageSemicolonMissing)
    else
      Accept(p + 3, Then(Leaf(kw, toks, p + 1, PackageName), Tok(toks[p + 2])))
  }

  /** `import STRING ;` from the keyword at `p`. */
  function ImportSpec(toks: seq<Token>, p: nat, log: Log): (o: Outcome)
    requires p < |toks|
    ensures WellFormed(toks, o) && Advances(o, p)
  {
    var kw := Leaf(Then(log, Open), toks, p, Keyword);
    if !IsKind(toks, p + 1, StringLit) then
      Reject(p + 1, kw, ImportDefinition, ImportFilenameMissing)
    else
      var filename := GetString(Some(toks[p + 1].text));
      if !IsKind(toks, p + 2, Semicolon) then
        Reject(p + 2, Leaf(kw, toks, p + 1, ImportFilename), ImportDefinition,
               ImportSemicolonMissing(filename))
      else
        Accept(p + 3, Then(Leaf(kw, toks, p + 1, ImportFilename), Tok(toks[p + 2])))
  }

  /** `option IDENT = IDENT ;` from the keyword at `p`. */
  function OptionSpec(toks: seq<Token>, p: nat, log: Log): (o: Outcome)
    requires p < |toks|
    ensures WellFormed(toks, o) && Advances(o, p)
  {
    var kw := Leaf(Then(log, Open), toks, p, Keyword);
    if !IsKind(toks, p + 1, Identifier) then
      Reject(p + 1, kw, OptionDefinition, OptionNameMissing)
    else
      var name := toks[p + 1].text;
      var named := Leaf(kw, toks, p + 1, OptionName);
      if !IsKind(toks, p + 2, Equals) then
        Reject(p + 2, named, OptionDefinition, OptionEqualsMissing(name))
      else if !IsKind(toks, p + 3, Identifier) then
        Reject(p + 3, Then(named, Tok(toks[p + 2])), OptionDefinition,
               OptionValueMissing(name))
      else
        var value := toks[p + 3].text;
        var valued := Leaf(Then(named, Tok(toks[p + 2])), toks, p + 3, OptionValue);
        if !IsKind(toks, p + 4, Semicolon) then
          Reject(p + 4, valued, OptionDefinition,
                 OptionSemicolonMissing(name, value))
        else
          Accept(p + 5, Then(valued, Tok(toks[p + 4])))
  }

  /** `id = INTEGER ;` from the keyword at `p`. */
  function ComponentIdSpec(toks: seq<Token>, p: nat, log: Log): (o: Outcome)
    requires p < |toks|
    ensures WellFormed(toks, o) && Advances(o, p)
  {
    var kw := Leaf(Then(log, Open), toks, p, Keyword);
    if !IsKind(toks, p + 1, Equals) then
      Reject(p + 1, kw, ComponentIdDefinition, IdEqualsMissing)
    else if !IsKind(toks, p + 2, Integer) then
      Reject(p + 2, Then(kw, Tok(toks[p + 1])), ComponentIdDefinition,
             IdValueMissing)
    else
      var value := ParseInt(Some(toks[p + 2].text));
      var valued := Leaf(Then(kw, Tok(toks[p + 1])), toks, p + 2, FieldNumber);
      if !IsKind(toks, p + 3, Semicolon) then
        Reject(p + 3, valued, ComponentIdDefinition,
               IdSemicolonMissing(value))
      else
        Accept(p + 4, Then(valued, Tok(toks[p + 3])))
  }

  /** `IDENT = INTEGER ;` from the value name at `p`, inside an enum. */
  function EnumValueSpec(toks: seq<Token>, p: nat, log: Log): (o: Outcome)
    requires p < |toks|
    ensures WellFormed(toks, o) && Advances(o, p)
  {
    var name := toks[p].text;
    var named := Leaf(Then(log, Open), toks, p, FieldName);
    if !IsKind(toks, p + 1, Equals) then
      Reject(p + 1, named, EnumValueDefinition, EnumValueEqualsMissing(name))
    else if !IsKind(toks, p + 2, Integer) then
      Reject(p + 2, Then(named, Tok(toks[p + 1])), EnumValueDefinition,
             EnumValueMissing(name))
    else
      var value := ParseInt(Some(toks[p + 2].text));
      var valued := Leaf(Then(named, Tok(toks[p + 1])), toks, p + 2, FieldNumber);
      if !IsKind(toks, p + 3, Semicolon) then
        Reject(p + 3, valued, EnumValueDefinition,
               EnumValueSemicolonMissing(name, value))
      else
        Accept(p + 4, Then(valued, Tok(toks[p + 3])))
  }

  /** The log after a successfully scanned type name: its marker closed as `FieldType`. */
  function TypeNode(r: TypeNameResult): Log {
    Then(r.evs, Close(FieldType))
  }

  /** The log after a malformed type name: its marker dropped. */
  function DroppedTypeNode(r: TypeNameResult): Log {
    Then(r.evs, Event.Drop)
  }

  /**
   * A type name scanned at `p` after the events `marked`: it scans as it
   * would after any other events, its node adds no error node whether it is
   * closed or dropped, and a closed node adds the type name's events and the
   * `FieldType` close.
   */
  lemma TypeNodeFacts(toks: seq<Token>, p: nat, marked: Log)
    requires p < |toks|
    ensures var t := ScanTypeName(toks, p, marked);
      && SameScan(t, ScanTypeName(toks, p, Start))
      && ErrorCount(TypeNode(t)) == ErrorCount(marked)
      && ErrorCount(DroppedTypeNode(t)) == ErrorCount(marked)
      && Events(TypeNode(t)) == Events(marked) + TypeNameEvents(toks, p) + [Close(FieldType)]
  {
    ScanTypeNameLogFree(toks, p, marked, Start);
    ScanTypeNameErrorFree(toks, p, marked);
    ScanTypeNameEvents(toks, p, marked);
  }

  /**
   * The rest of a field after its type name: `IDENT = INTEGER ;` from `e`,
   * where `tn` is the rendered type name and `typed` the events so far.
   */
  function FieldTailSpec(toks: seq<Token>, e: nat, tn: string, typed: Log): (o: Outcome)
    requires e <= |toks|
    ensures WellFormed(toks, o) && Reaches(o, e)
  {
    if !IsKind(toks, e, Identifier) then
      Reject(e, typed, FieldDefinition, FieldNameMissing(tn))
    else
      var fn := toks[e].text;
      var named := Leaf(typed, toks, e, FieldName);
      if !IsKind(toks, e + 1, Equals) then
        Reject(e + 1, named, FieldDefinition, FieldEqualsMissing(tn, fn))
      else if !IsKind(toks, e + 2, Integer) then
        Reject(e + 2, Then(named, Tok(toks[e + 1])), FieldDefinition,
               FieldNumberMissing(tn, fn))
      else
        var number := ParseInt(Some(toks[e + 2].text));
        var numbered := Leaf(Then(named, Tok(toks[e + 1])), toks, e + 2, FieldNumber);
        if !IsKind(toks, e + 3, Semicolon) then
          Reject(e + 3, numbered, FieldDefinition,
                 FieldSemicolonMissing(tn, fn, number))
        else
          Accept(e + 4, Then(numbered, Tok(toks[e + 3])))
  }

  /** `TypeName IDENT = INTEGER ;` from the type name at `p`. */
  function FieldSpec(toks: seq<Token>, p: nat, log: Log): (o: Outcome)
    requires p < |toks|
    ensures WellFormed(toks, o) && Advances(o, p)
  {
    var t := ScanTypeName(toks, p, Then(log, Open));
    match t
    case TypeNameErr(at, _, msg) => Reject(at, DroppedTypeNode(t), FieldDefinition, msg)
    case TypeNameOk(tn, e, _) => FieldTailSpec(toks, e, tn, TypeNode(t))
  }

  /**
   * `data TypeName ;` from the keyword at `p`. A malformed type name closes
   * the marker as `FieldDefinition`, not `DataDefinition`.
   */
  function DataSpec(toks: seq<Token>, p: nat, log: Log): (o: Outcome)
    requires p < |toks|
    ensures WellFormed(toks, o) && Advances(o, p)
  {
    var kw := Leaf(Then(log, Open), toks, p, Keyword);
    if !IsKind(toks, p + 1, Identifier) then
      Reject(p + 1, kw, DataDefinition, DataTypenameMissing)
    else
      var t := ScanTypeName(toks, p + 1, kw);
      match t
      case TypeNameErr(at, _, msg) => Reject(at, DroppedTypeNode(t), FieldDefinition, msg)
      case TypeNameOk(tn, e, _) =>
        if !IsKind(toks, e, Semicolon) then
          Reject(e, TypeNode(t), DataDefinition, DataSemicolonMissing(tn))
        else
          Accept(e + 1, Then(TypeNode(t), Tok(toks[e])))
  }

  /**
   * `event TypeName IDENT ;` from the keyword at `p`. A malformed type name
   * closes the marker as `FieldDefinition`, not `EventDefinition`.
   */
  function EventSpec(toks: seq<Token>, p: nat, log: Log): (o: Outcome)
    requires p < |toks|
    ensures WellFormed(toks, o) && Advances(o, p)
  {
    var kw := Leaf(Then(log, Open), toks, p, Keyword);
    if !IsKind(toks, p + 1, Identifier) then
      Reject(p + 1, kw, EventDefinition, EventTypenameMissing)
    else
      var t := ScanTypeName(toks, p + 1, kw);
      match t
      case TypeNameErr(at, _, msg) => Reject(at, DroppedTypeNode(t), FieldDefinition, msg)
      case TypeNameOk(tn, e, _) => EventTailSpec(toks, e, tn, TypeNode(t))
  }

  /**
   * The rest of an event after its type name: `IDENT ;` from `e`, where
   * `tn` is the rendered type name and `typed` the events so far.
   */
  function EventTailSpec(toks: seq<Token>, e: nat, tn: string, typed: Log): (o: Outcome)
    requires e <= |toks|
    ensures WellFormed(toks, o) && Reaches(o, e)
  {
    if !IsKind(toks, e, Identifier) then
      Reject(e, typed, EventDefinition, EventFieldNameMissing(tn))
    else
      var fn := toks[e].text;
      var named := Leaf(typed, toks, e, FieldName);
      if !IsKind(toks, e + 1, Semicolon) then
        Reject(e + 1, named, EventDefinition, EventSemicolonMissing(tn, fn))
      else
        Accept(e + 2, Then(named, Tok(toks[e + 1])))
  }

  /**
   * The rest of a command after its name: `( IDENT ) ;` from `q`, where
   * `response` and `name` are the command's and `named` the events so far. Every
   * deviation here closes the marker as `FieldDefinition`.
   */
  function CommandTailSpec(toks: seq<Token>, q: nat, response: string, name: string, named: Log): (o: Outcome)
    requires q <= |toks|
    ensures WellFormed(toks, o) && Reaches(o, q)
  {
    if !IsKind(toks, q, LParentheses) then
      Reject(q, named, FieldDefinition, CommandLParenMissing(response, name))
    else if !IsKind(toks, q + 1, Identifier) then
      Reject(q + 1, Then(named, Tok(toks[q])), FieldDefinition,
             CommandRequestMissing(response, name))
    else
      var request := toks[q + 1].text;
      var requested := Leaf(Then(named, Tok(toks[q])), toks, q + 1, TypeName);
      if !IsKind(toks, q + 2, RParentheses) then
        Reject(q + 2, requested, FieldDefinition,
               CommandRParenMissing(response, name, request))
      else if !IsKind(toks, q + 3, Semicolon) then
        Reject(q + 3, Then(requested, Tok(toks[q + 2])), FieldDefinition,
               CommandSemicolonMissing(response, name, request))
      else
        Accept(q + 4, Then(Then(requested, Tok(toks[q + 2])), Tok(toks[q + 3])))
  }

  /**
   * `command IDENT IDENT ( IDENT ) ;` from the keyword at `p`. A deviation
   * after the command name closes the marker as `FieldDefinition`.
   */
  function CommandSpec(toks: seq<Token>, p: nat, log: Log): (o: Outcome)
    requires p < |toks|
    ensures WellFormed(toks, o) && Advances(o, p)
  {
    var kw := Leaf(Then(log, Open), toks, p, Keyword);
    if !IsKind(toks, p + 1, Identifier) then
      Reject(p + 1, kw, CommandDefinition, CommandResponseMissing)
    else
      var response := toks[p + 1].text;
      var typed := Leaf(kw, toks, p + 1, TypeName);
      if !IsKind(toks, p + 2, Identifier) then
        Reject(p + 2, typed, CommandDefinition, CommandNameMissing(response))
      else
        var name := toks[p + 2].text;
        CommandTailSpec(toks, p + 3, response, name, Leaf(typed, toks, p + 2, FieldName))
  }

  /**
   * The outcome of a production that expects one token of each of the
   * kinds `ks` from `q` on: it completes right after them when they all
   * match, and otherwise deviates at the first one that does not.
   */
  predicate Expects(toks: seq<Token>, o: Outcome, q: int, ks: seq<TokenKind>) {
    var n := Matches(toks, q, ks);
    && (o.Accept? <==> n == |ks|)
    && (o.Accept? ==> o.end == q + |ks|)
    && (o.Reject? ==> o.at == q + n)
  }

  /**
   * `package`: a name and `;`; a deviation closes the marker as
   * `PackageDefinition`. The events of a complete definition are the
   * definition's marker, a `Keyword` leaf, a `PackageName` leaf and the
   * bare `;`; no error node is added either way.
   */
  lemma PackageShape(toks: seq<Token>, p: nat, log: Log)
    requires p < |toks|
    ensures var o := PackageSpec(toks, p, log);
      && Expects(toks, o, p + 1, [Identifier, Semicolon]) && (o.Reject? ==> o.closeAs == PackageDefinition)
      && ErrorCount(o.evs) == ErrorCount(log)
      && (o.Reject? && o.at == p + 1 ==> o.msg == "Expected a package name after 'package'.")
      && (o.Reject? && o.at == p + 2 ==> o.msg == "Expected ';' after package definition.")
      && (o.Accept? ==>
            && p + 2 < |toks|
            && Events(o.evs) == Events(log) + [Open] + [Open, Tok(toks[p]), Close(Keyword)]
                                 + [Open, Tok(toks[p + 1]), Close(PackageName)] + [Tok(toks[p + 2])])
  {
    var kw := Leaf(Then(log, Open), toks, p, Keyword);
    LeafEvents(Then(log, Open), toks, p, Keyword);
    if IsKind(toks, p + 1, Identifier) {
      LeafEvents(kw, toks, p + 1, PackageName);
    }
  }

  /**
   * `import`: a string and `;`; a deviation closes the marker as
   * `ImportDefinition`. The events of a complete definition are the marker,
   * a `Keyword` leaf, an `ImportFilename` leaf and the bare `;`; no error
   * node is added either way.
   */
  lemma ImportShape(toks: seq<Token>, p: nat, log: Log)
    requires p < |toks|
    ensures var o := ImportSpec(toks, p, log);
      && Expects(toks, o, p + 1, [StringLit, Semicolon]) && (o.Reject? ==> o.closeAs == ImportDefinition)
      && ErrorCount(o.evs) == ErrorCount(log)
      && (o.Reject? && o.at == p + 1 ==> o.msg == "Expected a quoted filename after 'import'.")
      && (o.Reject? && o.at == p + 2 && |toks[p + 1].text| >= 3 ==>
            o.msg == "Expected ';' after 'import \"" + toks[p + 1].text[1..|toks[p + 1].text| - 2] + "\"'.")
      && (o.Accept? ==>
            && p + 2 < |toks|
            && Events(o.evs) == Events(log) + [Open] + [Open, Tok(toks[p]), Close(Keyword)]
                                 + [Open, Tok(toks[p + 1]), Close(ImportFilename)] + [Tok(toks[p + 2])])
  {
    var kw := Leaf(Then(log, Open), toks, p, Keyword);
    LeafEvents(Then(log, Open), toks, p, Keyword);
    if IsKind(toks, p + 1, StringLit) {
      LeafEvents(kw, toks, p + 1, ImportFilename);
    }
  }

  /**
   * `option`: a name, `=`, a value and `;`; a deviation closes the marker as
   * `OptionDefinition`. The events of a complete definition are the marker,
   * a `Keyword` leaf, an `OptionName` leaf, the bare `=`, an `OptionValue`
   * leaf and the bare `;`; no error node is added either way.
   */
  lemma OptionShape(toks: seq<Token>, p: nat, log: Log)
    requires p < |toks|
    ensures var o := OptionSpec(toks, p, log);
      && Expects(toks, o, p + 1, [Identifier, Equals, Identifier, Semicolon]) && (o.Reject? ==> o.closeAs == OptionDefinition)
      && ErrorCount(o.evs) == ErrorCount(log)
      && (o.Reject? && o.at == p + 1 ==> o.msg == "Expected identifier after 'option'.")
      && (o.Reject? && o.at == p + 2 ==> o.msg == "Expected '=' after 'option " + toks[p + 1].text + "'.")
      && (o.Reject? && o.at == p + 3 ==> o.msg == "Expected option value after 'option " + toks[p + 1].text + " = '.")
      && (o.Reject? && o.at == p + 4 ==>
            o.msg == "Expected ';' after 'option " + toks[p + 1].text + " = " + toks[p + 3].text + "'.")
      && (o.Accept? ==>
            && p + 4 < |toks|
            && Events(o.evs) == Events(log) + [Open] + [Open, Tok(toks[p]), Close(Keyword)]
                                 + [Open, Tok(toks[p + 1]), Close(OptionName)] + [Tok(toks[p + 2])]
                                 + [Open, Tok(toks[p + 3]), Close(OptionValue)] + [Tok(toks[p + 4])])
  {
    OptionTokens(toks, p, log);
    OptionEvents(toks, p, log);
    OptionMessages(toks, p, log);
  }

  /** The tokens half of `OptionShape`. */
  lemma OptionTokens(toks: seq<Token>, p: nat, log: Log)
    requires p < |toks|
    ensures var o := OptionSpec(toks, p, log);
      Expects(toks, o, p + 1, [Identifier, Equals, Identifier, Semicolon]) && (o.Reject? ==> o.closeAs == OptionDefinition)
  {
  }

  /** The events and error count half of `OptionShape`. */
  lemma OptionEvents(toks: seq<Token>, p: nat, log: Log)
    requires p < |toks|
    ensures var o := OptionSpec(toks, p, log);
      && ErrorCount(o.evs) == ErrorCount(log)
      && (o.Accept? ==>
            && p + 4 < |toks|
            && Events(o.evs) == Events(log) + [Open] + [Open, Tok(toks[p]), Close(Keyword)]
                                 + [Open, Tok(toks[p + 1]), Close(OptionName)] + [Tok(toks[p + 2])]
                                 + [Open, Tok(toks[p + 3]), Close(OptionValue)] + [Tok(toks[p + 4])])
  {
    var kw := Leaf(Then(log, Open), toks, p, Keyword);
    LeafEvents(Then(log, Open), toks, p, Keyword);
    if IsKind(toks, p + 1, Identifier) {
      var named := Leaf(kw, toks, p + 1, OptionName);
      LeafEvents(kw, toks, p + 1, OptionName);
      if IsKind(toks, p + 2, Equals) && IsKind(toks, p + 3, Identifier) {
        LeafEvents(Then(named, Tok(toks[p + 2])), toks, p + 3, OptionValue);
      }
    }
  }

  /** The diagnostics half of `OptionShape`. */
  lemma OptionMessages(toks: seq<Token>, p: nat, log: Log)
    requires p < |toks|
    ensures var o := OptionSpec(toks, p, log);
      && (o.Reject? && o.at == p + 1 ==> o.msg == "Expected identifier after 'option'.")
      && (o.Reject? && o.at == p + 2 ==> o.msg == "Expected '=' after 'option " + toks[p + 1].text + "'.")
      && (o.Reject? && o.at == p + 3 ==> o.msg == "Expected option value after 'option " + toks[p + 1].text + " = '.")
      && (o.Reject? && o.at == p + 4 ==>
            o.msg == "Expected ';' after 'option " + toks[p + 1].text + " = " + toks[p + 3].text + "'.")
  {
  }

  /**
   * `id`: `=`, an integer and `;`; a deviation closes the marker as
   * `ComponentIdDefinition`. The events of a complete definition are the
   * marker, a `Keyword` leaf, the bare `=`, a `FieldNumber` leaf and the
   * bare `;`; no error node is added either way.
   */
  lemma ComponentIdShape(toks: seq<Token>, p: nat, log: Log)
    requires p < |toks|
    ensures var o := ComponentIdSpec(toks, p, log);
      && Expects(toks, o, p + 1, [Equals, Integer, Semicolon]) && (o.Reject? ==> o.closeAs == ComponentIdDefinition)
      && ErrorCount(o.evs) == ErrorCount(log)
      && (o.Accept? ==>
            && p + 3 < |toks|
            && Events(o.evs) == Events(log) + [Open] + [Open, Tok(toks[p]), Close(Keyword)] + [Tok(toks[p + 1])]
                                 + [Open, Tok(toks[p + 2]), Close(FieldNumber)] + [Tok(toks[p + 3])])
      && (o.Reject? && o.at == p + 1 ==> o.msg == "Expected '=' after 'id'.")
      && (o.Reject? && o.at == p + 2 ==> o.msg == "Expected integer ID value after 'id = '.")
      && (o.Reject? && o.at == p + 3 ==>
            o.msg == "Expected ';' after 'id = " + NatToString(ParseInt(Some(toks[p + 2].text))) + "'.")
  {
    ComponentIdTokens(toks, p, log);
    ComponentIdEvents(toks, p, log);
    ComponentIdMessages(toks, p, log);
  }

  /** The tokens half of `ComponentIdShape`. */
  lemma ComponentIdTokens(toks: seq<Token>, p: nat, log: Log)
    requires p < |toks|
    ensures var o := ComponentIdSpec(toks, p, log);
      && Expects(toks, o, p + 1, [Equals, Integer, Semicolon]) && (o.Reject? ==> o.closeAs == ComponentIdDefinition)
  {
  }

  /** The events and error count half of `ComponentIdShape`. */
  lemma ComponentIdEvents(toks: seq<Token>, p: nat, log: Log)
    requires p < |toks|
    ensures var o := ComponentIdSpec(toks, p, log);
      && ErrorCount(o.evs) == ErrorCount(log)
      && (o.Accept? ==>
            && p + 3 < |toks|
            && Events(o.evs) == Events(log) + [Open] + [Open, Tok(toks[p]), Close(Keyword)] + [Tok(toks[p + 1])]
                                 + [Open, Tok(toks[p + 2]), Close(FieldNumber)] + [Tok(toks[p + 3])])
  {
    var kw := Leaf(Then(log, Open), toks, p, Keyword);
    LeafEvents(Then(log, Open), toks, p, Keyword);
    if IsKind(toks, p + 1, Equals) && IsKind(toks, p + 2, Integer) {
      LeafEvents(Then(kw, Tok(toks[p + 1])), toks, p + 2, FieldNumber);
    }
  }

  /** The diagnostics half of `ComponentIdShape`. */
  lemma ComponentIdMessages(toks: seq<Token>, p: nat, log: Log)
    requires p < |toks|
    ensures var o := ComponentIdSpec(toks, p, log);
      && (o.Reject? && o.at == p + 1 ==> o.msg == "Expected '=' after 'id'.")
      && (o.Reject? && o.at == p + 2 ==> o.msg == "Expected integer ID value after 'id = '.")
      && (o.Reject? && o.at == p + 3 ==>
            o.msg == "Expected ';' after 'id = " + NatToString(ParseInt(Some(toks[p + 2].text))) + "'.")
  {
  }

  /**
   * An enum value: `=`, an integer and `;` after its name; a deviation
   * closes the marker as `EnumValueDefinition`. The events of a complete
   * value are the marker, a `FieldName` leaf, the bare `=`, a `FieldNumber`
   * leaf and the bare `;`; no error node is added either way.
   */
  lemma EnumValueShape(toks: seq<Token>, p: nat, log: Log)
    requires p < |toks|
    ensures var o := EnumValueSpec(toks, p, log);
      && Expects(toks, o, p + 1, [Equals, Integer, Semicolon]) && (o.Reject? ==> o.closeAs == EnumValueDefinition)
      && ErrorCount(o.evs) == ErrorCount(log)
      && (o.Accept? ==>
            && p + 3 < |toks|
            && Events(o.evs) == Events(log) + [Open] + [Open, Tok(toks[p]), Close(FieldName)] + [Tok(toks[p + 1])]
                                 + [Open, Tok(toks[p + 2]), Close(FieldNumber)] + [Tok(toks[p + 3])])
      && (o.Reject? && o.at == p + 1 ==> o.msg == "Expected '=' after '" + toks[p].text + "'.")
      && (o.Reject? && o.at == p + 2 ==> o.msg == "Expected integer enum value after '" + toks[p].text + " = '.")
      && (o.Reject? && o.at == p + 3 ==>
            o.msg == "Expected ';' after '" + toks[p].text + " = " + NatToString(ParseInt(Some(toks[p + 2].text))) + "'.")
  {
    EnumValueTokens(toks, p, log);
    EnumValueEvents(toks, p, log);
    EnumValueMessages(toks, p, log);
  }

  /** The tokens half of `EnumValueShape`. */
  lemma EnumValueTokens(toks: seq<Token>, p: nat, log: Log)
    requires p < |toks|
    ensures var o := EnumValueSpec(toks, p, log);
      && Expects(toks, o, p + 1, [Equals, Integer, Semicolon]) && (o.Reject? ==> o.closeAs == EnumValueDefinition)
  {
  }

  /** The events and error count half of `EnumValueShape`. */
  lemma EnumValueEvents(toks: seq<Token>, p: nat, log: Log)
    requires p < |toks|
    ensures var o := EnumValueSpec(toks, p, log);
      && ErrorCount(o.evs) == ErrorCount(log)
      && (o.Accept? ==>
            && p + 3 < |toks|
            && Events(o.evs) == Events(log) + [Open] + [Open, Tok(toks[p]), Close(FieldName)] + [Tok(toks[p + 1])]
                                 + [Open, Tok(toks[p + 2]), Close(FieldNumber)] + [Tok(toks[p + 3])])
  {
    var named := Leaf(Then(log, Open), toks, p, FieldName);
    LeafEvents(Then(log, Open), toks, p, FieldName);
    if IsKind(toks, p + 1, Equals) && IsKind(toks, p + 2, Integer) {
      LeafEvents(Then(named, Tok(toks[p + 1])), toks, p + 2, FieldNumber);
    }
  }

  /** The diagnostics half of `EnumValueShape`. */
  lemma EnumValueMessages(toks: seq<Token>, p: nat, log: Log)
    requires p < |toks|
    ensures var o := EnumValueSpec(toks, p, log);
      && (o.Reject? && o.at == p + 1 ==> o.msg == "Expected '=' after '" + toks[p].text + "'.")
      && (o.Reject? && o.at == p + 2 ==> o.msg == "Expected integer enum value after '" + toks[p].text + " = '.")
      && (o.Reject? && o.at == p + 3 ==>
            o.msg == "Expected ';' after '" + toks[p].text + " = " + NatToString(ParseInt(Some(toks[p + 2].text))) + "'.")
  {
  }

  /**
   * The rest of a field: a name, `=`, an integer and `;`; a deviation
   * closes the marker as `FieldDefinition`. A complete tail adds a
   * `FieldName` leaf, the bare `=`, a `FieldNumber` leaf and the bare `;`;
   * no error node is added either way.
   */
  lemma FieldTailShape(toks: seq<Token>, e: nat, tn: string, typed: Log)
    requires e <= |toks|
    ensures var o := FieldTailSpec(toks, e, tn, typed);
      && Expects(toks, o, e, [Identifier, Equals, Integer, Semicolon]) && (o.Reject? ==> o.closeAs == FieldDefinition)
      && ErrorCount(o.evs) == ErrorCount(typed)
      && (o.Accept? ==>
            && e + 3 < |toks|
            && Events(o.evs) == Events(typed) + [Open, Tok(toks[e]), Close(FieldName)] + [Tok(toks[e + 1])]
                                 + [Open, Tok(toks[e + 2]), Close(FieldNumber)] + [Tok(toks[e + 3])])
      && (o.Reject? && o.at == e ==> o.msg == "Expected field name after '" + tn + "'.")
      && (o.Reject? && o.at == e + 1 ==> o.msg == "Expected '=' after '" + tn + " " + toks[e].text + "'.")
      && (o.Reject? && o.at == e + 2 ==> o.msg == "Expected field number after '" + tn + " " + toks[e].text + " = '.")
      && (o.Reject? && o.at == e + 3 ==>
            o.msg == "Expected ';' after '" + tn + " " + toks[e].text + " = " + NatToString(ParseInt(Some(toks[e + 2].text))) + "'.")
  {
    FieldTailTokens(toks, e, tn, typed);
    FieldTailEvents(toks, e, tn, typed);
    FieldTailMessages(toks, e, tn, typed);
  }

  /** The tokens half of `FieldTailShape`. */
  lemma FieldTailTokens(toks: seq<Token>, e: nat, tn: string, typed: Log)
    requires e <= |toks|
    ensures var o := FieldTailSpec(toks, e, tn, typed);
      && Expects(toks, o, e, [Identifier, Equals, Integer, Semicolon]) && (o.Reject? ==> o.closeAs == FieldDefinition)
  {
  }

  /** The events and error count half of `FieldTailShape`. */
  lemma FieldTailEvents(toks: seq<Token>, e: nat, tn: string, typed: Log)
    requires e <= |toks|
    ensures var o := FieldTailSpec(toks, e, tn, typed);
      && ErrorCount(o.evs) == ErrorCount(typed)
      && (o.Accept? ==>
            && e + 3 < |toks|
            && Events(o.evs) == Events(typed) + [Open, Tok(toks[e]), Close(FieldName)] + [Tok(toks[e + 1])]
                                 + [Open, Tok(toks[e + 2]), Close(FieldNumber)] + [Tok(toks[e + 3])])
  {
    if IsKind(toks, e, Identifier) {
      var named := Leaf(typed, toks, e, FieldName);
      LeafEvents(typed, toks, e, FieldName);
      if IsKind(toks, e + 1, Equals) && IsKind(toks, e + 2, Integer) {
        LeafEvents(Then(named, Tok(toks[e + 1])), toks, e + 2, FieldNumber);
      }
    }
  }

  /** The diagnostics half of `FieldTailShape`. */
  lemma FieldTailMessages(toks: seq<Token>, e: nat, tn: string, typed: Log)
    requires e <= |toks|
    ensures var o := FieldTailSpec(toks, e, tn, typed);
      && (o.Reject? && o.at == e ==> o.msg == "Expected field name after '" + tn + "'.")
      && (o.Reject? && o.at == e + 1 ==> o.msg == "Expected '=' after '" + tn + " " + toks[e].text + "'.")
      && (o.Reject? && o.at == e + 2 ==> o.msg == "Expected field number after '" + tn + " " + toks[e].text + " = '.")
      && (o.Reject? && o.at == e + 3 ==>
            o.msg == "Expected ';' after '" + tn + " " + toks[e].text + " = " + NatToString(ParseInt(Some(toks[e + 2].text))) + "'.")
  {
  }

  /**
   * A field: a malformed type name is reported where the scan found it, with
   * the scan's message; a well-formed one is followed by the field's tail.
   * Either way a deviation closes the marker as `FieldDefinition`. A
   * complete field's events are its marker, the type name's node closed as
   * `FieldType`, and the tail's; no error node is added either way. The
   * scan's verdict, name and end do not depend on the events before it
   * (`ScanTypeNameLogFree`).
   */
  lemma FieldShape(toks: seq<Token>, p: nat, log: Log)
    requires p < |toks|
    ensures var o := FieldSpec(toks, p, log);
      var t := ScanTypeName(toks, p, Then(log, Open));
      && (o.Reject? ==> o.closeAs == FieldDefinition)
      && (t.TypeNameErr? ==> o.Reject? && o.at == t.at && o.msg == t.msg)
      && (t.TypeNameOk? ==> Expects(toks, o, t.end, [Identifier, Equals, Integer, Semicolon]))
      && ErrorCount(o.evs) == ErrorCount(log)
      && (o.Accept? ==>
            && t.TypeNameOk? && t.end + 3 < |toks|
            && Events(o.evs) == Events(log) + [Open] + TypeNameEvents(toks, p) + [Close(FieldType)]
                                 + [Open, Tok(toks[t.end]), Close(FieldName)] + [Tok(toks[t.end + 1])]
                                 + [Open, Tok(toks[t.end + 2]), Close(FieldNumber)] + [Tok(toks[t.end + 3])])
      && (t.TypeNameOk? ==> var tn, e := t.name, t.end;
            && (o.Reject? && o.at == e ==> o.msg == "Expected field name after '" + tn + "'.")
            && (o.Reject? && o.at == e + 1 ==> o.msg == "Expected '=' after '" + tn + " " + toks[e].text + "'.")
            && (o.Reject? && o.at == e + 2 ==> o.msg == "Expected field number after '" + tn + " " + toks[e].text + " = '.")
            && (o.Reject? && o.at == e + 3 ==>
                  o.msg == "Expected ';' after '" + tn + " " + toks[e].text + " = " + NatToString(ParseInt(Some(toks[e + 2].text))) + "'."))
  {
    FieldTokens(toks, p, log);
    FieldErrorFree(toks, p, log);
    FieldEvents(toks, p, log);
    FieldMessages(toks, p, log);
  }

  /** The tokens half of `FieldShape`. */
  lemma FieldTokens(toks: seq<Token>, p: nat, log: Log)
    requires p < |toks|
    ensures var o := FieldSpec(toks, p, log);
      var t := ScanTypeName(toks, p, Then(log, Open));
      && (o.Reject? ==> o.closeAs == FieldDefinition)
      && (t.TypeNameErr? ==> o.Reject? && o.at == t.at && o.msg == t.msg)
      && (t.TypeNameOk? ==> Expects(toks, o, t.end, [Identifier, Equals, Integer, Semicolon]))
  {
    var t := ScanTypeName(toks, p, Then(log, Open));
    if t.TypeNameOk? {
      assert FieldSpec(toks, p, log) == FieldTailSpec(toks, t.end, t.name, TypeNode(t));
      FieldTailTokens(toks, t.end, t.name, TypeNode(t));
    }
  }

  /** The error count part of `FieldShape`. */
  lemma FieldErrorFree(toks: seq<Token>, p: nat, log: Log)
    requires p < |toks|
    ensures ErrorCount(FieldSpec(toks, p, log).evs) == ErrorCount(log)
  {
    var t := ScanTypeName(toks, p, Then(log, Open));
    ScanTypeNameErrorFree(toks, p, Then(log, Open));
    assert ErrorCount(Then(log, Open)) == ErrorCount(log);
    if t.TypeNameOk? {
      assert FieldSpec(toks, p, log) == FieldTailSpec(toks, t.end, t.name, TypeNode(t));
      FieldTailEvents(toks, t.end, t.name, TypeNode(t));
    }
  }

  /** The events part of `FieldShape`. */
  lemma FieldEvents(toks: seq<Token>, p: nat, log: Log)
    requires p < |toks|
    ensures var o := FieldSpec(toks, p, log);
      var t := ScanTypeName(toks, p, Then(log, Open));
      o.Accept? ==>
        && t.TypeNameOk? && t.end + 3 < |toks|
        && Events(o.evs) == Events(log) + [Open] + TypeNameEvents(toks, p) + [Close(FieldType)]
                             + [Open, Tok(toks[t.end]), Close(FieldName)] + [Tok(toks[t.end + 1])]
                             + [Open, Tok(toks[t.end + 2]), Close(FieldNumber)] + [Tok(toks[t.end + 3])]
  {
    var t := ScanTypeName(toks, p, Then(log, Open));
    if t.TypeNameErr? {
      assert FieldSpec(toks, p, log).Reject?;
    } else {
      assert FieldSpec(toks, p, log) == FieldTailSpec(toks, t.end, t.name, TypeNode(t));
      var before := Events(log) + [Open] + TypeNameEvents(toks, p) + [Close(FieldType)];
      assert Events(TypeNode(t)) == before by {
        ScanTypeNameEvents(toks, p, Then(log, Open));
        assert Events(Then(log, Open)) == Events(log) + [Open];
      }
      FieldTailAfter(toks, t.end, t.name, TypeNode(t), before);
    }
  }

  /** `FieldTailEvents` for a type node whose events are known to be `before`. */
  lemma FieldTailAfter(toks: seq<Token>, e: nat, tn: string, typed: Log, before: seq<Event>)
    requires e <= |toks| && Events(typed) == before
    ensures var o := FieldTailSpec(toks, e, tn, typed);
      o.Accept? ==>
        && e + 3 < |toks|
        && Events(o.evs) == before + [Open, Tok(toks[e]), Close(FieldName)] + [Tok(toks[e + 1])]
                            + [Open, Tok(toks[e + 2]), Close(FieldNumber)] + [Tok(toks[e + 3])]
  {
    FieldTailEvents(toks, e, tn, typed);
  }

  /** The diagnostics half of `FieldShape`. */
  lemma FieldMessages(toks: seq<Token>, p: nat, log: Log)
    requires p < |toks|
    ensures var o := FieldSpec(toks, p, log);
      var t := ScanTypeName(toks, p, Then(log, Open));
      && (t.TypeNameOk? ==> var tn, e := t.name, t.end;
            && (o.Reject? && o.at == e ==> o.msg == "Expected field name after '" + tn + "'.")
            && (o.Reject? && o.at == e + 1 ==> o.msg == "Expected '=' after '" + tn + " " + toks[e].text + "'.")
            && (o.Reject? && o.at == e + 2 ==> o.msg == "Expected field number after '" + tn + " " + toks[e].text + " = '.")
            && (o.Reject? && o.at == e + 3 ==>
                  o.msg == "Expected ';' after '" + tn + " " + toks[e].text + " = " + NatToString(ParseInt(Some(toks[e + 2].text))) + "'."))
  {
    var t := ScanTypeName(toks, p, Then(log, Open));
    if t.TypeNameOk? {
      assert FieldSpec(toks, p, log) == FieldTailSpec(toks, t.end, t.name, TypeNode(t));
      FieldTailMessages(toks, t.end, t.name, TypeNode(t));
    }
  }

  /**
   * `data`: a type name and `;`. A missing type name or `;` closes the
   * marker as `DataDefinition`; a malformed type name as `FieldDefinition`,
   * with the scan's message. A complete definition's events are its marker,
   * a `Keyword` leaf, the type name's node closed as `FieldType`, and the
   * bare `;`; no error node is added either way.
   */
  lemma DataShape(toks: seq<Token>, p: nat, log: Log)
    requires p < |toks|
    ensures var o := DataSpec(toks, p, log);
      && ErrorCount(o.evs) == ErrorCount(log)
      && (!IsKind(toks, p + 1, Identifier) ==>
            o.Reject? && o.at == p + 1 && o.closeAs == DataDefinition && o.msg == "Expected typename after 'data'.")
      && (IsKind(toks, p + 1, Identifier) ==>
            var t := ScanTypeName(toks, p + 1, Leaf(Then(log, Open), toks, p, Keyword));
            && (t.TypeNameErr? ==> o.Reject? && o.at == t.at && o.msg == t.msg && o.closeAs == FieldDefinition)
            && (t.TypeNameOk? ==>
                  && Expects(toks, o, t.end, [Semicolon])
                  && (o.Reject? ==> o.closeAs == DataDefinition && o.msg == "Expected ';' after 'data " + t.name + "'.")))
      && (o.Accept? ==>
        var t := ScanTypeName(toks, p + 1, Leaf(Then(log, Open), toks, p, Keyword));
        && IsKind(toks, p + 1, Identifier) && t.TypeNameOk? && t.end < |toks|
        && Events(o.evs) == Events(log) + [Open] + [Open, Tok(toks[p]), Close(Keyword)]
                             + TypeNameEvents(toks, p + 1) + [Close(FieldType)] + [Tok(toks[t.end])])
  {
    DataTokens(toks, p, log);
    DataErrorFree(toks, p, log);
    DataEvents(toks, p, log);
  }

  /** The tokens and diagnostics part of `DataShape`. */
  lemma DataTokens(toks: seq<Token>, p: nat, log: Log)
    requires p < |toks|
    ensures var o := DataSpec(toks, p, log);
      && (!IsKind(toks, p + 1, Identifier) ==>
            o.Reject? && o.at == p + 1 && o.closeAs == DataDefinition && o.msg == "Expected typename after 'data'.")
      && (IsKind(toks, p + 1, Identifier) ==>
            var t := ScanTypeName(toks, p + 1, Leaf(Then(log, Open), toks, p, Keyword));
            && (t.TypeNameErr? ==> o.Reject? && o.at == t.at && o.msg == t.msg && o.closeAs == FieldDefinition)
            && (t.TypeNameOk? ==>
                  && Expects(toks, o, t.end, [Semicolon])
                  && (o.Reject? ==> o.closeAs == DataDefinition && o.msg == "Expected ';' after 'data " + t.name + "'.")))
  {
  }

  /** The error count part of `DataShape`. */
  lemma DataErrorFree(toks: seq<Token>, p: nat, log: Log)
    requires p < |toks|
    ensures var o := DataSpec(toks, p, log);
      ErrorCount(o.evs) == ErrorCount(log)
  {
    var kw := Leaf(Then(log, Open), toks, p, Keyword);
    LeafEvents(Then(log, Open), toks, p, Keyword);
    if IsKind(toks, p + 1, Identifier) {
      ScanTypeNameErrorFree(toks, p + 1, kw);
    }
  }

  /** The events part of `DataShape`. */
  lemma DataEvents(toks: seq<Token>, p: nat, log: Log)
    requires p < |toks|
    ensures var o := DataSpec(toks, p, log);
      o.Accept? ==>
        var t := ScanTypeName(toks, p + 1, Leaf(Then(log, Open), toks, p, Keyword));
        && IsKind(toks, p + 1, Identifier) && t.TypeNameOk? && t.end < |toks|
        && Events(o.evs) == Events(log) + [Open] + [Open, Tok(toks[p]), Close(Keyword)]
                             + TypeNameEvents(toks, p + 1) + [Close(FieldType)] + [Tok(toks[t.end])]
  {
    var kw := Leaf(Then(log, Open), toks, p, Keyword);
    if IsKind(toks, p + 1, Identifier) {
      var t := ScanTypeName(toks, p + 1, kw);
      if t.TypeNameOk? {
        assert Events(TypeNode(t)) == Events(log) + [Open] + [Open, Tok(toks[p]), Close(Keyword)]
                                      + TypeNameEvents(toks, p + 1) + [Close(FieldType)] by {
          LeafEvents(Then(log, Open), toks, p, Keyword);
          ScanTypeNameEvents(toks, p + 1, kw);
        }
      }
    }
  }

  /**
   * `event`: a type name, a field name and `;`. A deviation closes the
   * marker as `EventDefinition`, except a malformed type name, which closes
   * it as `FieldDefinition` with the scan's message. A complete
   * definition's events are its marker, a `Keyword` leaf, the type name's
   * node closed as `FieldType`, a `FieldName` leaf and the bare `;`; no
   * error node is added either way.
   */
  lemma EventShape(toks: seq<Token>, p: nat, log: Log)
    requires p < |toks|
    ensures var o := EventSpec(toks, p, log);
      && ErrorCount(o.evs) == ErrorCount(log)
      && (!IsKind(toks, p + 1, Identifier) ==>
            o.Reject? && o.at == p + 1 && o.closeAs == EventDefinition && o.msg == "Expected typename after 'event'.")
      && (IsKind(toks, p + 1, Identifier) ==>
            var t := ScanTypeName(toks, p + 1, Leaf(Then(log, Open), toks, p, Keyword));
            && (t.TypeNameErr? ==> o.Reject? && o.at == t.at && o.msg == t.msg && o.closeAs == FieldDefinition)
            && (t.TypeNameOk? ==>
                  && Expects(toks, o, t.end, [Identifier, Semicolon])
                  && (o.Reject? ==> o.closeAs == EventDefinition)
                  && (o.Reject? && o.at == t.end ==> o.msg == "Expected field name after 'event " + t.name + "'.")
                  && (o.Reject? && o.at == t.end + 1 ==>
                        o.msg == "Expected ';' after 'event " + t.name + " " + toks[t.end].text + "'.")))
      && (o.Accept? ==>
        var t := ScanTypeName(toks, p + 1, Leaf(Then(log, Open), toks, p, Keyword));
        && IsKind(toks, p + 1, Identifier) && t.TypeNameOk? && t.end + 1 < |toks|
        && Events(o.evs) == Events(log) + [Open] + [Open, Tok(toks[p]), Close(Keyword)]
                             + TypeNameEvents(toks, p + 1) + [Close(FieldType)]
                             + [Open, Tok(toks[t.end]), Close(FieldName)] + [Tok(toks[t.end + 1])])
  {
    EventTokens(toks, p, log);
    EventErrorFree(toks, p, log);
    EventEvents(toks, p, log);
  }

  /** The tokens and diagnostics part of `EventShape`. */
  lemma EventTokens(toks: seq<Token>, p: nat, log: Log)
    requires p < |toks|
    ensures var o := EventSpec(toks, p, log);
      && (!IsKind(toks, p + 1, Identifier) ==>
            o.Reject? && o.at == p + 1 && o.closeAs == EventDefinition && o.msg == "Expected typename after 'event'.")
      && (IsKind(toks, p + 1, Identifier) ==>
            var t := ScanTypeName(toks, p + 1, Leaf(Then(log, Open), toks, p, Keyword));
            && (t.TypeNameErr? ==> o.Reject? && o.at == t.at && o.msg == t.msg && o.closeAs == FieldDefinition)
            && (t.TypeNameOk? ==>
                  && Expects(toks, o, t.end, [Identifier, Semicolon])
                  && (o.Reject? ==> o.closeAs == EventDefinition)
                  && (o.Reject? && o.at == t.end ==> o.msg == "Expected field name after 'event " + t.name + "'.")
                  && (o.Reject? && o.at == t.end + 1 ==>
                        o.msg == "Expected ';' after 'event " + t.name + " " + toks[t.end].text + "'.")))
  {
  }

  /** The error count part of `EventShape`. */
  lemma EventErrorFree(toks: seq<Token>, p: nat, log: Log)
    requires p < |toks|
    ensures var o := EventSpec(toks, p, log);
      ErrorCount(o.evs) == ErrorCount(log)
  {
    var kw := Leaf(Then(log, Open), toks, p, Keyword);
    LeafEvents(Then(log, Open), toks, p, Keyword);
    if IsKind(toks, p + 1, Identifier) {
      var t := ScanTypeName(toks, p + 1, kw);
      ScanTypeNameErrorFree(toks, p + 1, kw);
      if t.TypeNameOk? && IsKind(toks, t.end, Identifier) {
        LeafEvents(TypeNode(t), toks, t.end, FieldName);
      }
    }
  }

  /** The events part of `EventShape`. */
  lemma EventEvents(toks: seq<Token>, p: nat, log: Log)
    requires p < |toks|
    ensures var o := EventSpec(toks, p, log);
      o.Accept? ==>
        var t := ScanTypeName(toks, p + 1, Leaf(Then(log, Open), toks, p, Keyword));
        && IsKind(toks, p + 1, Identifier) && t.TypeNameOk? && t.end + 1 < |toks|
        && Events(o.evs) == Events(log) + [Open] + [Open, Tok(toks[p]), Close(Keyword)]
                             + TypeNameEvents(toks, p + 1) + [Close(FieldType)]
                             + [Open, Tok(toks[t.end]), Close(FieldName)] + [Tok(toks[t.end + 1])]
  {
    var kw := Leaf(Then(log, Open), toks, p, Keyword);
    if IsKind(toks, p + 1, Identifier) {
      var t := ScanTypeName(toks, p + 1, kw);
      if t.TypeNameOk? && IsKind(toks, t.end, Identifier) {
        assert Events(TypeNode(t)) == Events(log) + [Open] + [Open, Tok(toks[p]), Close(Keyword)]
                                      + TypeNameEvents(toks, p + 1) + [Close(FieldType)] by {
          LeafEvents(Then(log, Open), toks, p, Keyword);
          ScanTypeNameEvents(toks, p + 1, kw);
        }
        LeafEvents(TypeNode(t), toks, t.end, FieldName);
      }
    }
  }

  /**
   * `command`: response type, name, `(`, request type, `)` and `;`. A
   * deviation at the response type or the name closes the marker as
   * `CommandDefinition`; any later one as `FieldDefinition`. A complete
   * definition's events are its marker, a `Keyword` leaf, a `TypeName` leaf,
   * a `FieldName` leaf, the bare `(`, a `TypeName` leaf, and the bare `)`
   * and `;`; no error node is added either way.
   */
  lemma CommandShape(toks: seq<Token>, p: nat, log: Log)
    requires p < |toks|
    ensures var o := CommandSpec(toks, p, log);
      && Expects(toks, o, p + 1, [Identifier, Identifier, LParentheses, Identifier, RParentheses, Semicolon])
      && (o.Reject? ==> o.closeAs == if o.at <= p + 2 then CommandDefinition else FieldDefinition)
      && ErrorCount(o.evs) == ErrorCount(log)
      && (o.Accept? ==>
            && p + 6 < |toks|
            && Events(o.evs) == Events(log) + [Open] + [Open, Tok(toks[p]), Close(Keyword)]
                                 + [Open, Tok(toks[p + 1]), Close(TypeName)] + [Open, Tok(toks[p + 2]), Close(FieldName)]
                                 + [Tok(toks[p + 3])] + [Open, Tok(toks[p + 4]), Close(TypeName)]
                                 + [Tok(toks[p + 5])] + [Tok(toks[p + 6])])
      && (o.Reject? && o.at == p + 1 ==> o.msg == "Expected command response after 'command'.")
      && (o.Reject? && o.at == p + 2 ==> o.msg == "Expected command name after 'command " + toks[p + 1].text + "'.")
      && (o.Reject? && o.at == p + 3 ==>
            o.msg == "Expected '(' after 'command " + toks[p + 1].text + " " + toks[p + 2].text + "'.")
      && (o.Reject? && o.at == p + 4 ==>
            o.msg == "Expected command request after 'command " + toks[p + 1].text + " " + toks[p + 2].text + "('.")
      && (o.Reject? && o.at == p + 5 ==>
            o.msg == "Expected ')' after 'command " + toks[p + 1].text + " " + toks[p + 2].text + "(" + toks[p + 4].text + "'.")
      && (o.Reject? && o.at == p + 6 ==>
            o.msg == "Expected ';' after 'command " + toks[p + 1].text + " " + toks[p + 2].text + "(" + toks[p + 4].text + ")'.")
  {
    CommandTokens(toks, p, log);
    CommandEvents(toks, p, log);
    CommandMessages(toks, p, log);
  }

  /** The tokens half of `CommandShape`. */
  lemma CommandTokens(toks: seq<Token>, p: nat, log: Log)
    requires p < |toks|
    ensures var o := CommandSpec(toks, p, log);
      && Expects(toks, o, p + 1, [Identifier, Identifier, LParentheses, Identifier, RParentheses, Semicolon])
      && (o.Reject? ==> o.closeAs == if o.at <= p + 2 then CommandDefinition else FieldDefinition)
  {
    var ks := [Identifier, Identifier, LParentheses, Identifier, RParentheses, Semicolon];
    assert ks[1..][1..] == [LParentheses, Identifier, RParentheses, Semicolon];
    if IsKind(toks, p + 1, Identifier) && IsKind(toks, p + 2, Identifier) {
      var kw := Leaf(Then(log, Open), toks, p, Keyword);
      assert Matches(toks, p + 2, ks[1..]) == 1 + Matches(toks, p + 3, ks[1..][1..]);
      assert Matches(toks, p + 1, ks) == 2 + Matches(toks, p + 3, ks[1..][1..]);
      var named := Leaf(Leaf(kw, toks, p + 1, TypeName), toks, p + 2, FieldName);
      assert CommandSpec(toks, p, log) == CommandTailSpec(toks, p + 3, toks[p + 1].text, toks[p + 2].text, named);
      CommandTailTokens(toks, p + 3, toks[p + 1].text, toks[p + 2].text, named);
    }
  }

  /** The rest of a command: `(`, a request type, `)` and `;`; every deviation closes the marker as `FieldDefinition`. */
  lemma CommandTailTokens(toks: seq<Token>, q: nat, response: string, name: string, named: Log)
    requires q <= |toks|
    ensures var o := CommandTailSpec(toks, q, response, name, named);
      Expects(toks, o, q, [LParentheses, Identifier, RParentheses, Semicolon]) && (o.Reject? ==> o.closeAs == FieldDefinition)
  {
  }

  /** The events and error count half of `CommandShape`. */
  lemma CommandEvents(toks: seq<Token>, p: nat, log: Log)
    requires p < |toks|
    ensures var o := CommandSpec(toks, p, log);
      && ErrorCount(o.evs) == ErrorCount(log)
      && (o.Accept? ==>
            && p + 6 < |toks|
            && Events(o.evs) == Events(log) + [Open] + [Open, Tok(toks[p]), Close(Keyword)]
                                 + [Open, Tok(toks[p + 1]), Close(TypeName)] + [Open, Tok(toks[p + 2]), Close(FieldName)]
                                 + [Tok(toks[p + 3])] + [Open, Tok(toks[p + 4]), Close(TypeName)]
                                 + [Tok(toks[p + 5])] + [Tok(toks[p + 6])])
  {
    var kw := Leaf(Then(log, Open), toks, p, Keyword);
    LeafEvents(Then(log, Open), toks, p, Keyword);
    if IsKind(toks, p + 1, Identifier) {
      var typed := Leaf(kw, toks, p + 1, TypeName);
      LeafEvents(kw, toks, p + 1, TypeName);
      if IsKind(toks, p + 2, Identifier) {
        var named := Leaf(typed, toks, p + 2, FieldName);
        LeafEvents(typed, toks, p + 2, FieldName);
        if IsKind(toks, p + 3, LParentheses) && IsKind(toks, p + 4, Identifier) {
          LeafEvents(Then(named, Tok(toks[p + 3])), toks, p + 4, TypeName);
        }
      }
    }
  }

  /** The diagnostics half of `CommandShape`. */
  lemma CommandMessages(toks: seq<Token>, p: nat, log: Log)
    requires p < |toks|
    ensures var o := CommandSpec(toks, p, log);
      && (o.Reject? && o.at == p + 1 ==> o.msg == "Expected command response after 'command'.")
      && (o.Reject? && o.at == p + 2 ==> o.msg == "Expected command name after 'command " + toks[p + 1].text + "'.")
      && (o.Reject? && o.at == p + 3 ==>
            o.msg == "Expected '(' after 'command " + toks[p + 1].text + " " + toks[p + 2].text + "'.")
      && (o.Reject? && o.at == p + 4 ==>
            o.msg == "Expected command request after 'command " + toks[p + 1].text + " " + toks[p + 2].text + "('.")
      && (o.Reject? && o.at == p + 5 ==>
            o.msg == "Expected ')' after 'command " + toks[p + 1].text + " " + toks[p + 2].text + "(" + toks[p + 4].text + "'.")
      && (o.Reject? && o.at == p + 6 ==>
            o.msg == "Expected ';' after 'command " + toks[p + 1].text + " " + toks[p + 2].text + "(" + toks[p + 4].text + ")'.")
  {
  }
}
