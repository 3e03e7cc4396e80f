/**
 * The parser itself (`SchemaParser.Instance`): every production drives the
 * shared tree builder step by step, exactly as the specification functions
 * of the other modules describe. Each method is proved to leave the cursor
 * and the event log where its specification says, and to leave the stack
 * of open markers as it found it (or, for `Error`, `Expect` and
 * `ParseTypeName` failures, with the caller's marker closed).
 */
module SchemaParser {
  import opened Tokens
  import opened SchemaText
  import opened Recovery
  import opened TypeNames
  import opened Statements
  import opened Blocks
  import opened Annotations
  import opened TopLevel
  import opened Diagnostics
  import opened Psi
  import opened Coverage

  class Instance {
    const builder: Builder

    constructor (b: Builder)
      ensures builder == b
    {
      builder := b;
    }

    ghost predicate Valid()
      reads builder
    {
      builder.Valid()
    }

    /** `getTokenText`: the current token's text, or "<EOF>". */
    function GetTokenText(): (r: string)
      reads builder
      ensures r == DisplayText(builder.toks, builder.pos)
    {
      match builder.TokenText()
      case None => "<EOF>"
      case Some(t) => t
    }

    /** `getIdentifier`: the current token's text, or "" at end of input. */
    function GetIdentifier(): (r: string)
      reads builder
      ensures r == TextAt(builder.toks, builder.pos)
    {
      match builder.TokenText()
      case None => ""
      case Some(t) => t
    }

    /** `getInteger`: the current token's value as a Java `int`, 0 when absent or unparsable. */
    function GetInteger(): (r: int)
      reads builder
      ensures 0 <= r <= Int32Max
      ensures r != 0 ==> builder.pos < |builder.toks| && IsDigits(builder.toks[builder.pos].text)
      ensures r == ParseInt(builder.TokenText())
    {
      ParseInt(builder.TokenText())
    }

    /** `getString`: the current string token without its first and its last two characters. */
    function GetString(): (r: string)
      reads builder
      ensures builder.pos < |builder.toks| && |builder.toks[builder.pos].text| >= 3 ==>
                builder.toks[builder.pos].text
                == builder.toks[builder.pos].text[..1] + r + builder.toks[builder.pos].text[|builder.toks[builder.pos].text| - 2..]
      ensures r == SchemaText.GetString(builder.TokenText())
    {
      SchemaText.GetString(builder.TokenText())
    }

    /** `isToken`: is the current token of kind `k`? False at end of input. */
    function IsToken(k: TokenKind): (r: bool)
      reads builder
      ensures r <==> IsKind(builder.toks, builder.pos, k)
    {
      builder.TokenType() == Some(k)
    }

    /** `isIdentifier`: is the current token the identifier `w`? */
    function IsIdentifier(w: string): (r: bool)
      reads builder
      ensures r <==> IsWord(builder.toks, builder.pos, w)
    {
      builder.TokenType() == Some(Identifier) && builder.TokenText() == Some(w)
    }

    /**
     * `error`: close `marker`, if any, as `elementType`, then open one error
     * marker, skip tokens up to the boundary of `construct`, close it with
     * `message`, and consume the boundary token unless it is a `}` in a
     * statement.
     */
    method Error(marker: Option<Marker>, elementType: Option<NodeKind>, construct: Construct, message: string)
      requires Valid()
      requires marker.Some? ==> elementType.Some? && builder.IsTop(marker.value)
      modifies builder
      ensures Valid()
      ensures marker.Some? ==>
                var r := Recover(builder.toks, old(builder.pos), construct,
                                 Then(Then(old(builder.events), Close(elementType.value)), Open), message);
                builder.pos == r.end && builder.events == r.log
      ensures marker.None? ==>
                var r := Recover(builder.toks, old(builder.pos), construct, Then(old(builder.events), Open), message);
                builder.pos == r.end && builder.events == r.log
      ensures builder.depth == if marker.Some? then old(builder.depth) - 1 else old(builder.depth)
    {
      if marker.Some? {
        builder.Done(marker.value, elementType.value);
      }
      SkipErroneous(construct, message);
    }

    /**
     * The recovery loop of `error`: an error marker around every token up to
     * a boundary of `construct` (or the end of input), closed with `message`,
     * then the boundary token consumed unless it is a `}` ending a statement.
     */
    method SkipErroneous(construct: Construct, message: string)
      requires Valid()
      modifies builder
      ensures Valid() && builder.depth == old(builder.depth)
      ensures var r := Recover(builder.toks, old(builder.pos), construct, Then(old(builder.events), Open), message);
              builder.pos == r.end && builder.events == r.log
    {
      ghost var toks := builder.toks;
      ghost var r := Recover(toks, builder.pos, construct, Then(builder.events, Open), message);
      var errorMarker := builder.Mark();
      while builder.TokenType() != None && !builder.Eof()
        invariant Valid()
        invariant Recover(toks, builder.pos, construct, builder.events, message) == r
        invariant builder.IsTop(errorMarker)
        decreases |toks| - builder.pos
      {
        if (construct == Statement || construct == TopLevel) && IsToken(Semicolon) {
          builder.Error(errorMarker, message);
          builder.AdvanceLexer();
          return;
        }
        if (construct == Braces || construct == TopLevel) && IsToken(RBrace) {
          builder.Error(errorMarker, message);
          builder.AdvanceLexer();
          return;
        }
        if construct == Statement && IsToken(RBrace) {
          builder.Error(errorMarker, message);
          return;
        }
        builder.AdvanceLexer();
      }
      builder.Error(errorMarker, message);
    }

    /** `consumeTokenAs`: consume the current token, as a leaf node of `nodeType` when one is given. */
    method ConsumeTokenAs(nodeType: Option<NodeKind>)
      requires Valid()
      modifies builder
      ensures Valid() && builder.depth == old(builder.depth)
      ensures builder.pos == if old(builder.pos) < |builder.toks| then old(builder.pos) + 1 else old(builder.pos)
      ensures old(builder.pos) < |builder.toks| && nodeType.Some? ==>
                builder.events == Leaf(old(builder.events), builder.toks, old(builder.pos), nodeType.value)
      ensures old(builder.pos) < |builder.toks| && nodeType.None? ==>
                builder.events == Then(old(builder.events), Tok(builder.toks[old(builder.pos)]))
      ensures old(builder.pos) == |builder.toks| ==>
                builder.events == (if nodeType.Some? then Then(Then(old(builder.events), Open), Close(nodeType.value)) else old(builder.events))
    {
      var marker: Option<Marker> := None;
      if nodeType.Some? {
        var m := builder.Mark();
        marker := Some(m);
      }
      builder.AdvanceLexer();
      if marker.Some? {
        builder.Done(marker.value, nodeType.value);
      }
    }

    /**
     * The guard the straight-line productions repeat: when the current
     * token is not `k`, `error(marker, closeAs, construct, msg)`; otherwise
     * `consumeTokenAs(nodeType)`.
     */
    method Expect(marker: Marker, k: TokenKind, nodeType: Option<NodeKind>, closeAs: NodeKind, construct: Construct, msg: string)
      returns (ok: bool)
      requires Valid() && builder.IsTop(marker)
      modifies builder
      ensures Valid()
      ensures ok == IsKind(builder.toks, old(builder.pos), k)
      ensures ok ==> && builder.pos == old(builder.pos) + 1 && builder.depth == old(builder.depth)
                     && builder.events == Consumed(old(builder.events), builder.toks, old(builder.pos), nodeType)
      ensures !ok ==> var r := Settle(builder.toks, Reject(old(builder.pos), old(builder.events), closeAs, msg), construct);
                      && builder.pos == r.end && builder.events == r.log
                      && builder.depth == old(builder.depth) - 1
    {
      if !IsToken(k) {
        Error(Some(marker), Some(closeAs), construct, msg);
        return false;
      }
      ConsumeTokenAs(nodeType);
      return true;
    }

    /**
     * `builder.mark()` then `consumeTokenAs(nodeType)`, as every keyword
     * production (and an enum value, on its name) starts.
     */
    method OpenWith(nodeType: NodeKind) returns (marker: Marker)
      requires Valid() && builder.pos < |builder.toks|
      modifies builder
      ensures Valid() && builder.IsTop(marker) && builder.depth == old(builder.depth) + 1
      ensures builder.pos == old(builder.pos) + 1
      ensures builder.events == Leaf(Then(old(builder.events), Open), builder.toks, old(builder.pos), nodeType)
    {
      marker := builder.Mark();
      ConsumeTokenAs(Some(nodeType));
    }

    /** `builder.mark()` then `consumeTokenAs(null)`, as an annotation and a positional array start. */
    method OpenOn() returns (marker: Marker)
      requires Valid() && builder.pos < |builder.toks|
      modifies builder
      ensures Valid() && builder.IsTop(marker) && builder.depth == old(builder.depth) + 1
      ensures builder.pos == old(builder.pos) + 1
      ensures builder.events == Then(Then(old(builder.events), Open), Tok(builder.toks[old(builder.pos)]))
    {
      marker := builder.Mark();
      ConsumeTokenAs(None);
    }

    /** The last guard of a production: `Expect`, then on success `marker.done(kind)`. */
    method ExpectLast(marker: Marker, k: TokenKind, closeAs: NodeKind, kind: NodeKind, construct: Construct, msg: string)
      requires Valid() && builder.IsTop(marker)
      modifies builder
      ensures Valid() && builder.depth == old(builder.depth) - 1
      ensures var r := Finish(builder.toks,
                              if IsKind(builder.toks, old(builder.pos), k)
                              then Accept(old(builder.pos) + 1, Then(old(builder.events), Tok(builder.toks[old(builder.pos)])))
                              else Reject(old(builder.pos), old(builder.events), closeAs, msg),
                              kind, construct);
              builder.pos == r.end && builder.events == r.log
    {
      var ok := Expect(marker, k, None, closeAs, construct, msg);
      if ok {
        builder.Done(marker, kind);
      }
    }

    /** `parsePackageDefinition`, on the keyword `package`. */
    method ParsePackageDefinition()
      requires Valid() && builder.pos < |builder.toks|
      modifies builder
      ensures Valid() && builder.depth == old(builder.depth)
      ensures var r := Finish(builder.toks, PackageSpec(builder.toks, old(builder.pos), old(builder.events)), PackageDefinition, Statement);
              builder.pos == r.end && builder.events == r.log
    {
      var marker := OpenWith(Keyword);
      var ok := Expect(marker, Identifier, Some(PackageName), PackageDefinition, Statement, PackageNameMissing);
      if !ok {
        return;
      }
      ExpectLast(marker, Semicolon, PackageDefinition, PackageDefinition, Statement, PackageSemicolonMissing);
    }

    /** `parseImportDefinition`, on the keyword `import`. */
    method ParseImportDefinition()
      requires Valid() && builder.pos < |builder.toks|
      modifies builder
      ensures Valid() && builder.depth == old(builder.depth)
      ensures var r := Finish(builder.toks, ImportSpec(builder.toks, old(builder.pos), old(builder.events)), ImportDefinition, Statement);
              builder.pos == r.end && builder.events == r.log
    {
      var marker := OpenWith(Keyword);
      var filename := GetString();
      var ok := Expect(marker, StringLit, Some(ImportFilename), ImportDefinition, Statement, ImportFilenameMissing);
      if !ok {
        return;
      }
      ExpectLast(marker, Semicolon, ImportDefinition, ImportDefinition, Statement, ImportSemicolonMissing(filename));
    }

    /** `parseOptionDefinition`, on the keyword `option`. */
    method ParseOptionDefinition()
      requires Valid() && builder.pos < |builder.toks|
      modifies builder
      ensures Valid() && builder.depth == old(builder.depth)
      ensures var r := Finish(builder.toks, OptionSpec(builder.toks, old(builder.pos), old(builder.events)), OptionDefinition, Statement);
              builder.pos == r.end && builder.events == r.log
    {
      var marker := OpenWith(Keyword);
      var name := GetIdentifier();
      var ok := Expect(marker, Identifier, Some(OptionName), OptionDefinition, Statement, OptionNameMissing);
      if !ok {
        return;
      }
      ok := Expect(marker, Equals, None, OptionDefinition, Statement, OptionEqualsMissing(name));
      if !ok {
        return;
      }
      var value := GetIdentifier();
      ok := Expect(marker, Identifier, Some(OptionValue), OptionDefinition, Statement, OptionValueMissing(name));
      if !ok {
        return;
      }
      ExpectLast(marker, Semicolon, OptionDefinition, OptionDefinition, Statement, OptionSemicolonMissing(name, value));
    }

    /** `parseComponentIdDefinition`, on the keyword `id`. */
    method ParseComponentIdDefinition()
      requires Valid() && builder.pos < |builder.toks|
      modifies builder
      ensures Valid() && builder.depth == old(builder.depth)
      ensures var r := Finish(builder.toks, ComponentIdSpec(builder.toks, old(builder.pos), old(builder.events)), ComponentIdDefinition, Statement);
              builder.pos == r.end && builder.events == r.log
    {
      var marker := OpenWith(Keyword);
      var ok := Expect(marker, Equals, None, ComponentIdDefinition, Statement, IdEqualsMissing);
      if !ok {
        return;
      }
      var value := GetInteger();
      ok := Expect(marker, Integer, Some(FieldNumber), ComponentIdDefinition, Statement, IdValueMissing);
      if !ok {
        return;
      }
      ExpectLast(marker, Semicolon, ComponentIdDefinition, ComponentIdDefinition, Statement, IdSemicolonMissing(value));
    }

    /**
     * `parseCommandDefinition`, on the keyword `command`. A deviation after
     * the command name closes the marker as `FieldDefinition`.
     */
    method ParseCommandDefinition()
      requires Valid() && builder.pos < |builder.toks|
      modifies builder
      ensures Valid() && builder.depth == old(builder.depth)
      ensures var r := Finish(builder.toks, CommandSpec(builder.toks, old(builder.pos), old(builder.events)), CommandDefinition, Statement);
              builder.pos == r.end && builder.events == r.log
    {
      var marker := OpenWith(Keyword);
      var response := GetIdentifier();
      var ok := Expect(marker, Identifier, Some(TypeName), CommandDefinition, Statement, CommandResponseMissing);
      if !ok {
        return;
      }
      var name := GetIdentifier();
      ok := Expect(marker, Identifier, Some(FieldName), CommandDefinition, Statement, CommandNameMissing(response));
      if !ok {
        return;
      }
      ParseCommandTail(marker, response, name);
    }

    /**
     * The rest of `parseCommandDefinition` after the command name:
     * `( request ) ;`, every deviation closing the marker as `FieldDefinition`.
     */
    method ParseCommandTail(marker: Marker, response: string, name: string)
      requires Valid() && builder.IsTop(marker)
      modifies builder
      ensures Valid() && builder.depth == old(builder.depth) - 1
      ensures var r := Finish(builder.toks, CommandTailSpec(builder.toks, old(builder.pos), response, name, old(builder.events)), CommandDefinition, Statement);
              builder.pos == r.end && builder.events == r.log
    {
      var ok := Expect(marker, LParentheses, None, FieldDefinition, Statement, CommandLParenMissing(response, name));
      if !ok {
        return;
      }
      var request := GetIdentifier();
      ok := Expect(marker, Identifier, Some(TypeName), FieldDefinition, Statement, CommandRequestMissing(response, name));
      if !ok {
        return;
      }
      ok := Expect(marker, RParentheses, None, FieldDefinition, Statement, CommandRParenMissing(response, name, request));
      if !ok {
        return;
      }
      ExpectLast(marker, Semicolon, FieldDefinition, CommandDefinition, Statement, CommandSemicolonMissing(response, name, request));
    }

    /**
     * The three lines `parseTypeName` repeats on a malformed type name: drop
     * the type marker, then recover in statement context with the caller's
     * marker closed as `FieldDefinition`.
     */
    method AbandonTypeName(marker: Marker, typeMarker: Marker, msg: string)
      requires Valid() && builder.IsTop(typeMarker) && typeMarker.depth == marker.depth + 1
      modifies builder
      ensures Valid() && builder.depth == old(builder.depth) - 2
      ensures var r := Recover(builder.toks, old(builder.pos), Statement,
                               Then(Then(Then(old(builder.events), Event.Drop), Close(FieldDefinition)), Open), msg);
              builder.pos == r.end && builder.events == r.log
    {
      builder.Drop(typeMarker);
      Error(Some(marker), Some(FieldDefinition), Statement, msg);
    }

    /**
     * `parseTypeName` on the identifier at the cursor, inside the production
     * whose marker is `marker`. On success the type node is closed as
     * `FieldType` and the rendered name returned; on a malformed name the
     * type marker is dropped and `marker` closed as `FieldDefinition` by a
     * statement recovery.
     */
    method ParseTypeName(marker: Marker) returns (name: Option<string>)
      requires Valid() && builder.pos < |builder.toks| && builder.IsTop(marker)
      modifies builder
      ensures Valid()
      ensures var t := ScanTypeName(builder.toks, old(builder.pos), old(builder.events));
              match t
              case TypeNameOk(n, end, _) =>
                && name == Some(n) && builder.pos == end
                && builder.events == TypeNode(t)
                && builder.depth == old(builder.depth)
              case TypeNameErr(at, _, msg) =>
                && var r := Recover(builder.toks, at, Statement, Then(Then(DroppedTypeNode(t), Close(FieldDefinition)), Open), msg);
                && name.None? && builder.pos == r.end && builder.events == r.log
                && builder.depth == old(builder.depth) - 1
    {
      var typeMarker := builder.Mark();
      var n := GetIdentifier();
      ConsumeTokenAs(Some(TypeName));
      if !IsToken(LAngle) {
        builder.Done(typeMarker, FieldType);
        return Some(n);
      }
      n := n + "<";
      ConsumeTokenAs(None);
      if !IsToken(Identifier) {
        AbandonTypeName(marker, typeMarker, TypenameMissing(n));
        return None;
      }
      n := n + GetIdentifier();
      ConsumeTokenAs(Some(TypeParameterName));
      name := ParseTypeParameters(marker, typeMarker, n);
    }

    /**
     * The `while (true)` loop of `parseTypeName`, after a type parameter,
     * with the type marker `typeMarker` open above the caller's `marker`.
     */
    method ParseTypeParameters(marker: Marker, typeMarker: Marker, n0: string) returns (name: Option<string>)
      requires Valid() && builder.IsTop(typeMarker) && typeMarker.depth == marker.depth + 1
      modifies builder
      ensures Valid()
      ensures var t := ScanTypeParameters(builder.toks, old(builder.pos), n0, old(builder.events));
              match t
              case TypeNameOk(n, end, _) =>
                && name == Some(n) && builder.pos == end
                && builder.events == TypeNode(t)
                && builder.depth == old(builder.depth) - 1
              case TypeNameErr(at, _, msg) =>
                && var r := Recover(builder.toks, at, Statement, Then(Then(DroppedTypeNode(t), Close(FieldDefinition)), Open), msg);
                && name.None? && builder.pos == r.end && builder.events == r.log
                && builder.depth == old(builder.depth) - 2
    {
      ghost var t := ScanTypeParameters(builder.toks, builder.pos, n0, builder.events);
      var n := n0;
      while true
        invariant Valid() && old(builder.pos) <= builder.pos
        invariant builder.depth == old(builder.depth)
        invariant t == ScanTypeParameters(builder.toks, builder.pos, n, builder.events)
        decreases |builder.toks| - builder.pos
      {
        if IsToken(RAngle) {
          n := n + ">";
          ConsumeTokenAs(None);
          builder.Done(typeMarker, FieldType);
          return Some(n);
        }
        if IsToken(Comma) {
          n := n + ", ";
          ConsumeTokenAs(None);
          if !IsToken(Identifier) {
            AbandonTypeName(marker, typeMarker, TypenameAfterCommaMissing);
            return None;
          }
          n := n + GetIdentifier();
          ConsumeTokenAs(Some(TypeParameterName));
          continue;
        }
        AbandonTypeName(marker, typeMarker, InvalidInsideAngles(GetTokenText()));
        return None;
      }
    }

    /** `parseFieldDefinition`, on the identifier that starts the type name. */
    method ParseFieldDefinition()
      requires Valid() && builder.pos < |builder.toks|
      modifies builder
      ensures Valid() && builder.depth == old(builder.depth)
      ensures var r := Finish(builder.toks, FieldSpec(builder.toks, old(builder.pos), old(builder.events)), FieldDefinition, Statement);
              builder.pos == r.end && builder.events == r.log
    {
      var marker := builder.Mark();
      var typeName := ParseTypeName(marker);
      if typeName.None? {
        return;
      }
      ParseFieldTail(marker, typeName.value);
    }

    /** The rest of `parseFieldDefinition` after the type name `tn`. */
    method ParseFieldTail(marker: Marker, tn: string)
      requires Valid() && builder.IsTop(marker)
      modifies builder
      ensures Valid() && builder.depth == old(builder.depth) - 1
      ensures var r := Finish(builder.toks, FieldTailSpec(builder.toks, old(builder.pos), tn, old(builder.events)), FieldDefinition, Statement);
              builder.pos == r.end && builder.events == r.log
    {
      var fieldName := GetIdentifier();
      var ok := Expect(marker, Identifier, Some(FieldName), FieldDefinition, Statement, FieldNameMissing(tn));
      if !ok {
        return;
      }
      ok := Expect(marker, Equals, None, FieldDefinition, Statement, FieldEqualsMissing(tn, fieldName));
      if !ok {
        return;
      }
      var fieldNumber := GetInteger();
      ok := Expect(marker, Integer, Some(FieldNumber), FieldDefinition, Statement, FieldNumberMissing(tn, fieldName));
      if !ok {
        return;
      }
      ExpectLast(marker, Semicolon, FieldDefinition, FieldDefinition, Statement, FieldSemicolonMissing(tn, fieldName, fieldNumber));
    }

    /** `parseDataDefinition`, on the keyword `data`. */
    method ParseDataDefinition()
      requires Valid() && builder.pos < |builder.toks|
      modifies builder
      ensures Valid() && builder.depth == old(builder.depth)
      ensures var r := Finish(builder.toks, DataSpec(builder.toks, old(builder.pos), old(builder.events)), DataDefinition, Statement);
              builder.pos == r.end && builder.events == r.log
    {
      var marker := OpenWith(Keyword);
      if !IsToken(Identifier) {
        Error(Some(marker), Some(DataDefinition), Statement, DataTypenameMissing);
        return;
      }
      var typeName := ParseTypeName(marker);
      if typeName.None? {
        return;
      }
      ExpectLast(marker, Semicolon, DataDefinition, DataDefinition, Statement, DataSemicolonMissing(typeName.value));
    }

    /** `parseEventDefinition`, on the keyword `event`. */
    method ParseEventDefinition()
      requires Valid() && builder.pos < |builder.toks|
      modifies builder
      ensures Valid() && builder.depth == old(builder.depth)
      ensures var r := Finish(builder.toks, EventSpec(builder.toks, old(builder.pos), old(builder.events)), EventDefinition, Statement);
              builder.pos == r.end && builder.events == r.log
    {
      var marker := OpenWith(Keyword);
      if !IsToken(Identifier) {
        Error(Some(marker), Some(EventDefinition), Statement, EventTypenameMissing);
        return;
      }
      var typeName := ParseTypeName(marker);
      if typeName.None? {
        return;
      }
      ParseEventTail(marker, typeName.value);
    }

    /** The rest of `parseEventDefinition` after the type name `tn`. */
    method ParseEventTail(marker: Marker, tn: string)
      requires Valid() && builder.IsTop(marker)
      modifies builder
      ensures Valid() && builder.depth == old(builder.depth) - 1
      ensures var r := Finish(builder.toks, EventTailSpec(builder.toks, old(builder.pos), tn, old(builder.events)), EventDefinition, Statement);
              builder.pos == r.end && builder.events == r.log
    {
      var fieldName := GetIdentifier();
      var ok := Expect(marker, Identifier, Some(FieldName), EventDefinition, Statement, EventFieldNameMissing(tn));
      if !ok {
        return;
      }
      ExpectLast(marker, Semicolon, EventDefinition, EventDefinition, Statement, EventSemicolonMissing(tn, fieldName));
    }

    /**
     * The `option` lookahead of the body loops: mark, step over the keyword,
     * look for `<`, and roll back. It leaves the cursor and the events as
     * they were.
     */
    method LookaheadIsOption() returns (isOption: bool)
      requires Valid() && builder.pos < |builder.toks|
      modifies builder
      ensures Valid() && builder.depth == old(builder.depth)
      ensures isOption == !IsKind(builder.toks, old(builder.pos) + 1, LAngle)
      ensures builder.pos == old(builder.pos) && builder.events == old(builder.events)
    {
      var marker := builder.Mark();
      builder.AdvanceLexer();
      isOption := !IsToken(LAngle);
      builder.RollbackTo(marker);
      UptoMark(old(builder.events), Tok(builder.toks[old(builder.pos)]));
    }

    /** The body of the `parseEnumContents` loop: one enum value, on its name. */
    method ParseEnumValue()
      requires Valid() && builder.pos < |builder.toks|
      modifies builder
      ensures Valid() && builder.depth == old(builder.depth)
      ensures var r := Finish(builder.toks, EnumValueSpec(builder.toks, old(builder.pos), old(builder.events)), EnumValueDefinition, Statement);
              builder.pos == r.end && builder.events == r.log
    {
      var name := GetIdentifier();
      var marker := OpenWith(FieldName);
      var ok := Expect(marker, Equals, None, EnumValueDefinition, Statement, EnumValueEqualsMissing(name));
      if !ok {
        return;
      }
      var value := GetInteger();
      ok := Expect(marker, Integer, Some(FieldNumber), EnumValueDefinition, Statement, EnumValueMissing(name));
      if !ok {
        return;
      }
      ExpectLast(marker, Semicolon, EnumValueDefinition, EnumValueDefinition, Statement, EnumValueSemicolonMissing(name, value));
    }

    /** `parseEnumContents`: enum values while the cursor is on an identifier. */
    method ParseEnumContents()
      requires Valid()
      modifies builder
      ensures Valid() && builder.depth == old(builder.depth)
      ensures var r := EnumContentsSpec(builder.toks, old(builder.pos), old(builder.events));
              builder.pos == r.end && builder.events == r.log
    {
      ghost var goal := EnumContentsSpec(builder.toks, builder.pos, builder.events);
      while IsToken(Identifier)
        invariant Valid() && builder.depth == old(builder.depth)
        invariant EnumContentsSpec(builder.toks, builder.pos, builder.events) == goal
        decreases |builder.toks| - builder.pos
      {
        ParseEnumValue();
      }
    }

    /** `parseEnumDefinition`, on the keyword `enum`. */
    method ParseEnumDefinition()
      requires Valid() && builder.pos < |builder.toks|
      modifies builder
      ensures Valid() && builder.depth == old(builder.depth)
      ensures var r := Finish(builder.toks, EnumDefinitionSpec(builder.toks, old(builder.pos), old(builder.events)), EnumDefinition, Braces);
              builder.pos == r.end && builder.events == r.log
    {
      var marker := OpenWith(Keyword);
      var name := GetIdentifier();
      var ok := Expect(marker, Identifier, Some(DefinitionName), EnumDefinition, Braces, DefinitionNameMissing("enum"));
      if !ok {
        return;
      }
      ok := Expect(marker, LBrace, None, EnumDefinition, Braces, DefinitionBraceMissing("enum", name));
      if !ok {
        return;
      }
      ParseEnumBody(marker, name);
    }

    /** The rest of `parseEnumDefinition` after the `{`: the contents and the closing `}`. */
    method ParseEnumBody(marker: Marker, name: string)
      requires Valid() && builder.IsTop(marker)
      modifies builder
      ensures Valid() && builder.depth == old(builder.depth) - 1
      ensures var c := EnumContentsSpec(builder.toks, old(builder.pos), old(builder.events));
              var r := Finish(builder.toks, CloseBody(builder.toks, c, EnumDefinition, "enum", name), EnumDefinition, Braces);
              builder.pos == r.end && builder.events == r.log
    {
      ParseEnumContents();
      ExpectLast(marker, RBrace, EnumDefinition, EnumDefinition, Braces, InvalidInsideDefinition(GetTokenText(), "enum", name));
    }

    /**
     * `parseTypeContents`: options (when the lookahead finds no `<`), nested
     * enums and types, and fields, while the cursor is on an identifier.
     */
    method ParseTypeContents()
      requires Valid()
      modifies builder
      ensures Valid() && builder.depth == old(builder.depth)
      ensures var r := TypeContentsSpec(builder.toks, old(builder.pos), old(builder.events));
              builder.pos == r.end && builder.events == r.log
      decreases |builder.toks| - builder.pos, 2
    {
      ghost var goal := TypeContentsSpec(builder.toks, builder.pos, builder.events);
      while true
        invariant Valid() && builder.depth == old(builder.depth) && old(builder.pos) <= builder.pos
        invariant TypeContentsSpec(builder.toks, builder.pos, builder.events) == goal
        decreases |builder.toks| - builder.pos
      {
        if IsIdentifier("option") {
          var isOption := LookaheadIsOption();
          if isOption {
            ParseOptionDefinition();
            continue;
          }
        }
        if IsIdentifier("enum") {
          ParseEnumDefinition();
          continue;
        }
        if IsIdentifier("type") {
          ParseTypeDefinition();
          continue;
        }
        if IsToken(Identifier) {
          ParseFieldDefinition();
          continue;
        }
        return;
      }
    }

    /** `parseTypeDefinition`, on the keyword `type`. */
    method ParseTypeDefinition()
      requires Valid() && builder.pos < |builder.toks|
      modifies builder
      ensures Valid() && builder.depth == old(builder.depth)
      ensures var r := Finish(builder.toks, TypeDefinitionSpec(builder.toks, old(builder.pos), old(builder.events)), TypeDefinition, Braces);
              builder.pos == r.end && builder.events == r.log
      decreases |builder.toks| - builder.pos, 1
    {
      var marker := OpenWith(Keyword);
      var name := GetIdentifier();
      var ok := Expect(marker, Identifier, Some(DefinitionName), TypeDefinition, Braces, DefinitionNameMissing("type"));
      if !ok {
        return;
      }
      ok := Expect(marker, LBrace, None, TypeDefinition, Braces, DefinitionBraceMissing("type", name));
      if !ok {
        return;
      }
      ParseTypeBody(marker, name);
    }

    /** The rest of `parseTypeDefinition` after the `{`: the contents and the closing `}`. */
    method ParseTypeBody(marker: Marker, name: string)
      requires Valid() && builder.IsTop(marker)
      modifies builder
      ensures Valid() && builder.depth == old(builder.depth) - 1
      ensures var c := TypeContentsSpec(builder.toks, old(builder.pos), old(builder.events));
              var r := Finish(builder.toks, CloseBody(builder.toks, c, TypeDefinition, "type", name), TypeDefinition, Braces);
              builder.pos == r.end && builder.events == r.log
      decreases |builder.toks| - builder.pos, 3
    {
      ParseTypeContents();
      ExpectLast(marker, RBrace, TypeDefinition, TypeDefinition, Braces, InvalidInsideDefinition(GetTokenText(), "type", name));
    }

    /**
     * `parseComponentContents`: options (when the lookahead finds no `<`),
     * `id`, `data`, `event` and `command` statements, and fields, while the
     * cursor is on an identifier.
     */
    method ParseComponentContents()
      requires Valid()
      modifies builder
      ensures Valid() && builder.depth == old(builder.depth)
      ensures var r := ComponentContentsSpec(builder.toks, old(builder.pos), old(builder.events));
              builder.pos == r.end && builder.events == r.log
    {
      ghost var goal := ComponentContentsSpec(builder.toks, builder.pos, builder.events);
      while true
        invariant Valid() && builder.depth == old(builder.depth)
        invariant ComponentContentsSpec(builder.toks, builder.pos, builder.events) == goal
        decreases |builder.toks| - builder.pos
      {
        if IsIdentifier("option") {
          var isOption := LookaheadIsOption();
          if isOption {
            ParseOptionDefinition();
            continue;
          }
        }
        if IsIdentifier("id") {
          ParseComponentIdDefinition();
          continue;
        }
        if IsIdentifier("data") {
          ParseDataDefinition();
          continue;
        }
        if IsIdentifier("event") {
          ParseEventDefinition();
          continue;
        }
        if IsIdentifier("command") {
          ParseCommandDefinition();
          continue;
        }
        if IsToken(Identifier) {
          ParseFieldDefinition();
          continue;
        }
        return;
      }
    }

    /** `parseComponentDefinition`, on the keyword `component`. */
    method ParseComponentDefinition()
      requires Valid() && builder.pos < |builder.toks|
      modifies builder
      ensures Valid() && builder.depth == old(builder.depth)
      ensures var r := Finish(builder.toks, ComponentDefinitionSpec(builder.toks, old(builder.pos), old(builder.events)), ComponentDefinition, Braces);
              builder.pos == r.end && builder.events == r.log
    {
      var marker := OpenWith(Keyword);
      var name := GetIdentifier();
      var ok := Expect(marker, Identifier, Some(DefinitionName), ComponentDefinition, Braces, DefinitionNameMissing("component"));
      if !ok {
        return;
      }
      ok := Expect(marker, LBrace, None, ComponentDefinition, Braces, DefinitionBraceMissing("component", name));
      if !ok {
        return;
      }
      ParseComponentBody(marker, name);
    }

    /** The rest of `parseComponentDefinition` after the `{`: the contents and the closing `}`. */
    method ParseComponentBody(marker: Marker, name: string)
      requires Valid() && builder.IsTop(marker)
      modifies builder
      ensures Valid() && builder.depth == old(builder.depth) - 1
      ensures var c := ComponentContentsSpec(builder.toks, old(builder.pos), old(builder.events));
              var r := Finish(builder.toks, CloseBody(builder.toks, c, ComponentDefinition, "component", name), ComponentDefinition, Braces);
              builder.pos == r.end && builder.events == r.log
    {
      ParseComponentContents();
      ExpectLast(marker, RBrace, ComponentDefinition, ComponentDefinition, Braces, InvalidInsideDefinition(GetTokenText(), "component", name));
    }

    /**
     * `parseAnnotationField`: one `AnnotationField` node around a value; a
     * malformed value closes it and recovers in statement context.
     */
    method ParseAnnotationField()
      requires Valid()
      modifies builder
      ensures Valid() && builder.depth == old(builder.depth)
      ensures var r := Finish(builder.toks, AnnotationFieldSpec(builder.toks, old(builder.pos), old(builder.events)), AnnotationField, Statement);
              builder.pos == r.end && builder.events == r.log
      decreases |builder.toks| - builder.pos, 4
    {
      var marker := builder.Mark();
      var ok := ParseFieldValue(marker);
      if ok {
        builder.Done(marker, AnnotationField);
      }
    }

    /**
     * The `for (;;)` block of `parseAnnotationField`, which runs once and
     * leaves by `break` (`ok`) or by `return` after an error.
     */
    method ParseFieldValue(marker: Marker) returns (ok: bool)
      requires Valid() && builder.IsTop(marker)
      modifies builder
      ensures Valid()
      ensures var o := FieldValueSpec(builder.toks, old(builder.pos), old(builder.events));
              var r := Settle(builder.toks, o, Statement);
              && ok == o.Accept? && builder.pos == r.end && builder.events == r.log
              && builder.depth == if ok then old(builder.depth) else old(builder.depth) - 1
      decreases |builder.toks| - builder.pos, 3
    {
      var text := builder.TokenText();
      if text.Some? && MatchesOptionPattern(text.value) {
        ok := ParseLiteralValue(marker);
        return;
      }
      if IsToken(LBracket) {
        ok := ParseArrayValue(marker);
        return;
      }
      if IsToken(LBrace) {
        ok := ParseMapValue(marker);
        return;
      }
      if IsToken(Identifier) {
        ParseReferenceValue();
      }
      return true;
    }

    /** A literal value; after an integer and the identifier `.`, the digits of a decimal must follow. */
    method ParseLiteralValue(marker: Marker) returns (ok: bool)
      requires Valid() && builder.IsTop(marker) && builder.pos < |builder.toks|
      modifies builder
      ensures Valid()
      ensures var o := LiteralSpec(builder.toks, old(builder.pos), old(builder.events));
              var r := Settle(builder.toks, o, Statement);
              && ok == o.Accept? && builder.pos == r.end && builder.events == r.log
              && builder.depth == if ok then old(builder.depth) else old(builder.depth) - 1
    {
      var num := IsToken(Integer);
      ConsumeTokenAs(Some(OptionValue));
      if num && IsIdentifier(".") {
        ConsumeTokenAs(Some(OptionValue));
        ok := Expect(marker, Integer, Some(OptionValue), AnnotationField, Statement, DecimalDigitsMissing);
        return;
      }
      return true;
    }

    /** An array value on its `[`: `[]`, or the elements loop. */
    method ParseArrayValue(marker: Marker) returns (ok: bool)
      requires Valid() && builder.IsTop(marker) && builder.pos < |builder.toks|
      modifies builder
      ensures Valid()
      ensures var o := ArrayValueSpec(builder.toks, old(builder.pos), old(builder.events));
              var r := Settle(builder.toks, o, Statement);
              && ok == o.Accept? && builder.pos == r.end && builder.events == r.log
              && builder.depth == if ok then old(builder.depth) else old(builder.depth) - 1
      decreases |builder.toks| - builder.pos, 2
    {
      ConsumeTokenAs(None);
      if IsToken(RBracket) {
        ConsumeTokenAs(None);
        return true;
      }
      ok := ParseArrayElements(marker);
    }

    /** The `while (true)` loop of a non-empty array value. */
    method ParseArrayElements(marker: Marker) returns (ok: bool)
      requires Valid() && builder.IsTop(marker)
      modifies builder
      ensures Valid()
      ensures var o := ArrayElementsSpec(builder.toks, old(builder.pos), old(builder.events));
              var r := Settle(builder.toks, o, Statement);
              && ok == o.Accept? && builder.pos == r.end && builder.events == r.log
              && builder.depth == if ok then old(builder.depth) else old(builder.depth) - 1
      decreases |builder.toks| - builder.pos, 6
    {
      ghost var goal := ArrayElementsSpec(builder.toks, builder.pos, builder.events);
      while true
        invariant Valid() && builder.depth == old(builder.depth) && old(builder.pos) <= builder.pos
        invariant ArrayElementsSpec(builder.toks, builder.pos, builder.events) == goal
        decreases |builder.toks| - builder.pos
      {
        ghost var q, acc := builder.pos, builder.events;
        ParseAnnotationField();
        if IsToken(RBracket) {
          ConsumeTokenAs(None);
          return true;
        }
        ok := Expect(marker, Comma, None, AnnotationField, Statement, ArrayCommaMissing);
        if !ok {
          return;
        }
        ArrayElementsStep(builder.toks, q, acc, builder.pos, builder.events);
      }
    }

    /** A map value on its `{`: `{}`, or the entries loop. */
    method ParseMapValue(marker: Marker) returns (ok: bool)
      requires Valid() && builder.IsTop(marker) && builder.pos < |builder.toks|
      modifies builder
      ensures Valid()
      ensures var o := MapValueSpec(builder.toks, old(builder.pos), old(builder.events));
              var r := Settle(builder.toks, o, Statement);
              && ok == o.Accept? && builder.pos == r.end && builder.events == r.log
              && builder.depth == if ok then old(builder.depth) else old(builder.depth) - 1
      decreases |builder.toks| - builder.pos, 2
    {
      ConsumeTokenAs(None);
      if IsToken(RBrace) {
        ConsumeTokenAs(None);
        return true;
      }
      ok := ParseMapEntries(marker);
    }

    /** The `while (true)` loop of a non-empty map value. */
    method ParseMapEntries(marker: Marker) returns (ok: bool)
      requires Valid() && builder.IsTop(marker)
      modifies builder
      ensures Valid()
      ensures var o := MapEntriesSpec(builder.toks, old(builder.pos), old(builder.events));
              var r := Settle(builder.toks, o, Statement);
              && ok == o.Accept? && builder.pos == r.end && builder.events == r.log
              && builder.depth == if ok then old(builder.depth) else old(builder.depth) - 1
      decreases |builder.toks| - builder.pos, 6
    {
      ghost var goal := MapEntriesSpec(builder.toks, builder.pos, builder.events);
      while true
        invariant Valid() && builder.depth == old(builder.depth) && old(builder.pos) <= builder.pos
        invariant MapEntriesSpec(builder.toks, builder.pos, builder.events) == goal
        decreases |builder.toks| - builder.pos
      {
        ghost var q, acc := builder.pos, builder.events;
        ok := ParseMapEntry(marker);
        if !ok {
          return;
        }
        if IsToken(RBrace) {
          ConsumeTokenAs(None);
          return true;
        }
        ok := Expect(marker, Comma, None, AnnotationField, Statement, MapCommaMissing);
        if !ok {
          return;
        }
        MapEntriesStep(builder.toks, q, acc, builder.pos, builder.events);
      }
    }

    /** One `key: value` entry of a map value. */
    method ParseMapEntry(marker: Marker) returns (ok: bool)
      requires Valid() && builder.IsTop(marker)
      modifies builder
      ensures Valid()
      ensures var o := MapEntrySpec(builder.toks, old(builder.pos), old(builder.events));
              var r := Settle(builder.toks, o, Statement);
              && ok == o.Accept? && builder.pos == r.end && builder.events == r.log
              && builder.depth == if ok then old(builder.depth) else old(builder.depth) - 1
      decreases |builder.toks| - builder.pos, 5
    {
      ghost var toks, q, acc := builder.toks, builder.pos, builder.events;
      ParseAnnotationField();
      ghost var keyFin := Finish(toks, AnnotationFieldSpec(toks, q, acc), AnnotationField, Statement);
      ok := Expect(marker, Colon, Some(TypeName), AnnotationField, Statement, MapColonMissing);
      if !ok {
        assert MapEntrySpec(toks, q, acc) == Reject(keyFin.end, keyFin.log, AnnotationField, MapColonMissing);
        return;
      }
      ghost var keyed := Leaf(keyFin.log, toks, keyFin.end, TypeName);
      assert builder.pos == keyFin.end + 1 && builder.events == keyed;
      ParseAnnotationField();
      ghost var valueFin := Finish(toks, AnnotationFieldSpec(toks, keyFin.end + 1, keyed), AnnotationField, Statement);
      assert MapEntrySpec(toks, q, acc) == Accept(valueFin.end, valueFin.log);
    }

    /**
     * An identifier value: a constructor call when `lookAhead(1)` is `(`,
     * with one highlight range per dot-separated segment; otherwise a type
     * name, or an enum reference when the text holds a dot.
     */
    method ParseReferenceValue()
      requires Valid() && builder.pos < |builder.toks|
      modifies builder
      ensures Valid() && builder.depth == old(builder.depth)
      ensures var r := ReferenceValueSpec(builder.toks, old(builder.pos), old(builder.events));
              builder.pos == r.end && builder.events == r.log
      decreases |builder.toks| - builder.pos, 2
    {
      var text := builder.TokenText().value;
      if builder.LookAhead(1) == Some(LParentheses) {
        var entries := DottedEntries(text);
        ConsumeTokenAs(Some(Ranged("Method Initializing", entries)));
        ConstructorCall(builder.toks, old(builder.pos), old(builder.events), builder.pos, builder.events);
        ParseAnnotationFieldArray();
        return;
      }
      var index := IndexOf(text, '.');
      if index == -1 {
        ConsumeTokenAs(Some(TypeName));
        return;
      }
      ConsumeTokenAs(Some(Ranged("Enum Reference", EnumReferenceEntries(text))));
    }

    /** `parseAnnotationFieldArray`, on the `(`. */
    method ParseAnnotationFieldArray()
      requires Valid() && builder.pos < |builder.toks|
      modifies builder
      ensures Valid() && builder.depth == old(builder.depth)
      ensures var r := Finish(builder.toks, FieldArraySpec(builder.toks, old(builder.pos), old(builder.events)), AnnotationFieldArray, Statement);
              builder.pos == r.end && builder.events == r.log
      decreases |builder.toks| - builder.pos, 1
    {
      var marker := OpenOn();
      var ok := ParseFieldArrayItems(marker);
      if ok {
        ConsumeTokenAs(None);
        builder.Done(marker, AnnotationFieldArray);
      }
    }

    /** The `while (true)` loop of `parseAnnotationFieldArray`. */
    method ParseFieldArrayItems(marker: Marker) returns (ok: bool)
      requires Valid() && builder.IsTop(marker)
      modifies builder
      ensures Valid()
      ensures var o := FieldArrayItemsSpec(builder.toks, old(builder.pos), old(builder.events));
              var r := Settle(builder.toks, o, Statement);
              && ok == o.Accept? && builder.pos == r.end && builder.events == r.log
              && builder.depth == if ok then old(builder.depth) else old(builder.depth) - 1
      decreases |builder.toks| - builder.pos, 6
    {
      ghost var goal := FieldArrayItemsSpec(builder.toks, builder.pos, builder.events);
      while true
        invariant Valid() && builder.depth == old(builder.depth) && old(builder.pos) <= builder.pos
        invariant FieldArrayItemsSpec(builder.toks, builder.pos, builder.events) == goal
        decreases |builder.toks| - builder.pos
      {
        if builder.TokenText() == None {
          return true;
        }
        ghost var q, acc := builder.pos, builder.events;
        ParseAnnotationField();
        if IsToken(RParentheses) {
          return true;
        }
        ok := Expect(marker, Comma, None, AnnotationFieldArray, Statement, ArrayCommaMissing);
        if !ok {
          return;
        }
        FieldArrayItemsStep(builder.toks, q, acc, builder.pos, builder.events);
      }
    }

    /** One `name = value` of an annotation's named values. */
    method ParseNamedField(marker: Marker) returns (ok: bool)
      requires Valid() && builder.IsTop(marker)
      modifies builder
      ensures Valid()
      ensures var o := NamedFieldSpec(builder.toks, old(builder.pos), old(builder.events));
              var r := Settle(builder.toks, o, Statement);
              && ok == o.Accept? && builder.pos == r.end && builder.events == r.log
              && builder.depth == if ok then old(builder.depth) else old(builder.depth) - 1
    {
      ok := Expect(marker, Identifier, None, Annotation, Statement, AnnotationFieldNameMissing);
      if !ok {
        return;
      }
      ok := Expect(marker, Equals, None, Annotation, Statement, AnnotationEqualsMissing);
      if !ok {
        return;
      }
      ParseAnnotationField();
    }

    /** The `while (true)` loop of an annotation's named values, through the `)`. */
    method ParseNamedFields(marker: Marker) returns (ok: bool)
      requires Valid() && builder.IsTop(marker)
      modifies builder
      ensures Valid()
      ensures var o := NamedFieldsSpec(builder.toks, old(builder.pos), old(builder.events));
              var r := Settle(builder.toks, o, Statement);
              && ok == o.Accept? && builder.pos == r.end && builder.events == r.log
              && builder.depth == if ok then old(builder.depth) else old(builder.depth) - 1
    {
      ghost var goal := NamedFieldsSpec(builder.toks, builder.pos, builder.events);
      while true
        invariant Valid() && builder.depth == old(builder.depth)
        invariant NamedFieldsSpec(builder.toks, builder.pos, builder.events) == goal
        decreases |builder.toks| - builder.pos
      {
        ghost var q, acc := builder.pos, builder.events;
        ok := ParseNamedField(marker);
        if !ok {
          return;
        }
        if IsToken(RParentheses) {
          ConsumeTokenAs(None);
          return true;
        }
        ok := Expect(marker, Comma, None, Annotation, Statement, AnnotationCommaMissing);
        if !ok {
          return;
        }
        NamedFieldsStep(builder.toks, q, acc, builder.pos, builder.events);
      }
    }

    /** `parseAnnotation`, on the `[`. */
    method ParseAnnotation()
      requires Valid() && builder.pos < |builder.toks|
      modifies builder
      ensures Valid() && builder.depth == old(builder.depth)
      ensures var r := Finish(builder.toks, AnnotationSpec(builder.toks, old(builder.pos), old(builder.events)), Annotation, Statement);
              builder.pos == r.end && builder.events == r.log
    {
      var marker := OpenOn();
      var ok := Expect(marker, Identifier, Some(TypeName), Annotation, Statement, AnnotationTypeMissing);
      if !ok {
        return;
      }
      ParseAnnotationBody(marker);
    }

    /** The rest of `parseAnnotation` after the type name: the arguments and the closing `]`. */
    method ParseAnnotationBody(marker: Marker)
      requires Valid() && builder.IsTop(marker)
      modifies builder
      ensures Valid() && builder.depth == old(builder.depth) - 1
      ensures var r := Finish(builder.toks, AnnotationBodySpec(builder.toks, old(builder.pos), old(builder.events)), Annotation, Statement);
              builder.pos == r.end && builder.events == r.log
    {
      var ok := ParseAnnotationArguments(marker);
      if ok {
        ExpectLast(marker, RBracket, Annotation, Annotation, Statement, AnnotationEndMissing);
      }
    }

    /** The arguments of an annotation, if a `(` follows its type name. */
    method ParseAnnotationArguments(marker: Marker) returns (ok: bool)
      requires Valid() && builder.IsTop(marker)
      modifies builder
      ensures Valid()
      ensures var o := AnnotationArgumentsSpec(builder.toks, old(builder.pos), old(builder.events));
              var r := Settle(builder.toks, o, Statement);
              && ok == o.Accept? && builder.pos == r.end && builder.events == r.log
              && builder.depth == if ok then old(builder.depth) else old(builder.depth) - 1
    {
      if !IsToken(LParentheses) {
        return true;
      }
      if builder.LookAhead(2) == Some(Equals) {
        ConsumeTokenAs(None);
        ok := ParseNamedFields(marker);
        return;
      }
      ParseAnnotationFieldArray();
      return true;
    }

    /**
     * `parseTopLevelDefinition`: dispatch on the keyword, or on the text `[`
     * for an annotation; anything else is skipped by a top-level recovery
     * with no enclosing marker.
     */
    method ParseTopLevelDefinition()
      requires Valid() && builder.pos < |builder.toks|
      modifies builder
      ensures Valid() && builder.depth == old(builder.depth)
      ensures var r := TopLevelSpec(builder.toks, old(builder.pos), old(builder.events));
              builder.pos == r.end && builder.events == r.log
    {
      if IsIdentifier("package") {
        ParsePackageDefinition();
      } else if IsIdentifier("import") {
        ParseImportDefinition();
      } else if IsIdentifier("enum") {
        ParseEnumDefinition();
      } else if IsIdentifier("type") {
        ParseTypeDefinition();
      } else if IsIdentifier("component") {
        ParseComponentDefinition();
      } else if builder.TokenText() == Some("[") {
        ParseAnnotation();
      } else {
        Error(None, None, TopLevel, TopLevelMessage);
      }
    }

    /**
     * `parseSchemaFile`: one root marker around top-level definitions up to
     * the end of input, closed as `root`.
     */
    method ParseSchemaFile(root: NodeKind)
      requires Valid()
      modifies builder
      ensures Valid() && builder.depth == old(builder.depth)
      ensures builder.pos == |builder.toks|
      ensures builder.events == Then(DefinitionsSpec(builder.toks, old(builder.pos), Then(old(builder.events), Open)), Close(root))
      ensures Leaves(builder.events) == Leaves(old(builder.events)) + builder.toks[old(builder.pos)..]
    {
      ghost var start, before := builder.pos, builder.events;
      ExtendMark(builder.toks, before, start, before, start, Open);
      DefinitionsCovers(builder.toks, before, start, start, Then(before, Open));
      var marker := builder.Mark();
      while builder.TokenType() != None && !builder.Eof()
        invariant Valid() && builder.IsTop(marker)
        invariant DefinitionsSpec(builder.toks, builder.pos, builder.events)
                  == DefinitionsSpec(builder.toks, old(builder.pos), Then(old(builder.events), Open))
        decreases |builder.toks| - builder.pos
      {
        ParseTopLevelDefinition();
      }
      builder.Done(marker, root);
      ExtendMark(builder.toks, before, start, DefinitionsSpec(builder.toks, start, Then(before, Open)), |builder.toks|, Close(root));
    }
  }
}
