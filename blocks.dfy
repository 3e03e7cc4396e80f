/**
 * The specifications of the block productions: the bodies of enums, types
 * and components, and the definitions that wrap them in `NAME { ... }`.
 * A body is a loop over the statements it admits; it stops, without
 * consuming, at the first token that starts none of them. A definition
 * whose name, `{` or closing `}` is missing recovers in braces context.
 *
 * Every specification extends the log of the events issued before it; a
 * loop's result carries the whole log up to where the loop stopped.
 */
module Blocks {
  import opened Tokens
  import opened Recovery
  import opened Statements
  import opened Diagnostics

  /** A definition as one step of a loop: where the cursor ends up, and the log after it. */
  function DefinitionStep(toks: seq<Token>, o: Outcome, kind: NodeKind, p: nat): (r: Parsed)
    requires WellFormed(toks, o) && Advances(o, p)
    ensures p < r.end <= |toks|
  {
    Finish(toks, o, kind, Braces)
  }

  /**
   * The closing `}` of a body that stopped at `c.end`; anything else there
   * is reported as invalid inside the definition `keyword name`.
   */
  function CloseBody(toks: seq<Token>, c: Parsed, kind: NodeKind, keyword: string, name: string): (o: Outcome)
    requires c.end <= |toks|
    ensures WellFormed(toks, o)
    ensures o.Accept? <==> IsKind(toks, c.end, RBrace)
    ensures o.Accept? ==> o.end == c.end + 1 && o.evs == Then(c.log, Tok(toks[c.end]))
    ensures o.Reject? ==> o.at == c.end && o.evs == c.log && o.closeAs == kind
    ensures o.Reject? ==> o.msg == InvalidInsideDefinition(DisplayText(toks, c.end), keyword, name)
  {
    if !IsKind(toks, c.end, RBrace) then
      Reject(c.end, c.log, kind, InvalidInsideDefinition(DisplayText(toks, c.end), keyword, name))
    else
      Accept(c.end + 1, Then(c.log, Tok(toks[c.end])))
  }

  /**
   * `parseEnumContents` from `p`: one enum value per identifier; a
   * malformed value recovers in statement context and the loop goes on.
   */
  function EnumContentsSpec(toks: seq<Token>, p: nat, acc: Log): (r: Parsed)
    requires p <= |toks|
    ensures p <= r.end <= |toks| && !IsKind(toks, r.end, Identifier)
    decreases |toks| - p
  {
    if IsKind(toks, p, Identifier) then
      var step := StatementStep(toks, EnumValueSpec(toks, p, acc), EnumValueDefinition, p);
      EnumContentsSpec(toks, step.end, step.log)
    else
      Parsed(p, acc)
  }

  /** `enum NAME { values }` from the keyword at `p`. */
  function EnumDefinitionSpec(toks: seq<Token>, p: nat, log: Log): (o: Outcome)
    requires p < |toks|
    ensures WellFormed(toks, o) && Advances(o, p)
    ensures o.Reject? ==> o.closeAs == EnumDefinition
  {
    var kw := Leaf(Then(log, Open), toks, p, Keyword);
    if !IsKind(toks, p + 1, Identifier) then
      Reject(p + 1, kw, EnumDefinition, DefinitionNameMissing("enum"))
    else
      var name := toks[p + 1].text;
      var named := Leaf(kw, toks, p + 1, DefinitionName);
      if !IsKind(toks, p + 2, LBrace) then
        Reject(p + 2, named, EnumDefinition, DefinitionBraceMissing("enum", name))
      else
        CloseBody(toks, EnumContentsSpec(toks, p + 3, Then(named, Tok(toks[p + 2]))), EnumDefinition, "enum", name)
  }

  /**
   * One statement of a type body, dispatched on the identifier at `p`: an
   * option (when no `<` follows), a nested enum or type, or otherwise a
   * field.
   */
  function TypeStatementSpec(toks: seq<Token>, p: nat, log: Log): (r: Parsed)
    requires IsKind(toks, p, Identifier)
    ensures p < r.end <= |toks|
    decreases |toks| - p, 1
  {
    if IsWord(toks, p, "option") && !IsKind(toks, p + 1, LAngle) then
      StatementStep(toks, OptionSpec(toks, p, log), OptionDefinition, p)
    else if IsWord(toks, p, "enum") then
      DefinitionStep(toks, EnumDefinitionSpec(toks, p, log), EnumDefinition, p)
    else if IsWord(toks, p, "type") then
      DefinitionStep(toks, TypeDefinitionSpec(toks, p, log), TypeDefinition, p)
    else
      StatementStep(toks, FieldSpec(toks, p, log), FieldDefinition, p)
  }

  /** `parseTypeContents` from `p`: one statement per identifier, stopping at any other token. */
  function TypeContentsSpec(toks: seq<Token>, p: nat, acc: Log): (r: Parsed)
    requires p <= |toks|
    ensures p <= r.end <= |toks| && !IsKind(toks, r.end, Identifier)
    decreases |toks| - p, 2
  {
    if IsKind(toks, p, Identifier) then
      var step := TypeStatementSpec(toks, p, acc);
      TypeContentsSpec(toks, step.end, step.log)
    else
      Parsed(p, acc)
  }

  /** `type NAME { contents }` from the keyword at `p`. */
  function TypeDefinitionSpec(toks: seq<Token>, p: nat, log: Log): (o: Outcome)
    requires p < |toks|
    ensures WellFormed(toks, o) && Advances(o, p)
    ensures o.Reject? ==> o.closeAs == TypeDefinition
    decreases |toks| - p, 0
  {
    var kw := Leaf(Then(log, Open), toks, p, Keyword);
    if !IsKind(toks, p + 1, Identifier) then
      Reject(p + 1, kw, TypeDefinition, DefinitionNameMissing("type"))
    else
      var name := toks[p + 1].text;
      var named := Leaf(kw, toks, p + 1, DefinitionName);
      if !IsKind(toks, p + 2, LBrace) then
        Reject(p + 2, named, TypeDefinition, DefinitionBraceMissing("type", name))
      else
        CloseBody(toks, TypeContentsSpec(toks, p + 3, Then(named, Tok(toks[p + 2]))), TypeDefinition, "type", name)
  }

  /** A statement as one step of a body loop: where the cursor ends up, and the log after it. */
  function StatementStep(toks: seq<Token>, o: Outcome, kind: NodeKind, p: nat): (r: Parsed)
    requires WellFormed(toks, o) && Advances(o, p)
    ensures p < r.end <= |toks|
  {
    Finish(toks, o, kind, Statement)
  }

  /**
   * One statement of a component body, dispatched on the identifier at
   * `p`: an option (when no `<` follows), `id`, `data`, `event`, `command`,
   * or otherwise a field.
   */
  function ComponentStatementSpec(toks: seq<Token>, p: nat, log: Log): (r: Parsed)
    requires IsKind(toks, p, Identifier)
    ensures p < r.end <= |toks|
  {
    if IsWord(toks, p, "option") && !IsKind(toks, p + 1, LAngle) then
      StatementStep(toks, OptionSpec(toks, p, log), OptionDefinition, p)
    else if IsWord(toks, p, "id") then
      StatementStep(toks, ComponentIdSpec(toks, p, log), ComponentIdDefinition, p)
    else if IsWord(toks, p, "data") then
      StatementStep(toks, DataSpec(toks, p, log), DataDefinition, p)
    else if IsWord(toks, p, "event") then
      StatementStep(toks, EventSpec(toks, p, log), EventDefinition, p)
    else if IsWord(toks, p, "command") then
      StatementStep(toks, CommandSpec(toks, p, log), CommandDefinition, p)
    else
      StatementStep(toks, FieldSpec(toks, p, log), FieldDefinition, p)
  }

  /** `parseComponentContents` from `p`: one statement per identifier, stopping at any other token. */
  function ComponentContentsSpec(toks: seq<Token>, p: nat, acc: Log): (r: Parsed)
    requires p <= |toks|
    ensures p <= r.end <= |toks| && !IsKind(toks, r.end, Identifier)
    decreases |toks| - p
  {
    if IsKind(toks, p, Identifier) then
      var step := ComponentStatementSpec(toks, p, acc);
      ComponentContentsSpec(toks, step.end, step.log)
    else
      Parsed(p, acc)
  }

  /** `component NAME { contents }` from the keyword at `p`. */
  function ComponentDefinitionSpec(toks: seq<Token>, p: nat, log: Log): (o: Outcome)
    requires p < |toks|
    ensures WellFormed(toks, o) && Advances(o, p)
    ensures o.Reject? ==> o.closeAs == ComponentDefinition
  {
    var kw := Leaf(Then(log, Open), toks, p, Keyword);
    if !IsKind(toks, p + 1, Identifier) then
      Reject(p + 1, kw, ComponentDefinition, DefinitionNameMissing("component"))
    else
      var name := toks[p + 1].text;
      var named := Leaf(kw, toks, p + 1, DefinitionName);
      if !IsKind(toks, p + 2, LBrace) then
        Reject(p + 2, named, ComponentDefinition, DefinitionBraceMissing("component", name))
      else
        CloseBody(toks, ComponentContentsSpec(toks, p + 3, Then(named, Tok(toks[p + 2]))), ComponentDefinition,
                  "component", name)
  }
}
