/**
 * The specification of the top-level driver: a schema file is a sequence of
 * package, import, enum, type and component definitions and annotations,
 * dispatched on the first token; anything else is reported and skipped in
 * top-level context. The whole file is one root node.
 */
module TopLevel {
  import opened Tokens
  import opened Recovery
  import opened Statements
  import opened Blocks
  import opened Annotations
  import opened Diagnostics

  /**
   * `parseTopLevelDefinition` at `p`: dispatch on the identifiers `package`,
   * `import`, `enum`, `type`, `component`, then on the text `[`; any other
   * token starts a top-level recovery with no enclosing marker.
   */
  function TopLevelSpec(toks: seq<Token>, p: nat, log: Log): (r: Parsed)
    requires p < |toks|
    ensures p < r.end <= |toks|
  {
    if IsWord(toks, p, "package") then
      StatementStep(toks, PackageSpec(toks, p, log), PackageDefinition, p)
    else if IsWord(toks, p, "import") then
      StatementStep(toks, ImportSpec(toks, p, log), ImportDefinition, p)
    else if IsWord(toks, p, "enum") then
      DefinitionStep(toks, EnumDefinitionSpec(toks, p, log), EnumDefinition, p)
    else if IsWord(toks, p, "type") then
      DefinitionStep(toks, TypeDefinitionSpec(toks, p, log), TypeDefinition, p)
    else if IsWord(toks, p, "component") then
      DefinitionStep(toks, ComponentDefinitionSpec(toks, p, log), ComponentDefinition, p)
    else if toks[p].text == "[" then
      StatementStep(toks, AnnotationSpec(toks, p, log), Annotation, p)
    else
      Recover(toks, p, TopLevel, Then(log, Open), TopLevelMessage)
  }

  /** The loop of `parseSchemaFile` from `p`: one top-level definition after another, to the end. */
  function DefinitionsSpec(toks: seq<Token>, p: nat, acc: Log): (evs: Log)
    requires p <= |toks|
    decreases |toks| - p
  {
    if p == |toks| then acc
    else
      var step := TopLevelSpec(toks, p, acc);
      DefinitionsSpec(toks, step.end, step.log)
  }

  /** `parseSchemaFile`: every event of a whole file, inside one root node of kind `root`. */
  function SchemaFileSpec(toks: seq<Token>, root: NodeKind): (evs: Log)
    ensures evs.Then? && evs.last == Close(root)
  {
    Then(DefinitionsSpec(toks, 0, Then(Start, Open)), Close(root))
  }
}
