# SpatialOS schema parser, modelled and verified in Dafny

This project models `SchemaParser.Instance`, the recursive-descent parser
of the SpatialOS IntelliJ plugin. The parser reads the tokens of a
SpatialOS schema file and drives IntelliJ's tree builder (`PsiBuilder`) to
build the syntax tree: package, import, enum, type and component
definitions, options, fields, component ids, data, events, commands and
annotations. On a malformed construct it closes the current node, wraps
the tokens up to a recovery boundary in one error node carrying a
diagnostic, and carries on.

The model has two layers.

* **Specifications.** Pure functions say, for every production, what it
  does from a token position and a log of builder events. The modules are
  `Statements`, `TypeNames`, `Blocks`, `Annotations`, `TopLevel` and
  `Recovery`. The result is either the position where the production
  completes, or the position where it deviates, together with the kind its
  marker is closed as and the diagnostic. Each function extends the event
  log one builder call at a time, in the order the parser issues them.
* **The parser itself.** `SchemaParser.Instance` is a class with a method
  for each Java method of the parser, plus helper methods for steps the
  Java code repeats inline (listed under "Left out"). It drives a
  `Psi.Builder`, the model of IntelliJ's builder: a token cursor, an event
  log (open a marker, consume a token, close a marker as a kind, close it
  as an error, drop it) and the number of open markers. Every method is
  proved to leave the cursor and the log exactly where its specification
  says. A production leaves the stack of open markers as it found it.
  `Error`, `Expect`, `ExpectLast`, `AbandonTypeName`, a failing
  `ParseTypeName` or `ParseTypeParameters`, and the head, tail and body
  steps that report failure leave it with the caller's marker closed, as
  their contracts state.

On top of the specifications, the lemmas prove:

* **Coverage.** The finished tree of *any* token stream has every token
  exactly once, in order, as its leaves (`Coverage.SchemaFileCovers`).
  The parser's own `ParseSchemaFile` states the same of the log it builds.
* **Recovery.** The closed form of the recovery loop is proved. So is where
  it stops in each of the three contexts, and that it adds exactly one
  error node.
* **Deviation shapes.** Each straight-line production completes exactly
  when the expected token kinds follow. Otherwise it deviates at the first
  token that does not match, with the node kind the source closes the
  marker as and the diagnostic text the source formats there. A complete
  production's events are stated as a flat list of leaves and bare
  tokens, and no production adds an error node of its own before it
  deviates.
* **Type names.** The tokens of a generic type name `Outer<A, B>` scan back
  to its rendering, in a `FieldType` node that holds a `TypeName` leaf and
  one `TypeParameterName` leaf per parameter.
* **Text helpers.** Properties of the integer reader, the literal pattern
  and the highlighted ranges of dotted names.

The model keeps the source's behaviour where it is surprising:

* When a type name is malformed, the enclosing marker is closed as a field
  definition, even inside `data`, `event` or `command`.
* A command that deviates after its name also closes as a field definition.
* `getString` drops the first character and the last two. On a string
  token of fewer than three characters, such as the `""` of `import "";`,
  its `substring` call throws, and the exception leaves the parser: the
  source does not finish the file. The model cannot throw; it reads such a
  token as the empty string and carries on.
* The `:` of a map entry is wrapped in a type-name node.
* A positional annotation argument list cut off by the end of input closes
  without an error.

## Model

| member | source | states |
|---|---|---|
| SchemaText.ParseInt | src/com/improbable/spatialos/schema/intellij/parser/SchemaParser.java:163-172 | the value is in the Java `int` range; it is non-zero only for a token of decimal digits, and then equals the number those digits denote |
| SchemaText.ParseIntNatToString | src/com/improbable/spatialos/schema/intellij/parser/SchemaParser.java:163-172 | reading back the decimal rendering of any value in `int` range gives that value (round trip) |
| SchemaText.GetString | src/com/improbable/spatialos/schema/intellij/parser/SchemaParser.java:174-177 | for a text of length at least 3, the text is its first character, then the result, then its last two characters |
| SchemaText.DigitsMatchOptionPattern | src/com/improbable/spatialos/schema/intellij/parser/SchemaParser.java:72 | every run of decimal digits matches the literal pattern of annotation values |
| SchemaText.DottedNameIsNotLiteral | src/com/improbable/spatialos/schema/intellij/parser/SchemaParser.java:72 | a name that starts with a letter and holds a dot never matches the literal pattern, so it reaches the identifier branch of an annotation value |
| SchemaText.IndexOf | src/com/improbable/spatialos/schema/intellij/parser/SchemaParser.java:660 | -1 exactly when the character is absent; otherwise the position of its first occurrence |
| SchemaText.DotSplitSplits | src/com/improbable/spatialos/schema/intellij/parser/SchemaParser.java:647-654 | the highlight ranges of a constructor name are the segments between its dots, in order, ending at the text's end |
| SchemaText.DottedEntries | src/com/improbable/spatialos/schema/intellij/parser/SchemaParser.java:647-654 | the loop over the characters yields exactly the dot-separated segments |
| SchemaText.EnumReferenceEntries | src/com/improbable/spatialos/schema/intellij/parser/SchemaParser.java:660-667 | two ranges: metadata up to the first dot, then a number range from after it to the end |
| Tokens.UptoMark | src/com/improbable/spatialos/schema/intellij/parser/SchemaParser.java:370-375 | rolling back to a marker made before one token restores the log to what it was before the marker |
| Tokens.MatchesPrefix | src/com/improbable/spatialos/schema/intellij/parser/SchemaParser.java:196-212 | the count of matching expected kinds is a prefix that cannot be extended |
| Tokens.SkipErrorCount | src/com/improbable/spatialos/schema/intellij/parser/SchemaParser.java:150 | consuming tokens adds no error node |
| Recovery.RecoveryStop | src/com/improbable/spatialos/schema/intellij/parser/SchemaParser.java:133-151 | the first position at or after the start where the context stops, or the end of input |
| Recovery.RecoveryStopSkips | src/com/improbable/spatialos/schema/intellij/parser/SchemaParser.java:133-151 | every token recovery passes over is one the context does not stop at |
| Recovery.RecoverClosedForm | src/com/improbable/spatialos/schema/intellij/parser/SchemaParser.java:131-152 | the recovery loop ends just after its boundary when it consumes it, at the boundary otherwise; its log is the skipped tokens, the error close, then the consumed boundary |
| Recovery.RecoverIsRecovered | src/com/improbable/spatialos/schema/intellij/parser/SchemaParser.java:131-152 | with the error marker opened first, the loop issues exactly one error node around the skipped tokens |
| Recovery.StatementRecovery | src/com/improbable/spatialos/schema/intellij/parser/SchemaParser.java:134-149 | a statement recovery passes no `;` or `}`, stops after a `;`, and stops before a `}` without consuming it |
| Recovery.BracesRecovery | src/com/improbable/spatialos/schema/intellij/parser/SchemaParser.java:140-145 | a braces recovery passes no `}`, steps over `;`, and ends just after the first `}` or at the end |
| Recovery.TopLevelRecovery | src/com/improbable/spatialos/schema/intellij/parser/SchemaParser.java:134-145 | a top-level recovery ends just after the first `;` or `}` and always consumes at least one token when there is one |
| Recovery.RecoveryOneError | src/com/improbable/spatialos/schema/intellij/parser/SchemaParser.java:131-152 | a recovery adds exactly one error node |
| Recovery.Recover | src/com/improbable/spatialos/schema/intellij/parser/SchemaParser.java:131-152 | the recovery loop never moves backwards and stops inside the input |
| TypeNames.ScanTypeParameters | src/com/improbable/spatialos/schema/intellij/parser/SchemaParser.java:282-304 | a success ends just after a `>` and extends the rendered name; a failure lies inside the remaining input |
| TypeNames.ScanTypeName | src/com/improbable/spatialos/schema/intellij/parser/SchemaParser.java:265-305 | without a `<` the name is the identifier alone, one token long; a malformed name can only follow a `<` |
| TypeNames.ScanTypeNameLogFree | src/com/improbable/spatialos/schema/intellij/parser/SchemaParser.java:265-305 | what the scan finds (name, end, error position and message) does not depend on the events before it |
| TypeNames.ScanTypeParametersRoundTrip | src/com/improbable/spatialos/schema/intellij/parser/SchemaParser.java:282-304 | a run of `, name` pairs closed by `>` scans to the name so far followed by `, A, B>`, and ends just after the `>` |
| TypeNames.TypeNameRoundTrip | src/com/improbable/spatialos/schema/intellij/parser/SchemaParser.java:265-305 | the tokens of `Outer<A, B>` followed by anything scan back to the rendering `Outer<A, B>` and end right after the `>`; the closed node's events are, in order, the `FieldType` marker, a `TypeName` leaf for `Outer`, the `<`, one `TypeParameterName` leaf per parameter with the commas between them, the `>`, and the `FieldType` close |
| TypeNames.ScanTypeNameEvents | src/com/improbable/spatialos/schema/intellij/parser/SchemaParser.java:265-305 | whatever the events before it, a type-name scan appends exactly `TypeNameEvents`: the type marker, a `TypeName` leaf, and for a generic name the `<`, a `TypeParameterName` leaf and `ParameterEvents` |
| TypeNames.ScanTypeParametersEvents | src/com/improbable/spatialos/schema/intellij/parser/SchemaParser.java:282-304 | the parameter loop appends exactly `ParameterEvents`: a `,` and a `TypeParameterName` leaf per further parameter, and the closing `>` or the offending `,` |
| TypeNames.ScanTypeNameErrorFree | src/com/improbable/spatialos/schema/intellij/parser/SchemaParser.java:265-305 | a type-name scan adds no error node; its failures are reported by the caller |
| TypeNames.ScanTypeParametersErrorFree | src/com/improbable/spatialos/schema/intellij/parser/SchemaParser.java:282-304 | the parameter loop adds no error node |
| Statements.TypeNodeFacts | src/com/improbable/spatialos/schema/intellij/parser/SchemaParser.java:265-305 | a type name scanned after any events scans as after any others, its node adds no error node whether closed or dropped, and a closed node adds `TypeNameEvents` and the `FieldType` close |
| Statements.Settle | src/com/improbable/spatialos/schema/intellij/parser/SchemaParser.java:125-153 | a completed production stops where it completed; a deviation recovers from the deviating token and never stops before it |
| Statements.Finish | src/com/improbable/spatialos/schema/intellij/parser/SchemaParser.java:125-153 | a completed production ends where it completed; a deviating one ends at or after the deviation |
| Statements.FinishErrorCount | src/com/improbable/spatialos/schema/intellij/parser/SchemaParser.java:125-153 | finishing adds no error node to a completed production and exactly one to a deviating one |
| Statements.PackageShape | src/com/improbable/spatialos/schema/intellij/parser/SchemaParser.java:196-212 | `package` completes exactly when a name and `;` follow, with events marker, `Keyword` leaf, `PackageName` leaf, `;`; otherwise it deviates at the first mismatch, closes as a package definition, and says "Expected a package name after 'package'." or "Expected ';' after package definition."; no error node of its own |
| Statements.ImportShape | src/com/improbable/spatialos/schema/intellij/parser/SchemaParser.java:214-231 | `import` completes exactly when a string and `;` follow, with events marker, `Keyword` leaf, `ImportFilename` leaf, `;`; otherwise it deviates at the first mismatch as an import definition, with the missing-filename text or, at the `;`, the text quoting the file name with its first character and last two removed; no error node of its own |
| Statements.OptionShape | src/com/improbable/spatialos/schema/intellij/parser/SchemaParser.java:233-263 | `option` completes exactly on name, `=`, value, `;`, with events marker, `Keyword`, `OptionName`, `=`, `OptionValue`, `;`; otherwise it deviates at the first mismatch as an option definition, each deviation with its own text quoting the name and value read so far; no error node of its own |
| Statements.ComponentIdShape | src/com/improbable/spatialos/schema/intellij/parser/SchemaParser.java:396-419 | `id` completes exactly on `=`, integer, `;`, with events marker, `Keyword`, `=`, `FieldNumber`, `;`; otherwise it deviates at the first mismatch as a component id definition, with the text for each position, the last quoting the parsed id in decimal; no error node of its own |
| Statements.EnumValueShape | src/com/improbable/spatialos/schema/intellij/parser/SchemaParser.java:342-364 | an enum value completes exactly on `=`, integer, `;` after its name, with events marker, `FieldName`, `=`, `FieldNumber`, `;`; otherwise it deviates at the first mismatch as an enum value definition, with the text for each position quoting the name and parsed value; no error node of its own |
| Statements.FieldTailShape | src/com/improbable/spatialos/schema/intellij/parser/SchemaParser.java:317-338 | after the type name, a field completes exactly on name, `=`, integer, `;`, adding `FieldName`, `=`, `FieldNumber`, `;`; every deviation closes as a field definition, with the text for each position quoting the type name, field name and parsed number; no error node of its own |
| Statements.FieldShape | src/com/improbable/spatialos/schema/intellij/parser/SchemaParser.java:307-339 | a malformed type name is reported where the scan fails, with the scan's message; otherwise the field completes exactly on name, `=`, integer, `;` after the type name, with the field tail's texts, and its events are the marker, the type name's events, the `FieldType` close and the tail's leaves; every deviation closes as a field definition; no error node of its own |
| Statements.DataShape | src/com/improbable/spatialos/schema/intellij/parser/SchemaParser.java:421-439 | `data` completes exactly on a type name and `;`, with events marker, `Keyword`, the type name's node, `;`; it deviates as a data definition without a type name ("Expected typename after 'data'.") or `;` (quoting the type name), but as a field definition with the scan's message on a malformed type name; no error node of its own |
| Statements.EventShape | src/com/improbable/spatialos/schema/intellij/parser/SchemaParser.java:441-466 | `event` completes exactly on a type name, a name and `;`, with events marker, `Keyword`, the type name's node, `FieldName`, `;`; it deviates as an event definition with the text for each position, except on a malformed type name, where it closes as a field definition with the scan's message; no error node of its own |
| Statements.CommandShape | src/com/improbable/spatialos/schema/intellij/parser/SchemaParser.java:677-719 | `command` completes exactly on six expected tokens, with events marker, `Keyword`, `TypeName`, `FieldName`, `(`, `TypeName`, `)`, `;`; a deviation at the response or the name closes as a command definition, any later one as a field definition, each with its text quoting what was read; no error node of its own |
| Statements.PackageSpec | src/com/improbable/spatialos/schema/intellij/parser/SchemaParser.java:196-212 | the production moves past its keyword whether it completes or deviates |
| Statements.ImportSpec | src/com/improbable/spatialos/schema/intellij/parser/SchemaParser.java:214-231 | the production moves past its keyword whether it completes or deviates |
| Statements.OptionSpec | src/com/improbable/spatialos/schema/intellij/parser/SchemaParser.java:233-263 | the production moves past its keyword whether it completes or deviates |
| Statements.ComponentIdSpec | src/com/improbable/spatialos/schema/intellij/parser/SchemaParser.java:396-419 | the production moves past its keyword whether it completes or deviates |
| Statements.EnumValueSpec | src/com/improbable/spatialos/schema/intellij/parser/SchemaParser.java:342-364 | the production moves past the value's name whether it completes or deviates |
| Statements.FieldSpec | src/com/improbable/spatialos/schema/intellij/parser/SchemaParser.java:307-339 | a field moves past its first token whether it completes or deviates |
| Statements.FieldTailSpec | src/com/improbable/spatialos/schema/intellij/parser/SchemaParser.java:317-338 | the field's name, `=`, number and `;` are read from where the type name ended, never before it |
| Statements.DataSpec | src/com/improbable/spatialos/schema/intellij/parser/SchemaParser.java:421-439 | the production moves past its keyword whether it completes or deviates |
| Statements.EventSpec | src/com/improbable/spatialos/schema/intellij/parser/SchemaParser.java:441-466 | the production moves past its keyword whether it completes or deviates |
| Statements.EventTailSpec | src/com/improbable/spatialos/schema/intellij/parser/SchemaParser.java:452-465 | the event's field name and `;` are read from where the type name ended, never before it |
| Statements.CommandSpec | src/com/improbable/spatialos/schema/intellij/parser/SchemaParser.java:677-719 | the production moves past its keyword whether it completes or deviates |
| Statements.CommandTailSpec | src/com/improbable/spatialos/schema/intellij/parser/SchemaParser.java:693-718 | the request type, `)` and `;` are read from where the name ended, never before it |
| Blocks.CloseBody | src/com/improbable/spatialos/schema/intellij/parser/SchemaParser.java:736-742 | a definition completes exactly when its body stops at a `}`; otherwise it reports the token it stopped at as invalid inside the definition |
| Blocks.StatementStep | src/com/improbable/spatialos/schema/intellij/parser/SchemaParser.java:125-153 | a statement of a body, finished and recovered in statement context, leaves the cursor past its first token |
| Blocks.DefinitionStep | src/com/improbable/spatialos/schema/intellij/parser/SchemaParser.java:125-153 | a nested definition, finished and recovered in braces context, leaves the cursor past its first token |
| Blocks.ComponentStatementSpec | src/com/improbable/spatialos/schema/intellij/parser/SchemaParser.java:468-502 | every statement of a component body consumes at least one token, so the body loop terminates |
| Blocks.EnumContentsSpec | src/com/improbable/spatialos/schema/intellij/parser/SchemaParser.java:341-366 | the enum body never moves backwards and stops at the end of input or at a token that is not an identifier |
| Blocks.TypeContentsSpec | src/com/improbable/spatialos/schema/intellij/parser/SchemaParser.java:368-394 | the type body never moves backwards and stops at the end of input or at a token that is not an identifier |
| Blocks.TypeStatementSpec | src/com/improbable/spatialos/schema/intellij/parser/SchemaParser.java:368-394 | every statement of a type body consumes at least one token, so the body loop terminates |
| Blocks.ComponentContentsSpec | src/com/improbable/spatialos/schema/intellij/parser/SchemaParser.java:468-502 | the component body never moves backwards and stops at the end of input or at a token that is not an identifier |
| Blocks.EnumDefinitionSpec | src/com/improbable/spatialos/schema/intellij/parser/SchemaParser.java:721-743 | an enum definition moves past its keyword and every deviation closes it as an enum definition |
| Blocks.TypeDefinitionSpec | src/com/improbable/spatialos/schema/intellij/parser/SchemaParser.java:745-767 | a type definition moves past its keyword and every deviation closes it as a type definition |
| Blocks.ComponentDefinitionSpec | src/com/improbable/spatialos/schema/intellij/parser/SchemaParser.java:769-793 | a component definition moves past its keyword and every deviation closes it as a component definition |
| Annotations.LiteralSpec | src/com/improbable/spatialos/schema/intellij/parser/SchemaParser.java:579-591 | a literal fails exactly for an integer and `.` with no integer after them; otherwise it is one token, or three for a decimal |
| Annotations.ArrayValueSpec | src/com/improbable/spatialos/schema/intellij/parser/SchemaParser.java:592-612 | an array value moves past its `[`, and every deviation closes the enclosing field |
| Annotations.ArrayElementsStep | src/com/improbable/spatialos/schema/intellij/parser/SchemaParser.java:597-609 | after an element and a `,` the array loop carries on from the token after the comma |
| Annotations.MapValueSpec | src/com/improbable/spatialos/schema/intellij/parser/SchemaParser.java:614-640 | a map value moves past its `{`, and every deviation closes the enclosing field |
| Annotations.MapEntriesStep | src/com/improbable/spatialos/schema/intellij/parser/SchemaParser.java:619-637 | after an entry and a `,` the map loop carries on from the token after the comma |
| Annotations.ConstructorCall | src/com/improbable/spatialos/schema/intellij/parser/SchemaParser.java:643-658 | an identifier followed by `(` is a constructor call: the name as a ranged node split at its dots, then a positional field array |
| Annotations.FieldArrayItemsStep | src/com/improbable/spatialos/schema/intellij/parser/SchemaParser.java:558-571 | after a value and a `,` the positional loop carries on from the token after the comma |
| Annotations.NamedFieldsStep | src/com/improbable/spatialos/schema/intellij/parser/SchemaParser.java:515-540 | after a named value and a `,` the named-values loop carries on from the token after the comma |
| Annotations.AnnotationBodySpec | src/com/improbable/spatialos/schema/intellij/parser/SchemaParser.java:514-552 | the arguments and the closing `]` never move backwards and deviate only as an annotation |
| Annotations.FieldValueSpec | src/com/improbable/spatialos/schema/intellij/parser/SchemaParser.java:578-672 | a value never moves backwards, and a malformed one deviates past its start, closing the field |
| Annotations.AnnotationFieldSpec | src/com/improbable/spatialos/schema/intellij/parser/SchemaParser.java:576-674 | a malformed field value deviates past its start and closes as an annotation field |
| Annotations.ArrayElementsSpec | src/com/improbable/spatialos/schema/intellij/parser/SchemaParser.java:597-609 | a completed array consumes at least one token; a deviation closes the enclosing field |
| Annotations.MapEntrySpec | src/com/improbable/spatialos/schema/intellij/parser/SchemaParser.java:620-626 | a completed map entry consumes at least one token; every deviation closes the enclosing field |
| Annotations.MapEntriesSpec | src/com/improbable/spatialos/schema/intellij/parser/SchemaParser.java:619-637 | a completed map consumes at least one token; a deviation closes the enclosing field |
| Annotations.ReferenceValueSpec | src/com/improbable/spatialos/schema/intellij/parser/SchemaParser.java:642-669 | an identifier value always consumes its identifier |
| Annotations.FieldArraySpec | src/com/improbable/spatialos/schema/intellij/parser/SchemaParser.java:555-574 | a positional array moves past its `(` and every deviation closes it as an annotation field array |
| Annotations.FieldArrayItemsSpec | src/com/improbable/spatialos/schema/intellij/parser/SchemaParser.java:558-571 | the positional loop never moves backwards and deviates only as an annotation field array |
| Annotations.NamedFieldSpec | src/com/improbable/spatialos/schema/intellij/parser/SchemaParser.java:518-528 | a completed named value consumes at least its name and `=`; every deviation closes the annotation |
| Annotations.NamedFieldsSpec | src/com/improbable/spatialos/schema/intellij/parser/SchemaParser.java:516-540 | the named-values loop deviates only as an annotation |
| Annotations.CloseAnnotation | src/com/improbable/spatialos/schema/intellij/parser/SchemaParser.java:546-552 | an annotation completes exactly on a `]`; otherwise it deviates there, closing as an annotation |
| Annotations.AnnotationArgumentsSpec | src/com/improbable/spatialos/schema/intellij/parser/SchemaParser.java:514-544 | the arguments never move backwards and deviate only as an annotation |
| Annotations.AnnotationSpec | src/com/improbable/spatialos/schema/intellij/parser/SchemaParser.java:504-553 | an annotation moves past its `[` and every deviation closes it as an annotation |
| TopLevel.TopLevelSpec | src/com/improbable/spatialos/schema/intellij/parser/SchemaParser.java:795-813 | every top-level definition, and every recovery from an unexpected token, consumes at least one token |
| TopLevel.SchemaFileSpec | src/com/improbable/spatialos/schema/intellij/parser/SchemaParser.java:815-821 | the last event is the root node's close |
| Coverage.RecoverCovers | src/com/improbable/spatialos/schema/intellij/parser/SchemaParser.java:131-152 | a recovery consumes exactly the tokens between where it starts and where it stops |
| Coverage.FinishCovers | src/com/improbable/spatialos/schema/intellij/parser/SchemaParser.java:125-153 | closing or recovering a production keeps the tokens consumed exactly those up to where the cursor stops |
| Coverage.ScanTypeParametersCovers | src/com/improbable/spatialos/schema/intellij/parser/SchemaParser.java:282-304 | the type parameters consume exactly the tokens up to where they end or fail |
| Coverage.TypeNodeCovers | src/com/improbable/spatialos/schema/intellij/parser/SchemaParser.java:265-305 | the type node, closed or dropped, consumes exactly the tokens of the type name |
| Coverage.PackageCovers | src/com/improbable/spatialos/schema/intellij/parser/SchemaParser.java:196-212 | a package definition consumes exactly the tokens up to where it completes or deviates |
| Coverage.ImportCovers | src/com/improbable/spatialos/schema/intellij/parser/SchemaParser.java:214-231 | an import consumes exactly the tokens up to where it completes or deviates |
| Coverage.OptionCovers | src/com/improbable/spatialos/schema/intellij/parser/SchemaParser.java:233-263 | an option consumes exactly the tokens up to where it completes or deviates |
| Coverage.ComponentIdCovers | src/com/improbable/spatialos/schema/intellij/parser/SchemaParser.java:396-419 | a component id consumes exactly the tokens up to where it completes or deviates |
| Coverage.EnumValueCovers | src/com/improbable/spatialos/schema/intellij/parser/SchemaParser.java:342-364 | an enum value consumes exactly the tokens up to where it completes or deviates |
| Coverage.FieldTailCovers | src/com/improbable/spatialos/schema/intellij/parser/SchemaParser.java:317-338 | a field's tail consumes exactly the tokens up to where it completes or deviates |
| Coverage.FieldCovers | src/com/improbable/spatialos/schema/intellij/parser/SchemaParser.java:307-339 | a field consumes exactly the tokens up to where it completes or deviates |
| Coverage.DataCovers | src/com/improbable/spatialos/schema/intellij/parser/SchemaParser.java:421-439 | a data statement consumes exactly the tokens up to where it completes or deviates |
| Coverage.EventTailCovers | src/com/improbable/spatialos/schema/intellij/parser/SchemaParser.java:452-465 | an event's tail consumes exactly the tokens up to where it completes or deviates |
| Coverage.EventCovers | src/com/improbable/spatialos/schema/intellij/parser/SchemaParser.java:441-466 | an event consumes exactly the tokens up to where it completes or deviates |
| Coverage.CommandTailCovers | src/com/improbable/spatialos/schema/intellij/parser/SchemaParser.java:693-718 | a command's tail consumes exactly the tokens up to where it completes or deviates |
| Coverage.SettleCovers | src/com/improbable/spatialos/schema/intellij/parser/SchemaParser.java:125-153 | a deviation followed by its recovery still consumes exactly the tokens up to where the cursor stops |
| Coverage.ScanTypeNameCovers | src/com/improbable/spatialos/schema/intellij/parser/SchemaParser.java:265-305 | a type name consumes exactly the tokens up to where it ends or fails |
| Coverage.CommandCovers | src/com/improbable/spatialos/schema/intellij/parser/SchemaParser.java:677-719 | a command consumes exactly the tokens up to where it completes or deviates |
| Coverage.EnumContentsCovers | src/com/improbable/spatialos/schema/intellij/parser/SchemaParser.java:341-366 | an enum body consumes exactly the tokens it passes over, recoveries included |
| Coverage.StatementStepCovers | src/com/improbable/spatialos/schema/intellij/parser/SchemaParser.java:125-153 | a statement step of a body consumes exactly the tokens it passes over |
| Coverage.DefinitionStepCovers | src/com/improbable/spatialos/schema/intellij/parser/SchemaParser.java:125-153 | a nested definition step consumes exactly the tokens it passes over |
| Coverage.CloseBodyCovers | src/com/improbable/spatialos/schema/intellij/parser/SchemaParser.java:736-742 | closing a body consumes exactly the tokens up to where it completes or deviates |
| Coverage.EnumDefinitionCovers | src/com/improbable/spatialos/schema/intellij/parser/SchemaParser.java:721-743 | an enum definition consumes exactly the tokens up to where it completes or deviates |
| Coverage.TypeStatementCovers | src/com/improbable/spatialos/schema/intellij/parser/SchemaParser.java:368-394 | a statement of a type body consumes exactly the tokens it passes over |
| Coverage.TypeContentsCovers | src/com/improbable/spatialos/schema/intellij/parser/SchemaParser.java:368-394 | a type body consumes exactly the tokens it passes over |
| Coverage.ComponentStatementCovers | src/com/improbable/spatialos/schema/intellij/parser/SchemaParser.java:468-502 | a statement of a component body consumes exactly the tokens it passes over |
| Coverage.ComponentContentsCovers | src/com/improbable/spatialos/schema/intellij/parser/SchemaParser.java:468-502 | a component body consumes exactly the tokens it passes over |
| Coverage.TypeDefinitionCovers | src/com/improbable/spatialos/schema/intellij/parser/SchemaParser.java:745-767 | a type definition, with its nested definitions, consumes exactly the tokens up to where it completes or deviates |
| Coverage.ComponentDefinitionCovers | src/com/improbable/spatialos/schema/intellij/parser/SchemaParser.java:769-793 | a component definition consumes exactly the tokens up to where it completes or deviates |
| Coverage.FieldValueCovers | src/com/improbable/spatialos/schema/intellij/parser/SchemaParser.java:578-672 | an annotation value, with nested arrays, maps and constructor calls, consumes exactly the tokens it passes over |
| Coverage.LiteralCovers | src/com/improbable/spatialos/schema/intellij/parser/SchemaParser.java:579-591 | a literal consumes exactly the tokens up to where it completes or deviates |
| Coverage.AnnotationFieldCovers | src/com/improbable/spatialos/schema/intellij/parser/SchemaParser.java:576-674 | an annotation field consumes exactly the tokens up to where it completes or deviates |
| Coverage.FinishedFieldCovers | src/com/improbable/spatialos/schema/intellij/parser/SchemaParser.java:576-674 | a finished annotation field, recovery included, consumes exactly the tokens it passes over |
| Coverage.ArrayValueCovers | src/com/improbable/spatialos/schema/intellij/parser/SchemaParser.java:592-612 | an array value consumes exactly the tokens up to where it completes or deviates |
| Coverage.ArrayElementsCovers | src/com/improbable/spatialos/schema/intellij/parser/SchemaParser.java:597-609 | the array loop consumes exactly the tokens up to where it completes or deviates |
| Coverage.ArrayElementsAfterCovers | src/com/improbable/spatialos/schema/intellij/parser/SchemaParser.java:600-608 | the array loop, after an element, consumes exactly the tokens up to where it completes or deviates |
| Coverage.MapValueCovers | src/com/improbable/spatialos/schema/intellij/parser/SchemaParser.java:614-640 | a map value consumes exactly the tokens up to where it completes or deviates |
| Coverage.MapEntryCovers | src/com/improbable/spatialos/schema/intellij/parser/SchemaParser.java:620-626 | a map entry consumes exactly the tokens up to where it completes or deviates |
| Coverage.MapEntriesCovers | src/com/improbable/spatialos/schema/intellij/parser/SchemaParser.java:619-637 | the map loop consumes exactly the tokens up to where it completes or deviates |
| Coverage.MapEntriesAfterCovers | src/com/improbable/spatialos/schema/intellij/parser/SchemaParser.java:628-636 | the map loop, after an entry, consumes exactly the tokens up to where it completes or deviates |
| Coverage.ReferenceValueCovers | src/com/improbable/spatialos/schema/intellij/parser/SchemaParser.java:642-669 | an identifier value consumes exactly the tokens up to where it completes or deviates |
| Coverage.FieldArrayCovers | src/com/improbable/spatialos/schema/intellij/parser/SchemaParser.java:555-574 | a positional field array consumes exactly the tokens up to where it completes or deviates |
| Coverage.FieldArrayItemsCovers | src/com/improbable/spatialos/schema/intellij/parser/SchemaParser.java:558-571 | the positional loop consumes exactly the tokens up to where it completes or deviates |
| Coverage.NamedFieldCovers | src/com/improbable/spatialos/schema/intellij/parser/SchemaParser.java:518-528 | a named value consumes exactly the tokens up to where it completes or deviates |
| Coverage.NamedFieldsCovers | src/com/improbable/spatialos/schema/intellij/parser/SchemaParser.java:515-540 | the named-values loop consumes exactly the tokens up to where it completes or deviates |
| Coverage.NamedFieldsAfterCovers | src/com/improbable/spatialos/schema/intellij/parser/SchemaParser.java:530-539 | the named-values loop, after a value, consumes exactly the tokens up to where it completes or deviates |
| Coverage.AnnotationArgumentsCovers | src/com/improbable/spatialos/schema/intellij/parser/SchemaParser.java:514-544 | the arguments of an annotation consume exactly the tokens up to where they complete or deviate |
| Coverage.AnnotationBodyCovers | src/com/improbable/spatialos/schema/intellij/parser/SchemaParser.java:514-552 | the arguments and `]` consume exactly the tokens up to where they complete or deviate |
| Coverage.AnnotationCovers | src/com/improbable/spatialos/schema/intellij/parser/SchemaParser.java:504-553 | an annotation consumes exactly the tokens up to where it completes or deviates |
| Coverage.TopLevelCovers | src/com/improbable/spatialos/schema/intellij/parser/SchemaParser.java:795-813 | each top-level step consumes exactly the tokens it passes over |
| Coverage.DefinitionsCovers | src/com/improbable/spatialos/schema/intellij/parser/SchemaParser.java:817-819 | the top-level loop consumes every remaining token, in order |
| Coverage.SchemaFileCovers | src/com/improbable/spatialos/schema/intellij/parser/SchemaParser.java:815-821 | the leaves of the tree of any token stream are exactly that stream: nothing lost, nothing repeated, order kept |
| SchemaParser.Instance.constructor | src/com/improbable/spatialos/schema/intellij/parser/SchemaParser.java:121-123 | the parser drives the given builder |
| SchemaParser.Instance.GetTokenText | src/com/improbable/spatialos/schema/intellij/parser/SchemaParser.java:155-157 | the current token's text, or `<EOF>` at end of input |
| SchemaParser.Instance.GetIdentifier | src/com/improbable/spatialos/schema/intellij/parser/SchemaParser.java:159-161 | the current token's text, or the empty string at end of input |
| SchemaParser.Instance.GetInteger | src/com/improbable/spatialos/schema/intellij/parser/SchemaParser.java:163-172 | an `int` in range, non-zero only on a digits token |
| SchemaParser.Instance.GetString | src/com/improbable/spatialos/schema/intellij/parser/SchemaParser.java:174-177 | the current text without its first character and its last two |
| SchemaParser.Instance.IsToken | src/com/improbable/spatialos/schema/intellij/parser/SchemaParser.java:179-181 | true exactly when a current token of that kind is present |
| SchemaParser.Instance.IsIdentifier | src/com/improbable/spatialos/schema/intellij/parser/SchemaParser.java:183-186 | true exactly when the current token is the identifier with that text |
| SchemaParser.Instance.Error | src/com/improbable/spatialos/schema/intellij/parser/SchemaParser.java:125-153 | closes the given marker, then leaves cursor and log as the recovery specification says |
| SchemaParser.Instance.SkipErroneous | src/com/improbable/spatialos/schema/intellij/parser/SchemaParser.java:131-152 | the recovery loop leaves cursor and log exactly as `Recover` says |
| SchemaParser.Instance.ConsumeTokenAs | src/com/improbable/spatialos/schema/intellij/parser/SchemaParser.java:188-194 | consumes the current token, wrapped in a leaf node when a kind is given; at end of input only an empty node |
| SchemaParser.Instance.Expect | src/com/improbable/spatialos/schema/intellij/parser/SchemaParser.java:199-204 | succeeds exactly on the expected kind and consumes it; otherwise closes the marker and recovers |
| SchemaParser.Instance.ExpectLast | src/com/improbable/spatialos/schema/intellij/parser/SchemaParser.java:205-211 | the last guard of a production, then its marker closed on success |
| SchemaParser.Instance.OpenWith | src/com/improbable/spatialos/schema/intellij/parser/SchemaParser.java:197-198 | opens a marker and consumes the keyword as a leaf |
| SchemaParser.Instance.OpenOn | src/com/improbable/spatialos/schema/intellij/parser/SchemaParser.java:505-506 | opens a marker and consumes the opening token bare |
| SchemaParser.Instance.ParsePackageDefinition | src/com/improbable/spatialos/schema/intellij/parser/SchemaParser.java:196-212 | cursor and log as `Finish` of `PackageSpec`; open markers unchanged |
| SchemaParser.Instance.ParseImportDefinition | src/com/improbable/spatialos/schema/intellij/parser/SchemaParser.java:214-231 | cursor and log as `Finish` of `ImportSpec` |
| SchemaParser.Instance.ParseOptionDefinition | src/com/improbable/spatialos/schema/intellij/parser/SchemaParser.java:233-263 | cursor and log as `Finish` of `OptionSpec` |
| SchemaParser.Instance.ParseComponentIdDefinition | src/com/improbable/spatialos/schema/intellij/parser/SchemaParser.java:396-419 | cursor and log as `Finish` of `ComponentIdSpec` |
| SchemaParser.Instance.ParseCommandDefinition | src/com/improbable/spatialos/schema/intellij/parser/SchemaParser.java:677-719 | cursor and log as `Finish` of `CommandSpec` |
| SchemaParser.Instance.ParseCommandTail | src/com/improbable/spatialos/schema/intellij/parser/SchemaParser.java:693-718 | cursor and log as `Finish` of `CommandTailSpec`, with the caller's marker closed |
| SchemaParser.Instance.AbandonTypeName | src/com/improbable/spatialos/schema/intellij/parser/SchemaParser.java:270-274 | drops the type marker, closes the caller's marker as a field definition, and recovers |
| SchemaParser.Instance.ParseTypeName | src/com/improbable/spatialos/schema/intellij/parser/SchemaParser.java:265-305 | returns the rendered name and leaves the type node closed as the scan says; on a malformed name returns nothing, drops the type node and recovers |
| SchemaParser.Instance.ParseTypeParameters | src/com/improbable/spatialos/schema/intellij/parser/SchemaParser.java:282-304 | the parameter loop leaves cursor, log and name as `ScanTypeParameters` says |
| SchemaParser.Instance.ParseFieldDefinition | src/com/improbable/spatialos/schema/intellij/parser/SchemaParser.java:307-339 | cursor and log as `Finish` of `FieldSpec` |
| SchemaParser.Instance.ParseFieldTail | src/com/improbable/spatialos/schema/intellij/parser/SchemaParser.java:313-338 | cursor and log as `Finish` of `FieldTailSpec` |
| SchemaParser.Instance.ParseDataDefinition | src/com/improbable/spatialos/schema/intellij/parser/SchemaParser.java:421-439 | cursor and log as `Finish` of `DataSpec` |
| SchemaParser.Instance.ParseEventDefinition | src/com/improbable/spatialos/schema/intellij/parser/SchemaParser.java:441-466 | cursor and log as `Finish` of `EventSpec` |
| SchemaParser.Instance.ParseEventTail | src/com/improbable/spatialos/schema/intellij/parser/SchemaParser.java:452-465 | cursor and log as `Finish` of `EventTailSpec` |
| SchemaParser.Instance.LookaheadIsOption | src/com/improbable/spatialos/schema/intellij/parser/SchemaParser.java:470-475 | true exactly when no `<` follows the keyword; cursor and log restored by the rollback |
| SchemaParser.Instance.ParseEnumValue | src/com/improbable/spatialos/schema/intellij/parser/SchemaParser.java:342-364 | cursor and log as `Finish` of `EnumValueSpec` |
| SchemaParser.Instance.ParseEnumContents | src/com/improbable/spatialos/schema/intellij/parser/SchemaParser.java:341-366 | cursor and log as `EnumContentsSpec` |
| SchemaParser.Instance.ParseEnumDefinition | src/com/improbable/spatialos/schema/intellij/parser/SchemaParser.java:721-743 | cursor and log as `Finish` of `EnumDefinitionSpec`, recovering in braces context |
| SchemaParser.Instance.ParseEnumBody | src/com/improbable/spatialos/schema/intellij/parser/SchemaParser.java:735-742 | the contents, then `CloseBody` |
| SchemaParser.Instance.ParseTypeContents | src/com/improbable/spatialos/schema/intellij/parser/SchemaParser.java:368-394 | cursor and log as `TypeContentsSpec` |
| SchemaParser.Instance.ParseTypeDefinition | src/com/improbable/spatialos/schema/intellij/parser/SchemaParser.java:745-767 | cursor and log as `Finish` of `TypeDefinitionSpec` |
| SchemaParser.Instance.ParseTypeBody | src/com/improbable/spatialos/schema/intellij/parser/SchemaParser.java:759-766 | the contents, then `CloseBody` |
| SchemaParser.Instance.ParseComponentContents | src/com/improbable/spatialos/schema/intellij/parser/SchemaParser.java:468-502 | cursor and log as `ComponentContentsSpec` |
| SchemaParser.Instance.ParseComponentDefinition | src/com/improbable/spatialos/schema/intellij/parser/SchemaParser.java:769-793 | cursor and log as `Finish` of `ComponentDefinitionSpec` |
| SchemaParser.Instance.ParseComponentBody | src/com/improbable/spatialos/schema/intellij/parser/SchemaParser.java:785-792 | the contents, then `CloseBody` |
| SchemaParser.Instance.ParseAnnotationField | src/com/improbable/spatialos/schema/intellij/parser/SchemaParser.java:576-674 | cursor and log as `Finish` of `AnnotationFieldSpec` |
| SchemaParser.Instance.ParseFieldValue | src/com/improbable/spatialos/schema/intellij/parser/SchemaParser.java:578-672 | the dispatch on the value's first token, as `FieldValueSpec` |
| SchemaParser.Instance.ParseLiteralValue | src/com/improbable/spatialos/schema/intellij/parser/SchemaParser.java:579-591 | as `LiteralSpec` |
| SchemaParser.Instance.ParseArrayValue | src/com/improbable/spatialos/schema/intellij/parser/SchemaParser.java:592-612 | as `ArrayValueSpec` |
| SchemaParser.Instance.ParseArrayElements | src/com/improbable/spatialos/schema/intellij/parser/SchemaParser.java:597-609 | the array loop, as `ArrayElementsSpec` |
| SchemaParser.Instance.ParseMapValue | src/com/improbable/spatialos/schema/intellij/parser/SchemaParser.java:614-640 | as `MapValueSpec` |
| SchemaParser.Instance.ParseMapEntries | src/com/improbable/spatialos/schema/intellij/parser/SchemaParser.java:619-637 | the map loop, as `MapEntriesSpec` |
| SchemaParser.Instance.ParseMapEntry | src/com/improbable/spatialos/schema/intellij/parser/SchemaParser.java:620-626 | one key, `:` and value, as `MapEntrySpec` |
| SchemaParser.Instance.ParseReferenceValue | src/com/improbable/spatialos/schema/intellij/parser/SchemaParser.java:642-669 | constructor call, plain name or enum reference, as `ReferenceValueSpec` |
| SchemaParser.Instance.ParseAnnotationFieldArray | src/com/improbable/spatialos/schema/intellij/parser/SchemaParser.java:555-574 | cursor and log as `Finish` of `FieldArraySpec` |
| SchemaParser.Instance.ParseFieldArrayItems | src/com/improbable/spatialos/schema/intellij/parser/SchemaParser.java:558-571 | the positional loop, as `FieldArrayItemsSpec` |
| SchemaParser.Instance.ParseNamedField | src/com/improbable/spatialos/schema/intellij/parser/SchemaParser.java:518-528 | one `name = value`, as `NamedFieldSpec` |
| SchemaParser.Instance.ParseNamedFields | src/com/improbable/spatialos/schema/intellij/parser/SchemaParser.java:516-540 | the named-values loop, as `NamedFieldsSpec` |
| SchemaParser.Instance.ParseAnnotation | src/com/improbable/spatialos/schema/intellij/parser/SchemaParser.java:504-553 | cursor and log as `Finish` of `AnnotationSpec` |
| SchemaParser.Instance.ParseAnnotationBody | src/com/improbable/spatialos/schema/intellij/parser/SchemaParser.java:514-552 | the arguments and the closing `]`, as `AnnotationBodySpec` |
| SchemaParser.Instance.ParseAnnotationArguments | src/com/improbable/spatialos/schema/intellij/parser/SchemaParser.java:514-544 | as `AnnotationArgumentsSpec` |
| SchemaParser.Instance.ParseTopLevelDefinition | src/com/improbable/spatialos/schema/intellij/parser/SchemaParser.java:795-813 | cursor and log as `TopLevelSpec` |
| SchemaParser.Instance.ParseSchemaFile | src/com/improbable/spatialos/schema/intellij/parser/SchemaParser.java:815-821 | reads to the end of input, one root node around all definitions, whose leaves are exactly the tokens from where it started |

## Left out

- The lexer (`SchemaLexer`) is not part of this model. A document is a sequence of tokens, each a kind and a text.
- IntelliJ's `PsiBuilder` is external. `Psi.Builder` stands in for the calls the parser makes: token kind and text, look-ahead, advance, and markers that are closed as a kind, closed as an error, dropped or rolled back. Whitespace and comment skipping, and the tree the platform builds from the calls, are not modelled. The model records the calls as a log.
- Marker identities are not modelled. Only the number of open markers is tracked, and each marker operation requires the marker to be the innermost one open, as every use in the parser is.
- `parse` (lines 107-111) only creates an `Instance` and calls `parseSchemaFile`. It is not modelled separately.
- The highlight colours of ranged nodes are two tags, not IntelliJ text attributes.
- `OPTION_PATTERN` (line 72) is a regular expression. It is modelled by the predicate `SchemaText.MatchesOptionPattern`, written case by case: digits with an optional `.` and more digits, `true` or `false` in any case, a quoted string whose closing quote may be missing, or `_`.
- SchemaText.ParseInt: a Java `int` also accepts a leading sign. The model accepts digits only, the only text an integer token has. A value beyond the `int` range reads as 0, as the caught `NumberFormatException` does.
- SchemaText.GetString: for a text shorter than three characters (the empty string literal `""`, or a lone `"`) Java's `substring` throws, and the exception escapes `parseImportDefinition` and the whole parse. The model returns the empty string there and the import goes on as if the file name were empty, so the model does not capture that crash.
- SchemaParser.Instance.GetString: the same gap as `SchemaText.GetString`. On a current token shorter than three characters the source throws out of the parse; the method returns the empty string.
- The highlighted ranges of `IndexOf`, `DotSplit` and `EnumReferenceEntries` count Dafny characters. Java's `indexOf`, `toCharArray` and `length` (lines 647-666) count UTF-16 code units. The offsets differ for a name holding a character outside the Basic Multilingual Plane.
- Productions the parser enters on their keyword or first token `require` that a token is present. Every call site dispatches on that token first.
- Helpers that are not Java methods name steps the Java code repeats inline: `Expect`, `ExpectLast`, `OpenWith`, `OpenOn`, `AbandonTypeName`, `SkipErroneous`, `LookaheadIsOption`, `ParseEnumValue`, and the head/tail/body splits of fields, events, commands, definitions and annotations. So do `ParseFieldValue`, `ParseLiteralValue`, `ParseArrayValue`, `ParseMapValue`, `ParseReferenceValue`, `ParseMapEntry` and `ParseNamedField`. `parseAnnotationField`'s `for(;;)` runs once and is left by `break`, so it becomes a chain of `if`s.
- TopLevel.SchemaFileSpec: its own contract only says the root node is closed last. What the tree holds is stated by `Coverage.SchemaFileCovers` and by `ParseSchemaFile`.
