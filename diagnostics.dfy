/**
 * The diagnostics the parser attaches to error nodes, one per format
 * string of the parser, as functions of the text each one quotes. Integers
 * are rendered in decimal, as `%d` renders the non-negative values the
 * parser passes.
 */
module Diagnostics {
  import opened SchemaText

  // package and import
  const PackageNameMissing: string := "Expected a package name after 'package'."
  const PackageSemicolonMissing: string := "Expected ';' after package definition."
  const ImportFilenameMissing: string := "Expected a quoted filename after 'import'."
  function ImportSemicolonMissing(filename: string): string {
    "Expected ';' after 'import \"" + filename + "\"'."
  }

  // option
  const OptionNameMissing: string := "Expected identifier after 'option'."
  function OptionEqualsMissing(name: string): string {
    "Expected '=' after 'option " + name + "'."
  }
  function OptionValueMissing(name: string): string {
    "Expected option value after 'option " + name + " = '."
  }
  function OptionSemicolonMissing(name: string, value: string): string {
    "Expected ';' after 'option " + name + " = " + value + "'."
  }

  // type names
  function TypenameMissing(prefix: string): string {
    "Expected typename after '" + prefix + "'."
  }
  const TypenameAfterCommaMissing: string := "Expected typename after ','."
  function InvalidInsideAngles(text: string): string {
    "Invalid '" + text + "' inside <>."
  }

  // fields
  function FieldNameMissing(typeName: string): string {
    "Expected field name after '" + typeName + "'."
  }
  function FieldEqualsMissing(typeName: string, fieldName: string): string {
    "Expected '=' after '" + typeName + " " + fieldName + "'."
  }
  function FieldNumberMissing(typeName: string, fieldName: string): string {
    "Expected field number after '" + typeName + " " + fieldName + " = '."
  }
  function FieldSemicolonMissing(typeName: string, fieldName: string, number: nat): string {
    "Expected ';' after '" + typeName + " " + fieldName + " = " + NatToString(number) + "'."
  }

  // enum values
  function EnumValueEqualsMissing(name: string): string {
    "Expected '=' after '" + name + "'."
  }
  function EnumValueMissing(name: string): string {
    "Expected integer enum value after '" + name + " = '."
  }
  function EnumValueSemicolonMissing(name: string, value: nat): string {
    "Expected ';' after '" + name + " = " + NatToString(value) + "'."
  }

  // component ids
  const IdEqualsMissing: string := "Expected '=' after 'id'."
  const IdValueMissing: string := "Expected integer ID value after 'id = '."
  function IdSemicolonMissing(value: nat): string {
    "Expected ';' after 'id = " + NatToString(value) + "'."
  }

  // data and events
  const DataTypenameMissing: string := "Expected typename after 'data'."
  function DataSemicolonMissing(typeName: string): string {
    "Expected ';' after 'data " + typeName + "'."
  }
  const EventTypenameMissing: string := "Expected typename after 'event'."
  function EventFieldNameMissing(typeName: string): string {
    "Expected field name after 'event " + typeName + "'."
  }
  function EventSemicolonMissing(typeName: string, fieldName: string): string {
    "Expected ';' after 'event " + typeName + " " + fieldName + "'."
  }

  // commands
  const CommandResponseMissing: string := "Expected command response after 'command'."
  function CommandNameMissing(response: string): string {
    "Expected command name after 'command " + response + "'."
  }
  function CommandLParenMissing(response: string, name: string): string {
    "Expected '(' after 'command " + response + " " + name + "'."
  }
  function CommandRequestMissing(response: string, name: string): string {
    "Expected command request after 'command " + response + " " + name + "('."
  }
  function CommandRParenMissing(response: string, name: string, request: string): string {
    "Expected ')' after 'command " + response + " " + name + "(" + request + "'."
  }
  function CommandSemicolonMissing(response: string, name: string, request: string): string {
    "Expected ';' after 'command " + response + " " + name + "(" + request + ")'."
  }

  // enum, type and component definitions
  function DefinitionNameMissing(keyword: string): string {
    "Expected identifier after '" + keyword + "'."
  }
  function DefinitionBraceMissing(keyword: string, name: string): string {
    "Expected '{' after '" + keyword + " " + name + "'."
  }
  function InvalidInsideDefinition(text: string, keyword: string, name: string): string {
    "Invalid '" + text + "' inside " + keyword + " " + name + "."
  }

  // annotations
  const AnnotationTypeMissing: string := "Expected type after '['."
  const AnnotationFieldNameMissing: string := "Expected field identifier"
  const AnnotationEqualsMissing: string := "Expected '='"
  const AnnotationCommaMissing: string := "Expected ',' or end of annotation"
  const AnnotationEndMissing: string := "Expected end of annotation ']'"
  const ArrayCommaMissing: string := "Expected ',' or end of array"
  const DecimalDigitsMissing: string := "Cannot have a decimal with no decimal point"
  const MapColonMissing: string := "Expected ':' in map"
  const MapCommaMissing: string := "Expected ',' or end of map"

  // top level
  const TopLevelMessage: string :=
    "Expected 'package', 'import', 'enum', 'type' or 'component' definition at top-level."
}
