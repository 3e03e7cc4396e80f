/**
 * Text helpers of the parser: the field-number reader (`getInteger`, a
 * model of `Integer.parseInt`), the decimal printer used for `%d` in
 * diagnostics, the import-filename stripper (`getString`), the literal
 * pattern of annotation values (`OPTION_PATTERN`) and the highlight ranges
 * of dotted names.
 */
module SchemaText {
  import opened Tokens

  const Int32Max: int := 0x7fff_ffff

  predicate IsDigit(c: char) {
    '0' <= c <= '9'
  }

  /** A non-empty string of ASCII decimal digits. */
  predicate IsDigits(s: string) {
    |s| > 0 && forall i :: 0 <= i < |s| ==> IsDigit(s[i])
  }

  /** Every character a digit (the empty string included). */
  predicate AllDigits(s: string) {
    forall i :: 0 <= i < |s| ==> IsDigit(s[i])
  }

  /** The value of a digit string, read most significant digit first. */
  function DigitsValue(s: string): nat
    requires AllDigits(s)
  {
    if s == [] then 0
    else DigitsValue(s[..|s| - 1]) * 10 + (s[|s| - 1] as int - '0' as int)
  }

  /**
   * `getInteger`: the value of the current token's text when it is a
   * decimal number that fits a Java `int`, and 0 when the text is absent or
   * does not parse.
   */
  function ParseInt(text: Option<string>): (r: int)
    ensures 0 <= r <= Int32Max
    ensures r != 0 ==> text.Some? && IsDigits(text.value) && r == DigitsValue(text.value)
    ensures text.Some? && IsDigits(text.value) && DigitsValue(text.value) <= Int32Max
            ==> r == DigitsValue(text.value)
  {
    if text.Some? && IsDigits(text.value) && DigitsValue(text.value) <= Int32Max
    then DigitsValue(text.value)
    else 0
  }

  /** The decimal rendering of a natural number (`%d`). */
  function NatToString(n: nat): (s: string)
    ensures IsDigits(s)
    decreases n
  {
    var d := [('0' as int + n % 10) as char];
    if n < 10 then d else NatToString(n / 10) + d
  }

  /** Printing a field number and reading it back gives the number again. */
  lemma {:induction false} NatToStringValue(n: nat)
    ensures DigitsValue(NatToString(n)) == n
    decreases n
  {
    var s := NatToString(n);
    if n >= 10 {
      NatToStringValue(n / 10);
      assert s[..|s| - 1] == NatToString(n / 10);
    }
  }

  lemma ParseIntNatToString(n: nat)
    requires n <= Int32Max
    ensures ParseInt(Some(NatToString(n))) == n
  {
    NatToStringValue(n);
  }

  /**
   * `getString`: the text of a string token without its first character and
   * without its last two (the closing quote and one more character).
   */
  function GetString(text: Option<string>): (r: string)
    ensures text.Some? && |text.value| >= 3 ==>
              text.value == text.value[..1] + r + text.value[|text.value| - 2..]
    ensures text.Some? && |text.value| >= 3 ==> |r| == |text.value| - 3
    ensures text.None? || |text.value| < 3 ==> r == ""
  {
    match text
    case None => ""
    case Some(t) =>
      if |t| >= 3 then
        assert t == t[..1] + t[1..|t| - 2] + t[|t| - 2..];
        t[1..|t| - 2]
      else ""
  }

  /** ASCII case folding, as `(?i)` does without Unicode case. */
  function Lower(c: char): char {
    if 'A' <= c <= 'Z' then (c as int + 32) as char else c
  }

  predicate EqualsIgnoreCase(s: string, word: string) {
    |s| == |word| && forall i :: 0 <= i < |s| ==> Lower(s[i]) == word[i]
  }

  /** The number of leading digits of `s`. */
  function LeadingDigits(s: string): (n: nat)
    ensures n <= |s|
    ensures forall i :: 0 <= i < n ==> IsDigit(s[i])
    ensures n < |s| ==> !IsDigit(s[n])
  {
    if s == [] || !IsDigit(s[0]) then 0 else 1 + LeadingDigits(s[1..])
  }

  /** `\d+\.?\d*` */
  predicate DecimalLiteral(s: string) {
    var n := LeadingDigits(s);
    n >= 1 && (n == |s| || (s[n] == '.' && AllDigits(s[n + 1..])))
  }

  /** `"[^"]*"?` */
  predicate QuotedLiteral(s: string) {
    |s| >= 1 && s[0] == '"' && forall i :: 1 <= i < |s| - 1 ==> s[i] != '"'
  }

  /**
   * `OPTION_PATTERN`, matched against the whole text:
   * `(?i)(?:\d+\.?\d*|true|false|"[^"]*"?|_)`.
   */
  predicate MatchesOptionPattern(s: string) {
    || DecimalLiteral(s)
    || EqualsIgnoreCase(s, "true")
    || EqualsIgnoreCase(s, "false")
    || QuotedLiteral(s)
    || s == "_"
  }

  /** Every integer token text is a literal annotation value. */
  lemma DigitsMatchOptionPattern(s: string)
    requires IsDigits(s)
    ensures MatchesOptionPattern(s)
  {
    assert LeadingDigits(s) == |s| by {
      DigitsLead(s);
    }
  }

  lemma {:induction false} DigitsLead(s: string)
    requires AllDigits(s)
    ensures LeadingDigits(s) == |s|
  {
    if s != [] {
      DigitsLead(s[1..]);
    }
  }

  predicate IsLetter(c: char) {
    ('a' <= c <= 'z') || ('A' <= c <= 'Z')
  }

  /**
   * A name that starts with a letter and contains a '.' is never a literal,
   * so a dotted enum reference or constructor name reaches the identifier
   * alternative of an annotation value.
   */
  lemma DottedNameIsNotLiteral(s: string, k: nat)
    requires |s| > 0 && IsLetter(s[0])
    requires k < |s| && s[k] == '.'
    ensures !MatchesOptionPattern(s)
  {
  }

  /** The index of the first `c` in `s`, or -1 (`String.indexOf`). */
  function IndexOf(s: string, c: char): (r: int)
    ensures -1 <= r < |s|
    ensures r == -1 <==> c !in s
    ensures r >= 0 ==> s[r] == c && c !in s[..r]
  {
    if s == [] then -1
    else if s[0] == c then 0
    else
      var r := IndexOf(s[1..], c);
      assert s == [s[0]] + s[1..];
      if r == -1 then -1
      else
        assert s[..r + 1] == [s[0]] + s[1..][..r];
        r + 1
  }

  /** No '.' in `text[a..b]`. */
  predicate NoDot(text: string, a: int, b: int)
    requires 0 <= a && b <= |text|
  {
    forall j :: a <= j < b ==> text[j] != '.'
  }

  /** The number of '.' characters in `s`. */
  function CountDots(s: string): nat {
    if s == [] then 0 else CountDots(s[..|s| - 1]) + (if s[|s| - 1] == '.' then 1 else 0)
  }

  /**
   * `entries` split `text` at its dots: one Metadata entry per segment, in
   * order, starting at 0, ending at the text length, each entry free of
   * dots, and consecutive entries separated by exactly one '.'.
   */
  predicate SplitsAtDots(text: string, entries: seq<RangedNodeEntry>) {
    && |entries| == CountDots(text) + 1
    && entries[0].from == 0
    && entries[|entries| - 1].to == |text|
    && (forall k :: 0 <= k < |entries| ==>
          && entries[k].attributes == Metadata
          && 0 <= entries[k].from <= entries[k].to <= |text|
          && NoDot(text, entries[k].from, entries[k].to))
    && (forall k :: 0 <= k < |entries| - 1 ==>
          entries[k].to < |text| && text[entries[k].to] == '.' && entries[k + 1].from == entries[k].to + 1)
  }

  /**
   * The loop state of `DottedEntries` after the first `i` characters: the
   * entries closed so far split `text[..off - 1]` at its dots, and no dot
   * lies in `text[off..i]`.
   */
  ghost predicate SplitSoFar(text: string, i: nat, entries: seq<RangedNodeEntry>, off: nat) {
    && off <= i <= |text|
    && |entries| == CountDots(text[..i])
    && NoDot(text, off, i)
    && (entries == [] ==> off == 0)
    && (entries != [] ==>
          && entries[0].from == 0
          && 0 <= entries[|entries| - 1].to < i
          && text[entries[|entries| - 1].to] == '.'
          && off == entries[|entries| - 1].to + 1)
    && (forall k :: 0 <= k < |entries| ==>
          && entries[k].attributes == Metadata
          && 0 <= entries[k].from <= entries[k].to < i
          && NoDot(text, entries[k].from, entries[k].to))
    && (forall k :: 0 <= k < |entries| - 1 ==>
          text[entries[k].to] == '.' && entries[k + 1].from == entries[k].to + 1)
  }

  lemma SplitStep(text: string, i: nat, entries: seq<RangedNodeEntry>, off: nat)
    requires i < |text| && SplitSoFar(text, i, entries, off)
    ensures text[i] == '.' ==> SplitSoFar(text, i + 1, entries + [RangedNodeEntry(off, i, Metadata)], i + 1)
    ensures text[i] != '.' ==> SplitSoFar(text, i + 1, entries, off)
  {
    assert text[..i + 1][..i] == text[..i];
  }

  lemma SplitFinish(text: string, entries: seq<RangedNodeEntry>, off: nat)
    requires SplitSoFar(text, |text|, entries, off)
    ensures SplitsAtDots(text, entries + [RangedNodeEntry(off, |text|, Metadata)])
  {
    assert text[..|text|] == text;
  }

  /**
   * The state of the constructor-call highlighter after the first `i`
   * characters: the entries closed at each dot so far, and the start of the
   * segment still open.
   */
  function SplitState(text: string, i: nat): (seq<RangedNodeEntry>, nat)
    requires i <= |text|
  {
    if i == 0 then ([], 0)
    else
      var (entries, off) := SplitState(text, i - 1);
      if text[i - 1] == '.' then (entries + [RangedNodeEntry(off, i - 1, Metadata)], i)
      else (entries, off)
  }

  /** The highlight ranges of a constructor-call name ("Method Initializing"). */
  function DotSplit(text: string): seq<RangedNodeEntry> {
    var (entries, off) := SplitState(text, |text|);
    entries + [RangedNodeEntry(off, |text|, Metadata)]
  }

  lemma {:induction false} SplitStateSoFar(text: string, i: nat)
    requires i <= |text|
    ensures SplitSoFar(text, i, SplitState(text, i).0, SplitState(text, i).1)
  {
    if i == 0 {
      assert text[..0] == [];
    } else {
      SplitStateSoFar(text, i - 1);
      SplitStep(text, i - 1, SplitState(text, i - 1).0, SplitState(text, i - 1).1);
    }
  }

  /**
   * The constructor-call ranges split the name at its dots: one Metadata
   * entry per segment, ascending, each free of dots, separated by exactly
   * the dot characters and ending at the text length.
   */
  lemma DotSplitSplits(text: string)
    ensures SplitsAtDots(text, DotSplit(text))
  {
    SplitStateSoFar(text, |text|);
    SplitFinish(text, SplitState(text, |text|).0, SplitState(text, |text|).1);
  }

  /**
   * The loop that builds the constructor-call ranges: an entry is closed at
   * every dot, and the last segment runs to the end of the text.
   */
  method DottedEntries(text: string) returns (entries: seq<RangedNodeEntry>)
    ensures entries == DotSplit(text)
    ensures SplitsAtDots(text, entries)
  {
    var off := 0;
    entries := [];
    for i := 0 to |text|
      invariant (entries, off) == SplitState(text, i)
    {
      if text[i] == '.' {
        entries := entries + [RangedNodeEntry(off, i, Metadata)];
        off := i + 1;
      }
    }
    entries := entries + [RangedNodeEntry(off, |text|, Metadata)];
    DotSplitSplits(text);
  }

  /**
   * The highlight ranges of an enum reference: the part before the first
   * '.' as Metadata, the part after it as Number.
   */
  function EnumReferenceEntries(text: string): (r: seq<RangedNodeEntry>)
    requires '.' in text
    ensures |r| == 2
    ensures r[0] == RangedNodeEntry(0, r[0].to, Metadata) && r[1] == RangedNodeEntry(r[0].to + 1, |text|, Number)
    ensures 0 <= r[0].to < |text| && text[r[0].to] == '.' && NoDot(text, 0, r[0].to)
  {
    var index := IndexOf(text, '.');
    assert forall j :: 0 <= j < index ==> text[..index][j] == text[j];
    [RangedNodeEntry(0, index, Metadata), RangedNodeEntry(index + 1, |text|, Number)]
  }
}
