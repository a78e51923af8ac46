/** The string patterns of the JSON schemas; a pattern's `$` also matches before one final newline. */
module SchemaText {

  /** `\s` on code points. */
  predicate Space(c: char)
  {
    var n := c as int;
    || 9 <= n <= 13 || 28 <= n <= 32 || n == 0x85 || n == 0xa0 || n == 0x1680 || 0x2000 <= n <= 0x200a
    || n == 0x2028 || n == 0x2029 || n == 0x202f || n == 0x205f || n == 0x3000
  }

  predicate Lower(c: char) { 'a' <= c <= 'z' }

  predicate Digit(c: char) { '0' <= c <= '9' }

  predicate Hex(c: char) { Digit(c) || 'a' <= c <= 'f' }

  /** `[A-Za-z_]`. */
  predicate Letter(c: char) { Lower(c) || 'A' <= c <= 'Z' || c == '_' }

  /** What `$` lets a pattern end at. */
  function Chomped(s: string): string
  {
    if s != [] && s[|s| - 1] == '\n' then s[..|s| - 1] else s
  }

  /** `[^\s]+`. */
  predicate Solid(s: string)
  {
    s != [] && forall c :: c in s ==> !Space(c)
  }

  const CODE := "code:"
  const TRANSACTION := "tx:"
  const RESOURCE := "db:public."
  const EXECUTION := "execution.opentelemetry."
  const INTERACTION := "pool_interaction.opentelemetry."
  const SESSION := "probe-session."
  const EVIDENCE := "evidence.probe."

  /** This prefix, and after it no white space. */
  predicate Tagged(tag: string, s: string)
  {
    var t := Chomped(s);
    tag <= t && Solid(t[|tag|..])
  }

  /** A data resource of the public schema: an SQL identifier. */
  predicate ResourceText(s: string)
  {
    var t := Chomped(s);
    && RESOURCE <= t && |RESOURCE| < |t| && Letter(t[|RESOURCE|])
    && forall c :: c in t[|RESOURCE|..] ==> Letter(c) || Digit(c)
  }

  /** This prefix, and after it sixteen hexadecimal digits. */
  predicate Numbered(prefix: string, t: string)
  {
    prefix <= t && |t| == |prefix| + 16 && forall c :: c in t[|prefix|..] ==> Hex(c)
  }

  predicate ExecutionText(s: string) { Numbered(EXECUTION, Chomped(s)) }

  predicate InteractionText(s: string) { Numbered(INTERACTION, Chomped(s)) }

  predicate EvidenceText(s: string) { Numbered(EVIDENCE, s) }

  /** A session id; this pattern has to match the whole id. */
  predicate SessionText(s: string) { Numbered(SESSION, s) }

  /** A dotted concept id: lower-case words, the first one starting with a letter. */
  predicate ConceptText(s: string)
  {
    var t := Chomped(s);
    && t != [] && Lower(t[0]) && t[|t| - 1] != '.' && '.' in t
    && (forall c :: c in t ==> Lower(c) || Digit(c) || c == '_' || c == '.')
    && forall i :: 0 < i < |t| && t[i] == '.' ==> t[i - 1] != '.'
  }

  /** The id with this prefix that repeats one digit. */
  function Id(prefix: string, digit: char): (r: string)
    requires Hex(digit)
    ensures Numbered(prefix, r) && Chomped(r) == r
    ensures |r| == |prefix| + 16 && r[|prefix|] == digit
  {
    prefix + seq(16, _ => digit)
  }

  lemma IdsDiffer(prefix: string, a: char, b: char)
    requires Hex(a) && Hex(b) && a != b
    ensures Id(prefix, a) != Id(prefix, b)
  {
    assert Id(prefix, a)[|prefix|] != Id(prefix, b)[|prefix|];
  }

  /** A concept id other than the given one. */
  function OtherConcept(s: string): (r: string)
    requires ConceptText(s)
    ensures ConceptText(r) && r != s
  {
    var t := Chomped(s);
    var r := t + "_";
    assert Chomped(r) == r && r[|t|] == '_';
    assert forall i :: 0 <= i < |t| ==> r[i] == t[i];
    assert forall c :: c in t ==> c in r;
    assert r != s by { assert |s| == |r| ==> s[|t|] == '\n'; }
    r
  }
}
