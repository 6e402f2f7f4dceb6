/**
 * Decoding the inference script's standard output on the server: the trimmed
 * output is parsed as JSON; when that fails, the bare words `NaN`, `Infinity`
 * and `-Infinity` that Python's encoder emits are rewritten to `null`, one
 * global whole-word regular-expression replacement after the other, and the
 * result is parsed again. The JSON parser itself is a parameter.
 */
module OutputDecoder {
  import opened Wrappers
  import opened Text

  /** The regular-expression word characters `[A-Za-z0-9_]`. */
  predicate IsWordChar(c: char) {
    ('a' <= c <= 'z') || ('A' <= c <= 'Z') || ('0' <= c <= '9') || c == '_'
  }

  /** `\b` at position k of s: exactly one of the characters around k is a word character. */
  predicate BoundaryAt(s: string, k: nat) {
    var before := 0 < k <= |s| && IsWordChar(s[k - 1]);
    var after := k < |s| && IsWordChar(s[k]);
    before != after
  }

  /** `\bw\b` matches s at position j. */
  predicate WholeWordAt(s: string, w: string, j: nat) {
    OccursAt(s, w, j) && BoundaryAt(s, j) && BoundaryAt(s, j + |w|)
  }

  /**
   * `s.replace(/\bw\b/g, r)` on the part of s from position i: the scan goes left
   * to right, the boundaries are tested on the original text, and after a match
   * it resumes behind the matched word.
   */
  function ReplaceWordFrom(s: string, w: string, r: string, i: nat): string
    requires |w| > 0 && i <= |s|
    decreases |s| - i
  {
    if i == |s| then []
    else if WholeWordAt(s, w, i) then r + ReplaceWordFrom(s, w, r, i + |w|)
    else [s[i]] + ReplaceWordFrom(s, w, r, i + 1)
  }

  function ReplaceWord(s: string, w: string, r: string): string
    requires |w| > 0
  {
    ReplaceWordFrom(s, w, r, 0)
  }

  /** The three rewrites, in the order the server applies them. */
  function Sanitize(raw: string): string {
    var a := ReplaceWord(raw, "NaN", "null");
    var b := ReplaceWord(a, "Infinity", "null");
    ReplaceWord(b, "-Infinity", "null")
  }

  /**
   * The decoded payload, or `None` when the sanitised text does not parse
   * either (the request then fails).
   */
  function Decode<P>(stdout: string, parse: string -> Option<P>): Option<P> {
    var raw := Trim(stdout);
    if parse(raw).Some? then parse(raw) else parse(Sanitize(raw))
  }

  /** A text with no whole-word occurrence of w from position i on is left unchanged. */
  lemma {:induction false} ReplaceWordFromNoMatch(s: string, w: string, r: string, i: nat)
    requires |w| > 0 && i <= |s|
    requires forall j: nat :: i <= j ==> !WholeWordAt(s, w, j)
    ensures ReplaceWordFrom(s, w, r, i) == s[i..]
    decreases |s| - i
  {
    if i < |s| {
      ReplaceWordFromNoMatch(s, w, r, i + 1);
      assert s[i..] == [s[i]] + s[i + 1..];
    }
  }

  /** A whole-word match at the start of the scan is replaced, and the scan resumes behind it. */
  lemma ReplaceWordAtMatch(s: string, w: string, r: string, i: nat)
    requires |w| > 0 && i <= |s| && WholeWordAt(s, w, i)
    ensures ReplaceWordFrom(s, w, r, i) == r + ReplaceWordFrom(s, w, r, i + |w|)
  {
  }

  /** Text with none of the three bare words passes the sanitiser unchanged. */
  lemma SanitizeIdentity(raw: string)
    requires forall j: nat :: !WholeWordAt(raw, "NaN", j)
    requires forall j: nat :: !WholeWordAt(raw, "Infinity", j)
    requires forall j: nat :: !WholeWordAt(raw, "-Infinity", j)
    ensures Sanitize(raw) == raw
  {
    ReplaceWordFromNoMatch(raw, "NaN", "null", 0);
    ReplaceWordFromNoMatch(raw, "Infinity", "null", 0);
    ReplaceWordFromNoMatch(raw, "-Infinity", "null", 0);
  }

  /** A bare `NaN` value becomes `null`. */
  lemma SanitizeNaN()
    ensures Sanitize("NaN") == "null"
  {
    var s := "NaN";
    assert WholeWordAt(s, "NaN", 0);
    assert ReplaceWordFrom(s, "NaN", "null", 3) == [];
    ReplaceWordFromNoMatch("null", "Infinity", "null", 0);
    ReplaceWordFromNoMatch("null", "-Infinity", "null", 0);
  }

  /**
   * `-Infinity` is not rewritten to `null` but to `-null`: the second rewrite
   * already replaces the word `Infinity` behind the minus sign (a `\b` holds
   * between `-` and `I`), and the third rewrite then has nothing to match.
   */
  lemma SanitizeNegativeInfinity()
    ensures Sanitize("-Infinity") == "-null"
  {
    NegativeInfinityHasNoNaN();
    NegativeInfinityLosesInfinity();
    ReplaceWordFromNoMatch("-null", "-Infinity", "null", 0);
  }

  /** The first rewrite leaves "-Infinity" alone: it holds no "NaN". */
  lemma NegativeInfinityHasNoNaN()
    ensures ReplaceWord("-Infinity", "NaN", "null") == "-Infinity"
  {
    var s := "-Infinity";
    forall j: nat ensures !WholeWordAt(s, "NaN", j) {
      if j + 3 <= |s| {
        assert s[j..j + 3][0] == s[j];
      }
    }
    ReplaceWordFromNoMatch(s, "NaN", "null", 0);
  }

  /** The second rewrite matches "Infinity" behind the minus sign. */
  lemma NegativeInfinityLosesInfinity()
    ensures ReplaceWord("-Infinity", "Infinity", "null") == "-null"
  {
    var s := "-Infinity";
    assert !WholeWordAt(s, "Infinity", 0) by { assert s[0..8][0] == '-'; }
    assert WholeWordAt(s, "Infinity", 1);
    ReplaceWordAtMatch(s, "Infinity", "null", 1);
    assert ReplaceWordFrom(s, "Infinity", "null", 9) == [];
  }

  /** Output that parses as it is reaches the caller unchanged: the sanitiser is not consulted. */
  lemma DecodeParsesRawFirst<P>(stdout: string, parse: string -> Option<P>)
    requires parse(Trim(stdout)).Some?
    ensures Decode(stdout, parse) == parse(Trim(stdout))
  {
  }

  /**
   * Output that does not parse and holds none of the three bare words is not
   * rescued by the sanitiser: decoding fails.
   */
  lemma DecodeFailsWithoutBareWords<P>(stdout: string, parse: string -> Option<P>)
    requires parse(Trim(stdout)).None?
    requires forall j: nat :: !WholeWordAt(Trim(stdout), "NaN", j)
    requires forall j: nat :: !WholeWordAt(Trim(stdout), "Infinity", j)
    requires forall j: nat :: !WholeWordAt(Trim(stdout), "-Infinity", j)
    ensures Decode(stdout, parse).None?
  {
    SanitizeIdentity(Trim(stdout));
  }
}
