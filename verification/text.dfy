/**
 * The string normalisation the roster checks rely on: JavaScript's
 * `String.prototype.trim` and `toLowerCase`, the latter restricted to ASCII
 * letters.
 *
 * The functions are plain definitions; what they guarantee is stated by the
 * lemmas beside them, so that a caller only pays for the facts it asks for.
 */
module Text {

  /**
   * The characters `trim` removes: the ECMAScript WhiteSpace and
   * LineTerminator code points (tab, line feed, vertical tab, form feed,
   * carriage return, space, no-break space, the Unicode space separators,
   * the line and paragraph separators and the byte-order mark).
   */
  predicate IsSpace(c: char) {
    ('\t' <= c <= '\r') || c == ' ' || c == '\U{00A0}' || c == '\U{1680}' ||
    ('\U{2000}' <= c <= '\U{200A}') || c == '\U{2028}' || c == '\U{2029}' ||
    c == '\U{202F}' || c == '\U{205F}' || c == '\U{3000}' || c == '\U{FEFF}'
  }

  predicate AllSpace(s: string) {
    forall i :: 0 <= i < |s| ==> IsSpace(s[i])
  }

  /** `s` without its leading white space. */
  function TrimStart(s: string): string {
    if s != [] && IsSpace(s[0]) then TrimStart(s[1..]) else s
  }

  /** `s` without its trailing white space. */
  function TrimEnd(s: string): string {
    if s != [] && IsSpace(s[|s| - 1]) then TrimEnd(s[..|s| - 1]) else s
  }

  /** `trim`. */
  function Trim(s: string): string {
    TrimEnd(TrimStart(s))
  }

  /** Trimming the front drops a run of white space and stops at the first other character. */
  lemma {:induction false} TrimStartSpec(s: string)
    ensures var r := TrimStart(s);
      |r| <= |s| && r == s[|s| - |r|..] && AllSpace(s[..|s| - |r|]) && (r == [] || !IsSpace(r[0]))
  {
    if s != [] && IsSpace(s[0]) {
      TrimStartSpec(s[1..]);
      var r := TrimStart(s);
      assert s[..|s| - |r|] == [s[0]] + s[1..][..|s| - 1 - |r|];
    }
  }

  /** Trimming the back drops a run of white space and stops at the last other character. */
  lemma {:induction false} TrimEndSpec(s: string)
    ensures var r := TrimEnd(s);
      |r| <= |s| && r == s[..|r|] && AllSpace(s[|r|..]) && (r == [] || !IsSpace(r[|r| - 1]))
  {
    if s != [] && IsSpace(s[|s| - 1]) {
      var t := s[..|s| - 1];
      TrimEndSpec(t);
      var r := TrimEnd(s);
      assert s[|r|..] == t[|r|..] + [s[|s| - 1]];
    }
  }

  /**
   * `trim` cuts out of `s` a slice that neither starts nor ends with white
   * space, with only white space before and after it.
   */
  lemma TrimSpec(s: string)
    ensures var r := Trim(s);
      |r| <= |s| && (r == [] || (!IsSpace(r[0]) && !IsSpace(r[|r| - 1]))) &&
      exists i :: 0 <= i <= |s| - |r| && r == s[i..i + |r|] && AllSpace(s[..i]) && AllSpace(s[i + |r|..])
  {
    var front := TrimStart(s);
    TrimStartSpec(s);
    TrimEndSpec(front);
    var r := Trim(s);
    var i := |s| - |front|;
    assert r == s[i..i + |r|] by { assert front == s[i..]; }
    assert s[i + |r|..] == front[|r|..];
    if r != [] {
      assert r[0] == front[0];
    }
  }

  /** Trimming leaves nothing exactly when the string is all white space. */
  lemma TrimEmpty(s: string)
    ensures Trim(s) == [] <==> AllSpace(s)
  {
    var front := TrimStart(s);
    TrimStartSpec(s);
    TrimEndSpec(front);
    var i := |s| - |front|;
    if Trim(s) == [] {
      assert front == [];
      assert s[..i] == s;
    }
  }

  /**
   * The name is missing or only white space (`!x || !x.trim()`); by
   * `TrimEmpty`, exactly the strings that trim to nothing.
   */
  predicate Blank(s: string) {
    AllSpace(s)
  }

  function LowerChar(c: char): char {
    if 'A' <= c <= 'Z' then (c as int + 32) as char else c
  }

  /** `toLowerCase` on ASCII letters. */
  function Lower(s: string): string {
    if s == [] then [] else [LowerChar(s[0])] + Lower(s[1..])
  }

  /** Lower-casing maps every character on its own and keeps the length. */
  lemma {:induction false} LowerSpec(s: string)
    ensures |Lower(s)| == |s|
    ensures forall i :: 0 <= i < |s| ==> Lower(s)[i] == LowerChar(s[i])
  {
    if s != [] {
      LowerSpec(s[1..]);
    }
  }

  /** The form of a name the duplicate checks compare: trimmed, then lower-cased. */
  function Normalize(s: string): (r: string)
    ensures r == "" <==> Blank(s)
  {
    TrimEmpty(s);
    LowerSpec(Trim(s));
    Lower(Trim(s))
  }
}
