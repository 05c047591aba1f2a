/** The JavaScript string operations the core relies on: `toLowerCase`
    (over ASCII), `trim`, and `a || b` applied to a possibly-absent or empty
    string. */
module Text {
  import opened Wrappers

  /** An ASCII upper-case letter. */
  predicate IsUpper(c: char) {
    'A' <= c <= 'Z'
  }

  function LowerChar(c: char): char {
    if IsUpper(c) then (c as int + 32) as char else c
  }

  /** `s.toLowerCase()`, restricted to the ASCII letters. */
  function ToLower(s: string): (r: string)
    ensures |r| == |s|
    ensures forall i :: 0 <= i < |s| ==> r[i] == LowerChar(s[i])
  {
    if s == [] then [] else [LowerChar(s[0])] + ToLower(s[1..])
  }

  predicate NoUpper(s: string) {
    forall i :: 0 <= i < |s| ==> !IsUpper(s[i])
  }

  /** Lower-casing leaves no upper-case letter and is the identity on a
      string that has none, so it is idempotent. */
  lemma ToLowerProperties(s: string)
    ensures NoUpper(ToLower(s))
    ensures NoUpper(s) ==> ToLower(s) == s
    ensures ToLower(ToLower(s)) == ToLower(s)
  {
  }

  /** The code points ECMAScript's `trim` removes: the WhiteSpace and
      LineTerminator code points of ECMA-262 (14th edition, sections 12.2
      and 12.3), the space separators of Unicode category Zs included. */
  predicate IsWhiteSpace(c: char) {
    || c == '\t' || c == '\n' || c == '\U{000B}' || c == '\U{000C}'
    || c == '\r' || c == ' ' || c == '\U{00A0}' || c == '\U{1680}'
    || ('\U{2000}' <= c <= '\U{200A}')
    || c == '\U{2028}' || c == '\U{2029}' || c == '\U{202F}'
    || c == '\U{205F}' || c == '\U{3000}' || c == '\U{FEFF}'
  }

  predicate AllWhiteSpace(s: string) {
    forall i :: 0 <= i < |s| ==> IsWhiteSpace(s[i])
  }

  /** Neither starts nor ends with white space. */
  predicate Trimmed(s: string) {
    s == [] || (!IsWhiteSpace(s[0]) && !IsWhiteSpace(s[|s| - 1]))
  }

  /** Drops the leading white space: what is left is a suffix, what was
      dropped is all white space, and the rest does not start with any. */
  function TrimStart(s: string): (r: string)
    ensures |r| <= |s| && r == s[|s| - |r|..]
    ensures AllWhiteSpace(s[..|s| - |r|])
    ensures r == [] || !IsWhiteSpace(r[0])
  {
    if s != [] && IsWhiteSpace(s[0]) then TrimStart(s[1..]) else s
  }

  /** Drops the trailing white space: what is left is a prefix, what was
      dropped is all white space, and the rest does not end with any. */
  function TrimEnd(s: string): (r: string)
    ensures |r| <= |s| && r == s[..|r|]
    ensures AllWhiteSpace(s[|r|..])
    ensures r == [] || !IsWhiteSpace(r[|r| - 1])
  {
    if s != [] && IsWhiteSpace(s[|s| - 1]) then TrimEnd(s[..|s| - 1]) else s
  }

  /** `s.trim()`. */
  function Trim(s: string): (r: string)
    ensures |r| <= |s|
    ensures Trimmed(r)
  {
    TrimEnd(TrimStart(s))
  }

  /** Every string is its trimmed core with white space on both sides. */
  lemma TrimSplit(s: string) returns (before: string, after: string)
    ensures AllWhiteSpace(before) && AllWhiteSpace(after)
    ensures s == before + Trim(s) + after
  {
    var t := TrimStart(s);
    before := s[..|s| - |t|];
    SplitAt(s, |s| - |t|);
    var r := TrimEnd(t);
    after := t[|r|..];
    SplitAt(t, |r|);
    Associate(before, r, after);
  }

  /** Trimming only removes characters, so it adds no upper-case letter. */
  lemma TrimKeepsNoUpper(s: string)
    requires NoUpper(s)
    ensures NoUpper(Trim(s))
  {
    var before, after := TrimSplit(s);
    var t := Trim(s);
    forall i | 0 <= i < |t| ensures !IsUpper(t[i]) {
      assert t[i] == s[|before| + i];
    }
  }

  lemma SplitAt(s: string, k: nat)
    requires k <= |s|
    ensures s == s[..k] + s[k..]
  {
  }

  lemma Associate(a: string, b: string, c: string)
    ensures a + (b + c) == a + b + c
  {
  }

  lemma {:induction false} TrimStartSkips(white: string, u: string)
    requires AllWhiteSpace(white)
    requires u == [] || !IsWhiteSpace(u[0])
    ensures TrimStart(white + u) == u
  {
    if white == [] {
      assert white + u == u;
    } else {
      assert (white + u)[1..] == white[1..] + u;
      TrimStartSkips(white[1..], u);
    }
  }

  lemma {:induction false} TrimEndSkips(u: string, white: string)
    requires AllWhiteSpace(white)
    requires u == [] || !IsWhiteSpace(u[|u| - 1])
    ensures TrimEnd(u + white) == u
  {
    if white == [] {
      assert u + white == u;
    } else {
      var w := white[..|white| - 1];
      assert (u + white)[..|u + white| - 1] == u + w;
      TrimEndSkips(u, w);
    }
  }

  /** The converse of TrimSplit: a string that neither starts nor ends with
      white space is what `trim` returns once white space is put around it. */
  lemma TrimUnique(before: string, core: string, after: string)
    requires AllWhiteSpace(before) && AllWhiteSpace(after)
    requires Trimmed(core)
    ensures Trim(before + core + after) == core
  {
    if core == [] {
      assert before + core + after == (before + after) + [];
      assert AllWhiteSpace(before + after);
      TrimStartSkips(before + after, []);
    } else {
      assert before + core + after == before + (core + after);
      TrimStartSkips(before, core + after);
      TrimEndSkips(core, after);
    }
  }

  /** Trimming twice trims nothing more. */
  lemma TrimIdempotent(s: string)
    ensures Trim(Trim(s)) == Trim(s)
  {
    var t := Trim(s);
    assert [] + t + [] == t;
    TrimUnique([], t, []);
  }

  /** JavaScript's `s || fallback` where `s` may be undefined: a present,
      non-empty `s` wins, otherwise the fallback. */
  function OrElse(s: Option<string>, fallback: string): (r: string)
    ensures s.Some? && s.value != "" ==> r == s.value
    ensures s.None? || s.value == "" ==> r == fallback
    ensures fallback != "" ==> r != ""
  {
    match s
    case Some(v) => if v == "" then fallback else v
    case None => fallback
  }
}
