/** White space as unicode.IsSpace has it, and what the strings package builds on it. */
module Text {

  predicate IsSpace(c: char) {
    || '\t' <= c <= '\r' || c == ' ' || c == '\U{85}' || c == '\U{a0}' || c == '\U{1680}'
    || '\U{2000}' <= c <= '\U{200a}' || c == '\U{2028}' || c == '\U{2029}' || c == '\U{202f}' || c == '\U{205f}' || c == '\U{3000}'
  }

  predicate Blank(s: string) { forall c :: c in s ==> IsSpace(c) }

  function TrimLeft(s: string): (t: string)
    ensures |t| <= |s| && t == s[|s| - |t|..] && (t != [] ==> !IsSpace(t[0]))
  {
    if s != [] && IsSpace(s[0]) then TrimLeft(s[1..]) else s
  }

  function TrimRight(s: string): (t: string)
    ensures |t| <= |s| && t == s[..|t|] && (t != [] ==> !IsSpace(t[|t| - 1]))
  {
    if s != [] && IsSpace(s[|s| - 1]) then TrimRight(s[..|s| - 1]) else s
  }

  /** strings.TrimSpace */
  function TrimSpace(s: string): string { TrimRight(TrimLeft(s)) }

  lemma {:induction false} TrimLeftBlank(s: string)
    ensures TrimLeft(s) == [] <==> Blank(s)
  {
    if s != [] {
      assert s == [s[0]] + s[1..];
      TrimLeftBlank(s[1..]);
    }
  }

  lemma {:induction false} TrimRightBlank(s: string)
    ensures TrimRight(s) == [] <==> Blank(s)
  {
    if s != [] {
      assert s == s[..|s| - 1] + [s[|s| - 1]];
      TrimRightBlank(s[..|s| - 1]);
    }
  }

  /** strings.TrimSpace(s) == "" is the test for a blank string. */
  lemma TrimSpaceBlank(s: string)
    ensures TrimSpace(s) == [] <==> Blank(s)
  {
    TrimLeftBlank(s);
    TrimRightBlank(TrimLeft(s));
    if Blank(s) { assert TrimLeft(s) == []; }
  }

  /** The characters before the first space, which is how strings.Fields finds its first field. */
  function Word(s: string): string {
    if s == [] || IsSpace(s[0]) then [] else [s[0]] + Word(s[1..])
  }

  function LowerChar(c: char): char {
    if 'A' <= c <= 'Z' then ((c as int) + 32) as char else c
  }

  /** Only ASCII letters are lowered: nothing else lowers to a character this code compares with. */
  function ToLower(s: string): (t: string)
    ensures |t| == |s|
  {
    seq(|s|, i requires 0 <= i < |s| => LowerChar(s[i]))
  }

  predicate HasPrefix(s: string, prefix: string) { prefix <= s }
}
