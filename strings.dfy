/** String operations of Python's `str` that the chat application relies on. */
module Strings {

  /** Python's `s.lstrip(chars)`: removes the longest leading run of characters
      that occur in `chars`. `chars` is a set of characters, not a prefix. */
  function LStrip(s: string, chars: string): (r: string)
    ensures |r| <= |s| && r == s[|s| - |r|..]
    ensures r == [] || r[0] !in chars
    ensures forall i :: 0 <= i < |s| - |r| ==> s[i] in chars
    decreases |s|
  {
    if s != [] && s[0] in chars then LStrip(s[1..], chars) else s
  }

  /** Stripping twice strips nothing more. */
  lemma {:induction false} LStripIdempotent(s: string, chars: string)
    ensures LStrip(LStrip(s, chars), chars) == LStrip(s, chars)
  {
    var r := LStrip(s, chars);
    assert r == [] || r[0] !in chars;
  }

  /** The contract of LStrip determines its result: any suffix of `s` that
      does not start with a character of `chars`, and whose removed prefix is
      made of such characters only, is LStrip(s, chars). */
  lemma LStripUnique(s: string, chars: string, t: string)
    requires |t| <= |s| && t == s[|s| - |t|..]
    requires t == [] || t[0] !in chars
    requires forall i :: 0 <= i < |s| - |t| ==> s[i] in chars
    ensures t == LStrip(s, chars)
  {
  }

  /** Python's `s[:-1]`: the string without its last character; the empty
      string stays empty. */
  function DropLast(s: string): (r: string)
    ensures s == [] ==> r == []
    ensures s != [] ==> r + [s[|s| - 1]] == s
  {
    if s == [] then s else s[..|s| - 1]
  }
}
