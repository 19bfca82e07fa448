/** The display helper `capitalize` of src/stores/game.js. */
module Text {

  predicate IsLowerAscii(c: char) { 'a' <= c <= 'z' }

  predicate IsUpperAscii(c: char) { 'A' <= c <= 'Z' }

  /** Upper-case mapping of a single character, for the ASCII letters. */
  function ToUpper(c: char): (u: char)
    ensures !IsLowerAscii(u)
    ensures IsLowerAscii(c) ==> IsUpperAscii(u) && u as int == c as int - 32
    ensures !IsLowerAscii(c) ==> u == c
  {
    if IsLowerAscii(c) then (c as int - 32) as char else c
  }

  /**
   * `capitalize(s)`: the empty string is returned as it is (it is falsy);
   * otherwise the first character is upper-cased and the rest kept.
   */
  function Capitalize(s: string): (r: string)
    ensures |r| == |s|
    ensures s == "" ==> r == ""
    ensures s != "" ==> r[0] == ToUpper(s[0]) && !IsLowerAscii(r[0])
    ensures forall i :: 1 <= i < |s| ==> r[i] == s[i]
  {
    if s == "" then "" else [ToUpper(s[0])] + s[1..]
  }

  /** Capitalizing twice is capitalizing once. */
  lemma CapitalizeIdempotent(s: string)
    ensures Capitalize(Capitalize(s)) == Capitalize(s)
  {
  }

  /** Two names that capitalize alike differ at most in the case of their first letter. */
  lemma CapitalizeKeepsTail(s: string, t: string)
    requires Capitalize(s) == Capitalize(t)
    ensures |s| == |t|
    ensures s != "" ==> s[1..] == t[1..]
  {
    if s != "" {
      assert s[1..] == Capitalize(s)[1..];
      assert t[1..] == Capitalize(t)[1..];
    }
  }
}
