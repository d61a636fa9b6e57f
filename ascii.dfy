/**
 * ASCII case folding, shared by the router's case-insensitive path matching and the
 * directory page's search box.
 */
module Ascii {
  predicate IsUpper(c: char)
  {
    'A' <= c <= 'Z'
  }

  /** ASCII upper-case letters to lower case; every other character unchanged. */
  function Lower(s: string): (r: string)
    ensures |r| == |s|
    ensures forall i :: 0 <= i < |r| ==> !IsUpper(r[i])
    ensures forall i :: 0 <= i < |s| && !IsUpper(s[i]) ==> r[i] == s[i]
    ensures forall i :: 0 <= i < |s| && IsUpper(s[i]) ==> r[i] as int == s[i] as int + 32
  {
    seq(|s|, i requires 0 <= i < |s| => if IsUpper(s[i]) then (s[i] as int + 32) as char else s[i])
  }

  /** Lower-casing twice is lower-casing once. */
  lemma LowerIdempotent(s: string)
    ensures Lower(Lower(s)) == Lower(s)
  {
  }
}
