/**
 * Python's `str.capitalize`, restricted to ASCII case mapping: the first
 * character is upper-cased and every other character lower-cased.
 */
module Text {
  function ToUpper(c: char): char {
    if 'a' <= c <= 'z' then (c as int - 32) as char else c
  }

  function ToLower(c: char): char {
    if 'A' <= c <= 'Z' then (c as int + 32) as char else c
  }

  /** The lower-casing `str.capitalize` applies after the first character: every character mapped, length kept. */
  function LowerAll(s: string): (r: string)
    ensures |r| == |s|
    ensures forall i :: 0 <= i < |s| ==> r[i] == ToLower(s[i])
  {
    if s == [] then [] else [ToLower(s[0])] + LowerAll(s[1..])
  }

  /** `s.capitalize()`. */
  function Capitalize(s: string): (r: string)
    ensures |r| == |s|
    ensures s != [] ==> r[0] == ToUpper(s[0])
    ensures forall i :: 0 < i < |s| ==> r[i] == ToLower(s[i])
  {
    if s == [] then [] else [ToUpper(s[0])] + LowerAll(s[1..])
  }

  /** Capitalizing an already capitalized string changes nothing. */
  lemma CapitalizeIdempotent(s: string)
    ensures Capitalize(Capitalize(s)) == Capitalize(s)
  {
  }

  /** Strings that differ only in letter case capitalize alike ("cairo", "CAIRO"). */
  lemma CapitalizeIgnoresCase(s: string, t: string)
    requires LowerAll(s) == LowerAll(t)
    ensures Capitalize(s) == Capitalize(t)
  {
  }
}
