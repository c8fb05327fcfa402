/** Values and string operations shared by the cache and the routes: optional
    and failing results, JavaScript truthiness of optional strings, ASCII
    case-insensitive matching (the `i` flag of a regular expression),
    `String.prototype.replace` with a string pattern, and the UTF-8 length
    that `Buffer.byteLength(s, 'utf8')` reports. */
module Strings {

  datatype Option<T> = None | Some(value: T)

  /** A value, or the error the source throws: its `code` where callers
      test the code (the cache constructor), its message otherwise. */
  datatype Result<T> = Success(value: T) | Failure(error: string)

  /** JavaScript truthiness of a value that is either undefined or a string:
      undefined and the empty string are falsy. */
  predicate Truthy(o: Option<string>)
  {
    o.Some? && o.value != ""
  }

  /** Lower-cases ASCII letters and leaves every other character alone.
      Without the `u` flag, a case-insensitive JavaScript regular expression
      never equates a non-ASCII character with an ASCII one, so comparing
      `LowerAscii(c)` with a lower-case ASCII pattern character is exactly the
      `i` flag. */
  function LowerAscii(c: char): (d: char)
    ensures 'A' <= c <= 'Z' ==> d as int == c as int + 32
    ensures !('A' <= c <= 'Z') ==> d == c
  {
    if 'A' <= c <= 'Z' then (c as int + 32) as char else c
  }

  /** `pat` (written in lower case) occurs in `s` at position `i`, ignoring
      the case of ASCII letters in `s`. */
  predicate MatchesCiAt(s: string, i: int, pat: string)
  {
    0 <= i && i + |pat| <= |s| && forall k :: 0 <= k < |pat| ==> LowerAscii(s[i + k]) == pat[k]
  }

  /** `pat` occurs literally in `s` at position `i`. */
  predicate OccursAt(s: string, pat: string, i: int)
  {
    0 <= i && i + |pat| <= |s| && s[i..i + |pat|] == pat
  }

  /** `i` is the first position at which `pat` occurs in `s`. */
  predicate FirstOccurrence(s: string, pat: string, i: int)
  {
    OccursAt(s, pat, i) && forall q :: 0 <= q < i ==> !OccursAt(s, pat, q)
  }

  /** The first position at or after `from` where `pat` occurs in `s`. */
  function FindFirst(s: string, pat: string, from: nat): (r: Option<nat>)
    requires from <= |s|
    decreases |s| - from
    ensures r.Some? ==> from <= r.value && OccursAt(s, pat, r.value)
    ensures r.Some? ==> forall q :: from <= q < r.value ==> !OccursAt(s, pat, q)
    ensures r.None? ==> forall q :: from <= q ==> !OccursAt(s, pat, q)
  {
    if OccursAt(s, pat, from) then Some(from)
    else if from == |s| then None
    else FindFirst(s, pat, from + 1)
  }

  /** `s.replace(pat, rep)` for a string `pat`: only the first occurrence is
      replaced, and a string without one comes back unchanged. `$` sequences
      in `rep`, which JavaScript would expand, are taken literally. */
  function ReplaceFirst(s: string, pat: string, rep: string): (r: string)
    ensures (forall q :: 0 <= q <= |s| ==> !OccursAt(s, pat, q)) ==> r == s
    ensures forall i :: FirstOccurrence(s, pat, i) ==> r == s[..i] + rep + s[i + |pat|..]
  {
    match FindFirst(s, pat, 0)
    case None => s
    case Some(i) => s[..i] + rep + s[i + |pat|..]
  }

  /** Replacing a string inside itself yields the replacement. */
  lemma ReplaceWhole(s: string, rep: string)
    ensures ReplaceFirst(s, s, rep) == rep
  {
    assert FirstOccurrence(s, s, 0);
    assert s[0 + |s|..] == [];
  }

  /** `s` begins with `p`, so the first occurrence of `p` is at 0. */
  lemma ReplacePrefix(s: string, p: string, rep: string)
    requires |p| <= |s| && s[..|p|] == p
    ensures ReplaceFirst(s, p, rep) == rep + s[|p|..]
  {
    assert FirstOccurrence(s, p, 0);
  }

  /** Number of bytes UTF-8 uses for one Unicode scalar value. */
  function Utf8Width(c: char): nat
  {
    if c as int < 0x80 then 1
    else if c as int < 0x800 then 2
    else if c as int < 0x10000 then 3
    else 4
  }

  /** `Buffer.byteLength(s, 'utf8')`: the length of the UTF-8 encoding. */
  function Utf8Length(s: string): (n: nat)
    ensures |s| <= n <= 4 * |s|
    ensures (forall k :: 0 <= k < |s| ==> s[k] as int < 0x80) ==> n == |s|
  {
    if s == [] then 0 else Utf8Width(s[0]) + Utf8Length(s[1..])
  }
}
