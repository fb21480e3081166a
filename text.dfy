/** String helpers the components rely on: `trim`, the truthiness of a trimmed
    string, a case-insensitive prefix test and substring search. */
module Text {

  /** The whitespace this model's `Trim` strips: space, tab, line feed, vertical
      tab, form feed, carriage return and no-break space. */
  predicate IsSpace(c: char) {
    c == ' ' || c == '\t' || c == '\n' || c == '\r'
    || c == '\U{000B}' || c == '\U{000C}' || c == '\U{00A0}'
  }

  /** A string that is empty after trimming, i.e. falsy in `if (s.trim())`. */
  predicate IsBlank(s: string) {
    forall i :: 0 <= i < |s| ==> IsSpace(s[i])
  }

  /** Neither end of the string is whitespace. */
  predicate IsTrimmed(s: string) {
    s == [] || (!IsSpace(s[0]) && !IsSpace(s[|s| - 1]))
  }

  /** Length of the longest all-whitespace prefix. */
  function LeadingSpaces(s: string): (n: nat)
    ensures n <= |s|
    ensures forall i :: 0 <= i < n ==> IsSpace(s[i])
    ensures n < |s| ==> !IsSpace(s[n])
  {
    if s == [] || !IsSpace(s[0]) then 0 else 1 + LeadingSpaces(s[1..])
  }

  /** Length of the longest all-whitespace suffix. */
  function TrailingSpaces(s: string): (n: nat)
    ensures n <= |s|
    ensures forall i :: |s| - n <= i < |s| ==> IsSpace(s[i])
    ensures n < |s| ==> !IsSpace(s[|s| - 1 - n])
  {
    if s == [] || !IsSpace(s[|s| - 1]) then 0 else 1 + TrailingSpaces(s[..|s| - 1])
  }

  /** `String.prototype.trim`: drop leading and trailing whitespace. */
  function Trim(s: string): (r: string)
    ensures IsTrimmed(r)
    ensures |r| <= |s|
    ensures r == [] <==> IsBlank(s)
    ensures IsTrimmed(s) ==> r == s
  {
    var a := LeadingSpaces(s);
    if a == |s| then
      []
    else
      var b := |s| - TrailingSpaces(s);
      assert !IsSpace(s[a]);
      assert a < b;
      var r := s[a..b];
      assert r[0] == s[a] && r[|r| - 1] == s[b - 1];
      r
  }

  /** What `Trim` keeps is a stretch of the input, and what it cuts off on
      either side is whitespace. */
  lemma TrimCutsBlankEnds(s: string)
    ensures var r := Trim(s);
      exists a :: 0 <= a && a + |r| <= |s| && r == s[a..a + |r|] && IsBlank(s[..a]) && IsBlank(s[a + |r|..])
  {
    var a := LeadingSpaces(s);
    BlankSlice(s, 0, a);
    if a == |s| {
      assert s[a..] == [];
    } else {
      var b := |s| - TrailingSpaces(s);
      BlankSlice(s, b, |s|);
      assert Trim(s) == s[a..b];
    }
  }

  /** A stretch of whitespace is blank. */
  lemma BlankSlice(s: string, i: int, j: int)
    requires 0 <= i <= j <= |s|
    requires forall k :: i <= k < j ==> IsSpace(s[k])
    ensures IsBlank(s[i..j])
  {
    assert forall k :: 0 <= k < j - i ==> s[i..j][k] == s[i + k];
  }

  /** Trimming twice is trimming once. */
  lemma TrimIdempotent(s: string)
    ensures Trim(Trim(s)) == Trim(s)
  {
  }

  /** ASCII upper-case letters mapped to lower case; everything else unchanged. */
  function LowerAscii(c: char): (r: char)
    ensures 'A' <= c <= 'Z' ==> 'a' <= r <= 'z'
    ensures !('A' <= c <= 'Z') ==> r == c
  {
    if 'A' <= c <= 'Z' then (c as int + 32) as char else c
  }

  /** `s` begins with `prefix`, comparing ASCII letters without regard to case. */
  predicate StartsWithIgnoringCase(s: string, prefix: string) {
    |prefix| <= |s| && forall i :: 0 <= i < |prefix| ==> LowerAscii(s[i]) == LowerAscii(prefix[i])
  }

  /** `part` occurs in `s` starting at offset `k`. */
  predicate OccursAt(s: string, part: string, k: int) {
    0 <= k <= |s| - |part| && s[k..k + |part|] == part
  }

  /** A string built around `part` contains it right after the prefix. */
  lemma OccursAfterPrefix(a: string, part: string, b: string)
    ensures OccursAt(a + part + b, part, |a|)
  {
    var s := a + part + b;
    assert forall i :: 0 <= i < |part| ==> s[|a| + i] == part[i];
    assert s[|a|..|a| + |part|] == part;
  }

  /** `s.includes(part)`: `part` occurs in `s` at some offset. */
  predicate Contains(s: string, part: string) {
    exists k | 0 <= k <= |s| - |part| :: OccursAt(s, part, k)
  }
}
