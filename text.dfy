/**
 * The string operations the quiz relies on, written over `seq<char>`:
 * `toLowerCase` (restricted to the ASCII letters), `includes`, and the
 * `length` of a JavaScript string, which counts UTF-16 code units.
 */
module Text {

  predicate IsUpper(c: char)
  {
    'A' <= c <= 'Z'
  }

  /** A string in which no ASCII capital letter occurs. */
  ghost predicate AllLower(s: string)
  {
    forall i :: 0 <= i < |s| ==> !IsUpper(s[i])
  }

  /** Lower-cases one character; only ASCII capitals are affected. */
  function LowerChar(c: char): (d: char)
    ensures !IsUpper(d)
    ensures !IsUpper(c) ==> d == c
    ensures IsUpper(c) ==> 'a' <= d <= 'z' && d as int - 'a' as int == c as int - 'A' as int
  {
    if IsUpper(c) then (c as int + 32) as char else c
  }

  /** `s.toLowerCase()` for ASCII letters: same length, each character lowered in place. */
  function Lower(s: string): (r: string)
    ensures |r| == |s|
    ensures forall i :: 0 <= i < |s| ==> r[i] == LowerChar(s[i])
    ensures AllLower(r)
    ensures AllLower(s) ==> r == s
  {
    seq(|s|, i requires 0 <= i < |s| => LowerChar(s[i]))
  }

  /** Lower-casing twice is lower-casing once. */
  lemma LowerIdempotent(s: string)
    ensures Lower(Lower(s)) == Lower(s)
  {
  }

  /**
   * A scan that decides `AllLower` from position `i` on; unlike the
   * quantified predicate it unfolds on string literals.
   */
  function LowerFrom(s: string, i: nat): (b: bool)
    decreases |s| - i
    ensures b <==> forall j :: i <= j < |s| ==> !IsUpper(s[j])
  {
    if i >= |s| then true else !IsUpper(s[i]) && LowerFrom(s, i + 1)
  }

  /** `sub` occurs in `s` starting at index `i`. */
  predicate OccursAt(s: string, sub: string, i: int)
  {
    0 <= i && i + |sub| <= |s| && forall k :: 0 <= k < |sub| ==> s[i + k] == sub[k]
  }

  /** `s.includes(sub)`: `sub` occurs somewhere in `s`. */
  predicate Includes(s: string, sub: string)
  {
    exists i | 0 <= i <= |s| - |sub| :: OccursAt(s, sub, i)
  }

  /** Compares `sub[k..]` with `s`, character by character, from index `i + k` of `s`. */
  function MatchesAt(s: string, sub: string, i: nat, k: nat): bool
    decreases |sub| - k
  {
    if k >= |sub| then true
    else i + k < |s| && s[i + k] == sub[k] && MatchesAt(s, sub, i, k + 1)
  }

  /**
   * Looks for `sub` in `s` at every index from `i` on. On string literals
   * the scan evaluates, which decides `Includes` for concrete strings.
   */
  function IncludesFrom(s: string, sub: string, i: nat): bool
    decreases |s| - i
  {
    if i + |sub| > |s| then false
    else MatchesAt(s, sub, i, 0) || IncludesFrom(s, sub, i + 1)
  }

  /** The character comparison from `k` on agrees with the characters of `sub` from `k` on. */
  lemma {:induction false} MatchesAtChars(s: string, sub: string, i: nat, k: nat)
    requires k <= |sub| && i + |sub| <= |s|
    decreases |sub| - k
    ensures MatchesAt(s, sub, i, k) <==> forall j :: k <= j < |sub| ==> s[i + j] == sub[j]
  {
    if k < |sub| {
      MatchesAtChars(s, sub, i, k + 1);
    }
  }

  /** The scan from `i` finds `sub` exactly when it occurs at some index `j >= i`. */
  lemma {:induction false} IncludesFromOccurs(s: string, sub: string, i: nat)
    decreases |s| - i
    ensures IncludesFrom(s, sub, i) <==> exists j :: i <= j && OccursAt(s, sub, j)
  {
    if i + |sub| <= |s| {
      MatchesAtChars(s, sub, i, 0);
      assert MatchesAt(s, sub, i, 0) <==> OccursAt(s, sub, i);
      IncludesFromOccurs(s, sub, i + 1);
      assert forall j :: i <= j && OccursAt(s, sub, j) ==> j == i || i + 1 <= j;
    }
  }

  /** The scan from index 0 decides `Includes`. */
  lemma IncludesByScan(s: string, sub: string)
    ensures Includes(s, sub) <==> IncludesFrom(s, sub, 0)
  {
    IncludesFromOccurs(s, sub, 0);
  }

  /** A match found by the character comparison is an occurrence. */
  lemma IncludedAt(s: string, sub: string, i: nat)
    requires i + |sub| <= |s| && MatchesAt(s, sub, i, 0)
    ensures Includes(s, sub)
  {
    MatchesAtChars(s, sub, i, 0);
    assert OccursAt(s, sub, i);
  }

  /** A string that lacks one of the characters of `sub` does not include `sub`. */
  lemma MissingChar(s: string, sub: string, c: char)
    requires c in sub && c !in s
    ensures !Includes(s, sub)
  {
  }

  /** The number of UTF-16 code units `s[i..]` takes: two for a character outside the Basic Multilingual Plane, one otherwise. */
  function Utf16LengthFrom(s: string, i: nat): (n: nat)
    decreases |s| - i
    ensures i <= |s| ==> |s| - i <= n <= 2 * (|s| - i)
    ensures i <= |s| && (forall j :: i <= j < |s| ==> (s[j] as int) < 0x1_0000) ==> n == |s| - i
  {
    if i >= |s| then 0
    else (if (s[i] as int) < 0x1_0000 then 1 else 2) + Utf16LengthFrom(s, i + 1)
  }

  /** `s.length` in JavaScript: the number of UTF-16 code units of `s`. */
  function Utf16Length(s: string): (n: nat)
    ensures |s| <= n <= 2 * |s|
    ensures n == 0 <==> s == ""
  {
    Utf16LengthFrom(s, 0)
  }
}
