/**
 * The two JavaScript string operations the admin home page relies on when it
 * filters users: `String.prototype.toLowerCase` (restricted here to the ASCII
 * letters) and `String.prototype.includes` (substring search, no start
 * position).
 */
module JsString {

  /** An upper-case ASCII letter. */
  predicate IsAsciiUpper(c: char) {
    'A' <= c <= 'Z'
  }

  /** A lower-case ASCII letter. */
  predicate IsAsciiLower(c: char) {
    'a' <= c <= 'z'
  }

  /** Lower-cases one character: 'A'..'Z' become 'a'..'z', everything else is kept. */
  function LowerChar(c: char): (d: char)
    ensures !IsAsciiUpper(d)
    ensures !IsAsciiUpper(c) ==> d == c
    ensures IsAsciiUpper(c) ==> IsAsciiLower(d) && d as int - 'a' as int == c as int - 'A' as int
  {
    if IsAsciiUpper(c) then (c as int - 'A' as int + 'a' as int) as char else c
  }

  /** `s.toLowerCase()`, character by character. */
  function LowerStr(s: string): (r: string)
    ensures |r| == |s|
    ensures forall i :: 0 <= i < |s| ==> r[i] == LowerChar(s[i])
    ensures forall i :: 0 <= i < |r| ==> !IsAsciiUpper(r[i])
  {
    seq(|s|, i requires 0 <= i < |s| => LowerChar(s[i]))
  }

  /**
   * Two characters that are equal, or are the upper-case and the lower-case
   * form of the same ASCII letter, in either order.
   */
  predicate SameCharUpToCase(x: char, y: char) {
    || x == y
    || (IsAsciiUpper(x) && IsAsciiLower(y) && x as int - 'A' as int == y as int - 'a' as int)
    || (IsAsciiLower(x) && IsAsciiUpper(y) && x as int - 'a' as int == y as int - 'A' as int)
  }

  /** Two strings that differ at most in the case of their letters. */
  predicate SameUpToCase(a: string, b: string) {
    |a| == |b| && forall i :: 0 <= i < |a| ==> SameCharUpToCase(a[i], b[i])
  }

  /** Two characters lower-case alike exactly when they differ at most in letter case. */
  lemma LowerCharAlikeIff(x: char, y: char)
    ensures SameCharUpToCase(x, y) <==> LowerChar(x) == LowerChar(y)
  {
    if LowerChar(x) == LowerChar(y) {
      if IsAsciiUpper(x) && IsAsciiUpper(y) {
        assert x as int == y as int;
      }
    }
  }

  /** Strings that differ only in letter case lower-case to the same string, and back. */
  lemma SameUpToCaseIff(a: string, b: string)
    ensures SameUpToCase(a, b) <==> LowerStr(a) == LowerStr(b)
  {
    if SameUpToCase(a, b) {
      forall i | 0 <= i < |a| ensures LowerStr(a)[i] == LowerStr(b)[i] {
        LowerCharAlikeIff(a[i], b[i]);
      }
    }
    if LowerStr(a) == LowerStr(b) {
      assert |a| == |LowerStr(a)| == |b|;
      forall i | 0 <= i < |a| ensures SameCharUpToCase(a[i], b[i]) {
        assert LowerStr(a)[i] == LowerStr(b)[i];
        LowerCharAlikeIff(a[i], b[i]);
      }
    }
  }

  /** Reference meaning of a substring occurrence: `needle` sits in `hay` at offset k. */
  ghost predicate OccursAt(hay: string, needle: string, k: int) {
    0 <= k && k + |needle| <= |hay| && hay[k..k + |needle|] == needle
  }

  /** `hay.includes(needle)`: tries every start offset from the left. */
  function Includes(hay: string, needle: string): (b: bool)
    ensures b ==> |needle| <= |hay|
    ensures needle <= hay ==> b
    decreases |hay|
  {
    if |hay| < |needle| then false
    else if needle <= hay then true
    else Includes(hay[1..], needle)
  }

  /** An occurrence at offset k of the tail is an occurrence at offset k + 1 of the whole. */
  lemma OccursInTail(hay: string, needle: string, k: int)
    requires |hay| > 0 && 0 <= k
    ensures OccursAt(hay[1..], needle, k) <==> OccursAt(hay, needle, k + 1)
  {
    if k + 1 + |needle| <= |hay| {
      var n := |needle|;
      var inTail, inWhole := hay[1..][k..k + n], hay[k + 1..k + 1 + n];
      forall t | 0 <= t < n ensures inTail[t] == inWhole[t] {
      }
      assert inTail == inWhole;
    }
  }

  /** `includes` answers true exactly when the needle occurs at some offset. */
  lemma {:induction false} IncludesIffOccurs(hay: string, needle: string)
    ensures Includes(hay, needle) <==> exists k :: OccursAt(hay, needle, k)
    decreases |hay|
  {
    if |hay| < |needle| {
    } else if needle <= hay {
      assert hay[0..|needle|] == needle;
      assert OccursAt(hay, needle, 0);
    } else {
      IncludesIffOccurs(hay[1..], needle);
      if Includes(hay, needle) {
        var k :| OccursAt(hay[1..], needle, k);
        OccursInTail(hay, needle, k);
        assert OccursAt(hay, needle, k + 1);
      }
      if exists k :: OccursAt(hay, needle, k) {
        var k :| OccursAt(hay, needle, k);
        assert hay[..|needle|] != needle;
        OccursInTail(hay, needle, k - 1);
        assert OccursAt(hay[1..], needle, k - 1);
      }
    }
  }

  /** A needle whose first character appears nowhere in the haystack is not included. */
  lemma {:induction false} MissingFirstCharNotIncluded(hay: string, needle: string)
    requires |needle| > 0 && needle[0] !in hay
    ensures !Includes(hay, needle)
    decreases |hay|
  {
    if |needle| <= |hay| {
      assert hay[0] in hay;
      assert !(needle <= hay);
      MissingFirstCharNotIncluded(hay[1..], needle);
    }
  }
}
