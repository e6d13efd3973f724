/**
 * The string primitives the application relies on: `str.lower`, the
 * substring test `p in s`, `str.endswith` and reading a file in text
 * mode.  Strings are sequences of characters; lower-casing is modelled on
 * the ASCII letters only.
 */
module Text {

  /** Lower-case one character: `A`..`Z` become `a`..`z`, everything else is kept. */
  function LowerChar(c: char): (d: char)
    ensures 'A' <= c <= 'Z' ==> 'a' <= d <= 'z' && d as int - c as int == 32
    ensures !('A' <= c <= 'Z') ==> d == c
    ensures !('A' <= d <= 'Z')
  {
    if 'A' <= c <= 'Z' then (c as int + 32) as char else c
  }

  /** `s.lower()`: every character lower-cased, the length kept. */
  function Lower(s: string): (r: string)
    ensures |r| == |s|
    ensures forall i :: 0 <= i < |s| ==> r[i] == LowerChar(s[i])
  {
    if s == [] then [] else [LowerChar(s[0])] + Lower(s[1..])
  }

  /** A string holds no upper-case letter. */
  predicate IsLower(s: string)
  {
    forall i :: 0 <= i < |s| ==> !('A' <= s[i] <= 'Z')
  }

  /** `p` occurs in `s` starting at offset `k`. */
  predicate OccursAt(s: string, p: string, k: int)
  {
    0 <= k && k + |p| <= |s| && s[k..k + |p|] == p
  }

  /** The substring test `p in s`: `p` occurs at some offset of `s`. */
  predicate Contains(s: string, p: string)
  {
    exists k :: 0 <= k <= |s| - |p| && OccursAt(s, p, k)
  }

  /** `s.endswith(suffix)`. */
  predicate EndsWith(s: string, suffix: string)
  {
    |suffix| <= |s| && s[|s| - |suffix|..] == suffix
  }

  /** The result of lower-casing has no upper-case letter left. */
  lemma LowerIsLower(s: string)
    ensures IsLower(Lower(s))
  {
  }

  /** Lower-casing leaves a string without upper-case letters unchanged. */
  lemma LowerOfLower(s: string)
    requires IsLower(s)
    ensures Lower(s) == s
  {
  }

  /** Lower-casing twice is lower-casing once. */
  lemma LowerIdempotent(s: string)
    ensures Lower(Lower(s)) == Lower(s)
  {
    LowerIsLower(s);
    LowerOfLower(Lower(s));
  }

  /** The empty string contains no non-empty string. */
  lemma EmptyContainsNothing(p: string)
    requires p != []
    ensures !Contains([], p)
  {
  }

  /**
   * What reading a file in text mode (`open(path, "r")`) yields from its
   * stored characters: universal newlines turn "\r\n" and a lone "\r"
   * into "\n".  No carriage return survives, and nothing else changes.
   */
  function ReadText(s: string): (r: string)
    ensures |r| <= |s|
    ensures |s| > 0 ==> |r| > 0
    ensures forall i :: 0 <= i < |r| ==> r[i] != '\r'
  {
    if s == [] then []
    else if s[0] == '\r' then
      if |s| > 1 && s[1] == '\n' then "\n" + ReadText(s[2..]) else "\n" + ReadText(s[1..])
    else [s[0]] + ReadText(s[1..])
  }

  /** Text without carriage returns reads back unchanged. */
  lemma {:induction false} ReadTextKeepsPlainText(s: string)
    requires forall i :: 0 <= i < |s| ==> s[i] != '\r'
    ensures ReadText(s) == s
  {
    if s != [] {
      ReadTextKeepsPlainText(s[1..]);
    }
  }

  /**
   * The translation itself: after plain text `a`, a "\r\n" pair and a lone
   * "\r" (one not followed by "\n") each read as a single "\n".
   */
  lemma {:induction false} ReadTextNewlines(a: string, b: string)
    requires forall i :: 0 <= i < |a| ==> a[i] != '\r'
    ensures ReadText(a + "\r\n" + b) == a + "\n" + ReadText(b)
    ensures (b == [] || b[0] != '\n') ==> ReadText(a + "\r" + b) == a + "\n" + ReadText(b)
  {
    if a == [] {
      assert a + "\r\n" + b == "\r\n" + b;
      assert ("\r\n" + b)[2..] == b;
      assert a + "\r" + b == "\r" + b;
      assert ("\r" + b)[1..] == b;
    } else {
      ReadTextNewlines(a[1..], b);
      assert (a + "\r\n" + b)[1..] == a[1..] + "\r\n" + b;
      assert (a + "\r" + b)[1..] == a[1..] + "\r" + b;
      assert a == [a[0]] + a[1..];
    }
  }

  /** Reading already-read text again changes nothing. */
  lemma ReadTextIdempotent(s: string)
    ensures ReadText(ReadText(s)) == ReadText(s)
  {
    ReadTextKeepsPlainText(ReadText(s));
  }
}
