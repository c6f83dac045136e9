/**
 * The string operations of `String.prototype` that the dashboard uses:
 * `trim`, `toLowerCase` and `includes`.
 */
module Text {

  /**
   * ECMAScript WhiteSpace and LineTerminator code points, the characters
   * `String.prototype.trim` strips: tab, vertical tab, form feed, space,
   * no-break space, the byte order mark, the other Zs space separators,
   * line feed, carriage return, line separator and paragraph separator.
   */
  const Whitespace: set<char> := {
    '\t', '\U{000B}', '\U{000C}', ' ', '\U{00A0}', '\U{FEFF}', '\U{1680}',
    '\U{2000}', '\U{2001}', '\U{2002}', '\U{2003}', '\U{2004}', '\U{2005}',
    '\U{2006}', '\U{2007}', '\U{2008}', '\U{2009}', '\U{200A}',
    '\U{202F}', '\U{205F}', '\U{3000}',
    '\n', '\r', '\U{2028}', '\U{2029}'
  }

  predicate IsWhitespace(c: char) {
    c in Whitespace
  }

  /** `s` with its leading whitespace removed: a suffix of `s` whose dropped part is all whitespace. */
  function TrimStart(s: string): (r: string)
    ensures |r| <= |s| && r == s[|s| - |r|..]
    ensures forall k :: 0 <= k < |s| - |r| ==> IsWhitespace(s[k])
    ensures r != [] ==> !IsWhitespace(r[0])
    decreases |s|
  {
    if s != [] && IsWhitespace(s[0]) then
      var t := s[1..];
      var r := TrimStart(t);
      assert r == s[|s| - |r|..] by {
        assert t[|t| - |r|..] == s[|s| - |r|..];
      }
      assert forall k :: 0 <= k < |s| - |r| ==> IsWhitespace(s[k]) by {
        forall k | 0 <= k < |s| - |r| ensures IsWhitespace(s[k]) {
          if k > 0 {
            assert s[k] == t[k - 1];
          }
        }
      }
      r
    else s
  }

  /** `s` with its trailing whitespace removed: a prefix of `s` whose dropped part is all whitespace. */
  function TrimEnd(s: string): (r: string)
    ensures |r| <= |s| && r == s[..|r|]
    ensures forall k :: |r| <= k < |s| ==> IsWhitespace(s[k])
    ensures r != [] ==> !IsWhitespace(r[|r| - 1])
    decreases |s|
  {
    if s != [] && IsWhitespace(s[|s| - 1]) then
      var t := s[..|s| - 1];
      var r := TrimEnd(t);
      assert r == s[..|r|] by {
        assert t[..|r|] == s[..|r|];
      }
      assert forall k :: |r| <= k < |s| ==> IsWhitespace(s[k]) by {
        forall k | |r| <= k < |s| ensures IsWhitespace(s[k]) {
          if k < |s| - 1 {
            assert s[k] == t[k];
          }
        }
      }
      r
    else s
  }

  /** `s.trim()` */
  function Trim(s: string): string {
    TrimEnd(TrimStart(s))
  }

  /**
   * `trim` keeps a contiguous middle slice of `s` that neither starts nor
   * ends with whitespace, and everything it drops is whitespace.
   */
  lemma TrimIsMiddleSlice(s: string) returns (i: nat, j: nat)
    ensures i <= j <= |s| && Trim(s) == s[i..j]
    ensures forall k :: 0 <= k < i ==> IsWhitespace(s[k])
    ensures forall k :: j <= k < |s| ==> IsWhitespace(s[k])
    ensures i < j ==> !IsWhitespace(s[i]) && !IsWhitespace(s[j - 1])
  {
    var t := TrimStart(s);
    var r := TrimEnd(t);
    i := |s| - |t|;
    j := i + |r|;
    assert t == s[i..];
    assert r == s[i..j] by {
      assert r == t[..|r|];
    }
    TrailingWhitespace(s, i, |r|);
  }

  /** Whitespace at the end of the suffix `s[i..]` is whitespace at the end of `s`. */
  lemma TrailingWhitespace(s: string, i: nat, n: nat)
    requires i + n <= |s|
    requires forall k :: n <= k < |s[i..]| ==> IsWhitespace(s[i..][k])
    ensures forall k :: i + n <= k < |s| ==> IsWhitespace(s[k])
  {
    forall k | i + n <= k < |s| ensures IsWhitespace(s[k]) {
      assert s[k] == s[i..][k - i];
    }
  }

  /** Every character of `w` is whitespace. */
  predicate AllWhitespace(w: string) {
    forall k :: 0 <= k < |w| ==> IsWhitespace(w[k])
  }

  /** `trimStart` drops exactly a whitespace prefix in front of a non-whitespace character. */
  lemma {:induction false} TrimStartPadded(w: string, c: string)
    requires AllWhitespace(w)
    requires c != [] ==> !IsWhitespace(c[0])
    ensures TrimStart(w + c) == c
    decreases |w|
  {
    if w == [] {
      assert w + c == c;
    } else {
      assert (w + c)[0] == w[0];
      assert (w + c)[1..] == w[1..] + c;
      TrimStartPadded(w[1..], c);
    }
  }

  /** `trimEnd` drops exactly a whitespace suffix behind a non-whitespace character. */
  lemma {:induction false} TrimEndPadded(c: string, w: string)
    requires AllWhitespace(w)
    requires c != [] ==> !IsWhitespace(c[|c| - 1])
    ensures TrimEnd(c + w) == c
    decreases |w|
  {
    if w == [] {
      assert c + w == c;
    } else {
      var v := w[..|w| - 1];
      assert (c + w)[|c + w| - 1] == w[|w| - 1];
      assert (c + w)[..|c + w| - 1] == c + v;
      TrimEndPadded(c, v);
    }
  }

  /**
   * The converse of `TrimIsMiddleSlice`: padding a string that neither
   * starts nor ends with whitespace by whitespace on both sides is undone
   * by `trim`.
   */
  lemma TrimPadded(w1: string, c: string, w2: string)
    requires AllWhitespace(w1) && AllWhitespace(w2)
    requires c != [] ==> !IsWhitespace(c[0]) && !IsWhitespace(c[|c| - 1])
    ensures Trim(w1 + c + w2) == c
  {
    assert w1 + c + w2 == w1 + (c + w2);
    if c == [] {
      assert c + w2 == w2;
      assert w1 + w2 == (w1 + w2) + c;
      assert AllWhitespace(w1 + w2) by {
        forall k | 0 <= k < |w1 + w2| ensures IsWhitespace((w1 + w2)[k]) {
          if k >= |w1| {
            assert (w1 + w2)[k] == w2[k - |w1|];
          }
        }
      }
      TrimStartPadded(w1 + w2, c);
    } else {
      assert (c + w2)[0] == c[0];
      TrimStartPadded(w1, c + w2);
      TrimEndPadded(c, w2);
    }
  }

  /** ASCII upper case letters map to lower case; every other character is kept. */
  function LowerChar(c: char): (r: char)
    ensures 'A' <= c <= 'Z' ==> r as int == c as int + 32
    ensures !('A' <= c <= 'Z') ==> r == c
  {
    if 'A' <= c <= 'Z' then (c as int + 32) as char else c
  }

  /** A character that lower-cases to an ASCII letter is not whitespace. */
  lemma LetterIsNotWhitespace(c: char)
    requires 'a' <= LowerChar(c) <= 'z'
    ensures !IsWhitespace(c)
  {
    assert 'A' <= c <= 'Z' || 'a' <= c <= 'z';
  }

  /** `s.toLowerCase()`, character by character (ASCII case mapping only). */
  function ToLower(s: string): (r: string)
    ensures |r| == |s|
    ensures forall i :: 0 <= i < |s| ==> r[i] == LowerChar(s[i])
  {
    seq(|s|, i requires 0 <= i < |s| => LowerChar(s[i]))
  }

  /** A string without ASCII capitals is its own lower case. */
  lemma LowerCaseIsFixed(s: string)
    requires forall i :: 0 <= i < |s| ==> !('A' <= s[i] <= 'Z')
    ensures ToLower(s) == s
  {
  }

  /** `t` occurs in `s` starting at index `i`. */
  predicate OccursAt(s: string, t: string, i: int) {
    0 <= i && i + |t| <= |s| && s[i..i + |t|] == t
  }

  /** `s.includes(t)` */
  function Contains(s: string, t: string): bool
    decreases |s|
  {
    if |t| > |s| then false
    else s[..|t|] == t || Contains(s[1..], t)
  }

  /** `includes` holds exactly when `t` occurs at some index of `s`. */
  lemma {:induction false} ContainsIffOccurs(s: string, t: string)
    ensures Contains(s, t) <==> exists i :: OccursAt(s, t, i)
    decreases |s|
  {
    if |t| > |s| {
      assert forall i :: !OccursAt(s, t, i);
    } else if s[..|t|] == t {
      assert OccursAt(s, t, 0);
    } else {
      ContainsIffOccurs(s[1..], t);
      forall i | OccursAt(s[1..], t, i) ensures OccursAt(s, t, i + 1) {
        assert s[1..][i..i + |t|] == s[i + 1..i + 1 + |t|];
      }
      forall i | OccursAt(s, t, i) ensures i > 0 && OccursAt(s[1..], t, i - 1) {
        assert i != 0;
        assert s[1..][i - 1..i - 1 + |t|] == s[i..i + |t|];
      }
    }
  }
}
