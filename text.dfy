/**
 * The three string primitives the search box relies on: `toLowerCase`,
 * `trim` and `includes` of JavaScript's String.prototype.
 */
module Text {

  // ---------------------------------------------------------------- lowercase

  /** `toLowerCase` on a single character, for the ASCII letters only. */
  function LowerChar(c: char): (r: char)
    ensures 'A' <= c <= 'Z' ==> 'a' <= r <= 'z' && r as int == c as int + 32
    ensures !('A' <= c <= 'Z') ==> r == c
  {
    if 'A' <= c <= 'Z' then (c as int + 32) as char else c
  }

  /** `toLowerCase` on a string: lowers every character in place, keeping the length. */
  function Lower(s: string): (r: string)
    ensures |r| == |s|
    ensures forall i :: 0 <= i < |s| ==> r[i] == LowerChar(s[i])
  {
    seq(|s|, i requires 0 <= i < |s| => LowerChar(s[i]))
  }

  /** `s` is already lower case: lowering does not change any of its characters. */
  predicate IsLower(s: string)
  {
    forall c :: c in s ==> LowerChar(c) == c
  }

  lemma LowerIsLower(s: string)
    ensures IsLower(Lower(s))
  {
    forall c | c in Lower(s) ensures LowerChar(c) == c {
      var i :| 0 <= i < |Lower(s)| && Lower(s)[i] == c;
      assert c == LowerChar(s[i]);
    }
  }

  lemma LowerOfLower(s: string)
    requires IsLower(s)
    ensures Lower(s) == s
  {
    forall i | 0 <= i < |s| ensures Lower(s)[i] == s[i] {
      assert s[i] in s;
    }
  }

  // ------------------------------------------------------------------- trim

  /**
   * The characters `trim` removes: ECMAScript's WhiteSpace (tab, vertical
   * tab, form feed, space, no-break space, the byte order mark and the
   * Unicode space separators) and its LineTerminators (LF, CR, U+2028, U+2029).
   */
  predicate IsWhitespace(c: char)
    ensures IsWhitespace(c) ==> !('A' <= c <= 'Z') && !('a' <= c <= 'z')
  {
    c == '\t' || c == '\n' || c == '\U{000B}' || c == '\U{000C}' || c == '\r' ||
    c == ' ' || c == '\U{00A0}' || c == '\U{1680}' ||
    ('\U{2000}' <= c <= '\U{200A}') ||
    c == '\U{2028}' || c == '\U{2029}' || c == '\U{202F}' || c == '\U{205F}' ||
    c == '\U{3000}' || c == '\U{FEFF}'
  }

  /** No whitespace character is an ASCII capital, so lowering keeps whitespace as it is. */
  lemma LowerKeepsWhitespace(c: char)
    ensures IsWhitespace(LowerChar(c)) <==> IsWhitespace(c)
  {
  }

  /** The index of the first non-whitespace character at or after `i`, or `|s|` when there is none. */
  function LeadingEnd(s: string, i: nat): (k: nat)
    requires i <= |s|
    ensures i <= k <= |s|
    ensures forall j :: i <= j < k ==> IsWhitespace(s[j])
    ensures k == |s| || !IsWhitespace(s[k])
    decreases |s| - i
  {
    if i < |s| && IsWhitespace(s[i]) then LeadingEnd(s, i + 1) else i
  }

  /**
   * The end of `s[lo..j]` once its trailing whitespace is dropped: the
   * smallest `k >= lo` such that `s[k..j]` is all whitespace.
   */
  function TrailingStart(s: string, lo: nat, j: nat): (k: nat)
    requires lo <= j <= |s|
    ensures lo <= k <= j
    ensures forall i :: k <= i < j ==> IsWhitespace(s[i])
    ensures k == lo || !IsWhitespace(s[k - 1])
    decreases j
  {
    if lo < j && IsWhitespace(s[j - 1]) then TrailingStart(s, lo, j - 1) else j
  }

  /**
   * `trim`: whitespace removed from both ends. The result is the slice of `s`
   * that starts at its first non-whitespace character and ends after its
   * last one, and everything outside that slice is whitespace.
   */
  function Trim(s: string): (r: string)
    ensures var a := LeadingEnd(s, 0); a + |r| <= |s| && r == s[a..a + |r|]
    ensures var a := LeadingEnd(s, 0);
      forall i :: 0 <= i < |s| && !(a <= i < a + |r|) ==> IsWhitespace(s[i])
    ensures forall c :: c in r ==> c in s
    ensures r == [] || (!IsWhitespace(r[0]) && !IsWhitespace(r[|r| - 1]))
  {
    var a := LeadingEnd(s, 0);
    var b := TrailingStart(s, a, |s|);
    SliceKeepsCharacters(s, a, b);
    s[a..b]
  }

  lemma SliceKeepsCharacters(s: string, a: nat, b: nat)
    requires a <= b <= |s|
    ensures forall c :: c in s[a..b] ==> c in s
  {
    forall c | c in s[a..b] ensures c in s {
      var j :| 0 <= j < b - a && s[a..b][j] == c;
      assert s[a + j] == c;
    }
  }

  /** A string trims to the empty string exactly when every character of it is whitespace. */
  lemma TrimEmptyIffBlank(s: string)
    ensures Trim(s) == [] <==> forall i :: 0 <= i < |s| ==> IsWhitespace(s[i])
  {
    if Trim(s) != [] {
      assert Trim(s)[0] == s[LeadingEnd(s, 0)];
    }
  }

  /** A string that neither starts nor ends with whitespace is left alone by `trim`. */
  lemma TrimOfTrimmed(s: string)
    requires s == [] || (!IsWhitespace(s[0]) && !IsWhitespace(s[|s| - 1]))
    ensures Trim(s) == s
  {
  }

  /** `trim` is idempotent. */
  lemma TrimIdempotent(s: string)
    ensures Trim(Trim(s)) == Trim(s)
  {
    TrimOfTrimmed(Trim(s));
  }

  // --------------------------------------------------------------- includes

  /** `hay.includes(needle)`: `needle` occurs in `hay` at some offset. */
  predicate Contains(hay: string, needle: string)
    ensures Contains(hay, needle) ==> |needle| <= |hay|
    ensures needle == "" ==> Contains(hay, needle)
  {
    assert needle == "" ==> needle <= hay[0..];
    exists i :: 0 <= i <= |hay| && needle <= hay[i..]
  }

  /** Containment is transitive: a string that contains `mid` contains everything `mid` contains. */
  lemma ContainsTransitive(hay: string, mid: string, needle: string)
    requires Contains(hay, mid) && Contains(mid, needle)
    ensures Contains(hay, needle)
  {
    var i :| 0 <= i <= |hay| && mid <= hay[i..];
    var j :| 0 <= j <= |mid| && needle <= mid[j..];
    assert needle <= hay[i + j..] by {
      forall k | 0 <= k < |needle| ensures needle[k] == hay[i + j + k] {
        assert needle[k] == mid[j + k];
        assert mid[j + k] == hay[i..][j + k];
      }
    }
  }
}
