/**
 * The two JavaScript string operations the query normalisation relies on:
 * `String.prototype.trim` and `String.prototype.toLowerCase`.
 */
module JsText {

  import opened Wrappers

  /** JavaScript truthiness of a string that may be null: present and not the empty string. */
  predicate Truthy(o: Option<string>)
  {
    o.Some? && o.value != ""
  }

  /** The characters `trim` removes: ECMAScript white space and line terminators. */
  const Spaces: set<char> := {
    '\t', '\n', '\U{000B}', '\U{000C}', '\r', ' ', '\U{00A0}', '\U{1680}',
    '\U{2000}', '\U{2001}', '\U{2002}', '\U{2003}', '\U{2004}', '\U{2005}', '\U{2006}',
    '\U{2007}', '\U{2008}', '\U{2009}', '\U{200A}',
    '\U{2028}', '\U{2029}', '\U{202F}', '\U{205F}', '\U{3000}', '\U{FEFF}'
  }

  predicate IsSpace(c: char)
  {
    c in Spaces
  }

  /** No white space at either end. */
  predicate Trimmed(s: string)
  {
    |s| == 0 || (!IsSpace(s[0]) && !IsSpace(s[|s| - 1]))
  }

  /** The index of the first character at or after `i` that is not white space (`|s|` if none). */
  function StartFrom(s: string, i: nat): (j: nat)
    requires i <= |s|
    ensures i <= j <= |s|
    ensures forall k :: i <= k < j ==> IsSpace(s[k])
    ensures j < |s| ==> !IsSpace(s[j])
    decreases |s| - i
  {
    if i < |s| && IsSpace(s[i]) then StartFrom(s, i + 1) else i
  }

  /** The end of `s[lo..j]` once trailing white space is dropped (`lo` if all of it is white space). */
  function EndFrom(s: string, lo: nat, j: nat): (e: nat)
    requires lo <= j <= |s|
    ensures lo <= e <= j
    ensures forall k :: e <= k < j ==> IsSpace(s[k])
    ensures e > lo ==> !IsSpace(s[e - 1])
    decreases j
  {
    if j > lo && IsSpace(s[j - 1]) then EndFrom(s, lo, j - 1) else j
  }

  /** `s.trim()`: the slice of `s` left after removing white space from both ends. */
  function Trim(s: string): (r: string)
    ensures Trimmed(r)
  {
    var i := StartFrom(s, 0);
    var e := EndFrom(s, i, |s|);
    s[i..e]
  }

  /** `trim` cuts a slice out of `s` and everything it cuts off is white space. */
  lemma TrimRemovesOnlySpaces(s: string)
    ensures var i := StartFrom(s, 0); var e := EndFrom(s, i, |s|);
      && Trim(s) == s[i..e]
      && (forall k :: 0 <= k < i ==> IsSpace(s[k]))
      && (forall k :: e <= k < |s| ==> IsSpace(s[k]))
  {
  }

  /** Trimming yields the empty string exactly when `s` is all white space. */
  lemma TrimEmptyIffBlank(s: string)
    ensures Trim(s) == "" <==> forall k :: 0 <= k < |s| ==> IsSpace(s[k])
  {
    var i := StartFrom(s, 0);
    if Trim(s) != "" {
      assert !IsSpace(s[i]);
    }
  }

  /** A string without white space at its ends trims to itself. */
  lemma TrimOfTrimmed(s: string)
    requires Trimmed(s)
    ensures Trim(s) == s
  {
    if |s| > 0 {
      assert StartFrom(s, 0) == 0;
      assert EndFrom(s, 0, |s|) == |s|;
    }
  }

  /** The upper-case letters the model lowers: ASCII and Latin-1 (Portuguese accents included). */
  predicate IsUpper(c: char)
  {
    ('A' <= c <= 'Z') || ('\U{00C0}' <= c <= '\U{00DE}' && c != '\U{00D7}')
  }

  function LowerChar(c: char): (d: char)
    ensures !IsUpper(d)
    ensures !IsUpper(c) ==> d == c
    ensures IsSpace(d) <==> IsSpace(c)
    ensures IsUpper(c) ==> d as int == c as int + 32
  {
    if IsUpper(c) then (c as int + 32) as char else c
  }

  /** `s.toLowerCase()`, character by character. */
  function ToLower(s: string): (r: string)
    ensures |r| == |s|
    ensures forall k :: 0 <= k < |s| ==> r[k] == LowerChar(s[k])
    ensures forall k :: 0 <= k < |s| ==> !IsUpper(r[k])
  {
    seq(|s|, k requires 0 <= k < |s| => LowerChar(s[k]))
  }

  /** A worked case: an upper-case crop name lowers letter by letter. */
  lemma ToLowerExample()
    ensures ToLower("ABACATE") == "abacate"
  {
    var r := ToLower("ABACATE");
    assert r[0] == 'a' && r[1] == 'b' && r[2] == 'a' && r[3] == 'c';
    assert r[4] == 'a' && r[5] == 't' && r[6] == 'e';
  }

  /** Lowering an already lowered string changes nothing. */
  lemma ToLowerIdempotent(s: string)
    ensures ToLower(ToLower(s)) == ToLower(s)
  {
    var l := ToLower(s);
    assert forall k :: 0 <= k < |l| ==> ToLower(l)[k] == l[k];
  }

  /** Lowering keeps a string trimmed. */
  lemma ToLowerKeepsTrimmed(s: string)
    requires Trimmed(s)
    ensures Trimmed(ToLower(s))
  {
    if |s| > 0 {
      assert ToLower(s)[0] == LowerChar(s[0]);
      assert ToLower(s)[|s| - 1] == LowerChar(s[|s| - 1]);
    }
  }
}
