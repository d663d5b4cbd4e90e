/** JavaScript string semantics that the order handlers of both servers rely on:
    truthiness of optional request fields, `String.prototype.toUpperCase`,
    `String.prototype.replace` with a string pattern, and the way the database
    layer casts a path parameter to an ObjectId. */
module JsText {

  datatype Option<T> = None | Some(value: T)

  /** A request field that is a string or absent (`undefined`/`null`):
      JavaScript treats absent and "" as falsy. */
  predicate Truthy(s: Option<string>) {
    s.Some? && s.value != ""
  }

  /** `a || b` for two optional strings. */
  function Or(a: Option<string>, b: Option<string>): Option<string> {
    if Truthy(a) then a else b
  }

  /** `s || ''` */
  function OrEmpty(s: Option<string>): string {
    if Truthy(s) then s.value else ""
  }

  // ---------------------------------------------------------------- toUpperCase

  /** Upper-case mapping of one character. ASCII letters are mapped, and so are
      the two non-ASCII letters whose upper-case form is an ASCII letter
      (U+0131 dotless i and U+017F long s). */
  function UpperChar(c: char): char {
    if 'a' <= c <= 'z' then (c as int - 32) as char
    else if c == '\U{0131}' then 'I'
    else if c == '\U{017F}' then 'S'
    else c
  }

  predicate IsUpperAscii(c: char) {
    'A' <= c <= 'Z'
  }

  /** `s.toUpperCase()` */
  function UpperCase(s: string): (r: string)
    ensures |r| == |s|
    ensures forall i :: 0 <= i < |s| ==> r[i] == UpperChar(s[i])
  {
    if s == [] then [] else [UpperChar(s[0])] + UpperCase(s[1..])
  }

  /** A string made of upper-case ASCII letters is left as it is. */
  lemma {:induction false} UpperCaseFixesUpper(s: string)
    requires forall i :: 0 <= i < |s| ==> IsUpperAscii(s[i])
    ensures UpperCase(s) == s
  {
    if s != [] {
      UpperCaseFixesUpper(s[1..]);
    }
  }

  // ------------------------------------------------------------ replace (first)

  /** `pat` occurs somewhere in `s`. */
  predicate Contains(s: string, pat: string)
    decreases |s|
  {
    |s| >= |pat| && (s[..|pat|] == pat || (s != [] && Contains(s[1..], pat)))
  }

  /** `pat` occurs in `s` starting at index `i`. */
  predicate OccursAt(s: string, pat: string, i: int) {
    0 <= i && i + |pat| <= |s| && s[i..i + |pat|] == pat
  }

  /** `s.replace(pat, rep)` with a string pattern: only the first occurrence of
      `pat` is replaced, wherever it stands in `s`. Without an occurrence the
      string is returned unchanged. */
  function ReplaceFirst(s: string, pat: string, rep: string): (r: string)
    requires pat != ""
    ensures !Contains(s, pat) ==> r == s
    ensures Contains(s, pat) ==> |r| == |s| - |pat| + |rep|
    decreases |s|
  {
    if |s| < |pat| then s
    else if s[..|pat|] == pat then rep + s[|pat|..]
    else [s[0]] + ReplaceFirst(s[1..], pat, rep)
  }

  /** An occurrence in the tail of `s` is an occurrence in `s`, one further on. */
  lemma OccursAtTail(s: string, pat: string, j: int)
    requires s != [] && 0 <= j
    ensures OccursAt(s[1..], pat, j) <==> OccursAt(s, pat, j + 1)
  {
    if j + 1 + |pat| <= |s| {
      assert s[1..][j..j + |pat|] == s[j + 1..j + 1 + |pat|];
    }
  }

  /** The occurrence replaced is the one at the least index where `pat`
      occurs: everything before it and everything after it is kept. */
  lemma {:induction false} ReplaceFirstAt(s: string, pat: string, rep: string, i: int)
    requires pat != ""
    requires OccursAt(s, pat, i)
    requires forall j :: 0 <= j < i ==> !OccursAt(s, pat, j)
    ensures ReplaceFirst(s, pat, rep) == s[..i] + rep + s[i + |pat|..]
    decreases i
  {
    if i == 0 {
      assert s[..|pat|] == pat;
    } else {
      assert !OccursAt(s, pat, 0);
      var t := s[1..];
      OccursAtTail(s, pat, i - 1);
      forall j | 0 <= j < i - 1 ensures !OccursAt(t, pat, j) {
        OccursAtTail(s, pat, j);
      }
      ReplaceFirstAt(t, pat, rep, i - 1);
      calc {
        ReplaceFirst(s, pat, rep);
        [s[0]] + ReplaceFirst(t, pat, rep);
        [s[0]] + (t[..i - 1] + rep + t[i - 1 + |pat|..]);
        { assert [s[0]] + t[..i - 1] == s[..i]; assert t[i - 1 + |pat|..] == s[i + |pat|..]; }
        s[..i] + rep + s[i + |pat|..];
      }
    }
  }

  /** `Contains` holds exactly when `pat` occurs at some index. */
  lemma {:induction false} ContainsIffOccurs(s: string, pat: string)
    ensures Contains(s, pat) <==> exists i :: OccursAt(s, pat, i)
    decreases |s|
  {
    if |s| >= |pat| && s[..|pat|] == pat {
      assert OccursAt(s, pat, 0);
    } else if |s| >= |pat| {
      ContainsIffOccurs(s[1..], pat);
      if Contains(s, pat) {
        var i :| OccursAt(s[1..], pat, i);
        OccursAtTail(s, pat, i);
      }
      if exists i :: OccursAt(s, pat, i) {
        var i :| OccursAt(s, pat, i);
        assert i != 0;
        OccursAtTail(s, pat, i - 1);
      }
    }
  }

  /** Every occurrence has a first occurrence at or before it. */
  lemma {:induction false} FirstOccurrence(s: string, pat: string, k: int)
    requires OccursAt(s, pat, k)
    ensures exists i :: 0 <= i <= k && OccursAt(s, pat, i) && forall j :: 0 <= j < i ==> !OccursAt(s, pat, j)
    decreases k
  {
    if exists j :: 0 <= j < k && OccursAt(s, pat, j) {
      var j :| 0 <= j < k && OccursAt(s, pat, j);
      FirstOccurrence(s, pat, j);
    }
  }

  /** Every string is covered: either `pat` does not occur and the string is
      kept, or the occurrence at the least index is replaced. */
  lemma ReplaceFirstCases(s: string, pat: string, rep: string)
    requires pat != ""
    ensures !Contains(s, pat) ==> ReplaceFirst(s, pat, rep) == s
    ensures Contains(s, pat) ==>
              exists i :: && OccursAt(s, pat, i)
                          && (forall j :: 0 <= j < i ==> !OccursAt(s, pat, j))
                          && ReplaceFirst(s, pat, rep) == s[..i] + rep + s[i + |pat|..]
  {
    if Contains(s, pat) {
      ContainsIffOccurs(s, pat);
      var k :| OccursAt(s, pat, k);
      FirstOccurrence(s, pat, k);
      var i :| 0 <= i <= k && OccursAt(s, pat, i) && forall j :: 0 <= j < i ==> !OccursAt(s, pat, j);
      ReplaceFirstAt(s, pat, rep, i);
    }
  }

  /** A leading occurrence is the one replaced. */
  lemma ReplaceFirstPrefix(pat: string, rest: string, rep: string)
    requires pat != ""
    ensures ReplaceFirst(pat + rest, pat, rep) == rep + rest
  {
    assert (pat + rest)[..|pat|] == pat;
    assert (pat + rest)[|pat|..] == rest;
  }

  // ------------------------------------------------------------- ObjectId cast

  predicate IsHexDigit(c: char) {
    '0' <= c <= '9' || 'a' <= c <= 'f' || 'A' <= c <= 'F'
  }

  predicate IsLowerHexDigit(c: char) {
    '0' <= c <= '9' || 'a' <= c <= 'f'
  }

  /** The canonical text of an ObjectId: 24 lower-case hexadecimal digits. */
  predicate IsCanonicalObjectId(s: string) {
    |s| == 24 && forall i :: 0 <= i < |s| ==> IsLowerHexDigit(s[i])
  }

  function LowerHexChar(c: char): char {
    if 'A' <= c <= 'F' then (c as int + 32) as char else c
  }

  function LowerHex(s: string): (r: string)
    ensures |r| == |s|
    ensures forall i :: 0 <= i < |s| ==> r[i] == LowerHexChar(s[i])
  {
    seq(|s|, i requires 0 <= i < |s| => LowerHexChar(s[i]))
  }

  /** How a path parameter becomes an ObjectId for `findById`: 24 hexadecimal
      digits in either case name the id written in lower case; anything else
      is a cast error. */
  function CastObjectId(s: string): (r: Option<string>)
    ensures r.Some? <==> |s| == 24 && forall i :: 0 <= i < |s| ==> IsHexDigit(s[i])
    ensures r.Some? ==> IsCanonicalObjectId(r.value)
    ensures r.Some? ==> r.value == LowerHex(s)
    ensures IsCanonicalObjectId(s) ==> r == Some(s)
  {
    if |s| == 24 && forall i :: 0 <= i < |s| ==> IsHexDigit(s[i]) then
      assert IsCanonicalObjectId(s) ==> LowerHex(s) == s by {
        if IsCanonicalObjectId(s) {
          assert forall i :: 0 <= i < |s| ==> LowerHex(s)[i] == s[i];
        }
      }
      Some(LowerHex(s))
    else None
  }
}
