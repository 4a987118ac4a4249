/** The Python string operations the backend relies on, on `seq<char>`:
    `in` on strings, `lower()`, `title()`, `strip()`, `split()`,
    `split('\n')` and `sep.join(...)`. Case mapping is ASCII only. */
module Text {

  /** Python's `str.isspace()` (also what `\s` matches in a `str` regular expression). */
  predicate IsSpace(c: char) {
    c == ' ' || '\t' <= c <= '\r' || '\U{1c}' <= c <= '\U{1f}' || c == '\U{85}' || c == '\U{a0}'
    || c == '\U{1680}' || '\U{2000}' <= c <= '\U{200a}' || c == '\U{2028}' || c == '\U{2029}'
    || c == '\U{202f}' || c == '\U{205f}' || c == '\U{3000}'
  }

  predicate IsDigit(c: char) { '0' <= c <= '9' }

  predicate IsUpper(c: char) { 'A' <= c <= 'Z' }

  predicate IsLower(c: char) { 'a' <= c <= 'z' }

  predicate IsCased(c: char) { IsUpper(c) || IsLower(c) }

  function LowerChar(c: char): (d: char)
    ensures !IsUpper(d)
    ensures IsCased(c) <==> IsCased(d)
  {
    if IsUpper(c) then (c as int + 32) as char else c
  }

  function UpperChar(c: char): (d: char)
    ensures !IsLower(d)
    ensures IsCased(c) <==> IsCased(d)
  {
    if IsLower(c) then (c as int - 32) as char else c
  }

  /** `s.lower()`. */
  function Lower(s: string): (r: string)
    ensures |r| == |s|
    ensures forall i :: 0 <= i < |s| ==> r[i] == LowerChar(s[i])
  {
    if s == [] then [] else [LowerChar(s[0])] + Lower(s[1..])
  }

  lemma LowerOfLowercase(s: string)
    requires forall i :: 0 <= i < |s| ==> !IsUpper(s[i])
    ensures Lower(s) == s
  {
  }

  lemma LowerIdempotent(s: string)
    ensures Lower(Lower(s)) == Lower(s)
  {
    assert forall i :: 0 <= i < |s| ==> LowerChar(LowerChar(s[i])) == LowerChar(s[i]);
  }

  /** `s.title()`: a cased character is upper-cased when it does not follow a
      cased character, and lower-cased when it does. */
  function Title(s: string): (r: string)
    ensures |r| == |s|
  {
    TitleAfter(s, false)
  }

  function TitleAfter(s: string, afterCased: bool): (r: string)
    ensures |r| == |s|
    ensures s != [] ==> r[0] == if afterCased then LowerChar(s[0]) else UpperChar(s[0])
    ensures forall i :: 0 < i < |s| ==> r[i] == if IsCased(s[i - 1]) then LowerChar(s[i]) else UpperChar(s[i])
  {
    if s == [] then []
    else [if afterCased then LowerChar(s[0]) else UpperChar(s[0])] + TitleAfter(s[1..], IsCased(s[0]))
  }

  /** `w in s` for two strings: `w` occurs in `s` at position `i`. */
  predicate OccursAt(s: string, w: string, i: nat) {
    i + |w| <= |s| && s[i..i + |w|] == w
  }

  predicate Contains(s: string, w: string) {
    exists i :: 0 <= i <= |s| && OccursAt(s, w, i)
  }

  /** `any(w in s for w in words)`. */
  predicate ContainsAny(s: string, words: seq<string>) {
    exists w :: w in words && Contains(s, w)
  }

  lemma ContainsShift(s: string, w: string, c: char)
    requires Contains(s, w)
    ensures Contains([c] + s, w) && Contains(s + [c], w)
  {
    var i :| 0 <= i <= |s| && OccursAt(s, w, i);
    assert ([c] + s)[i + 1..i + 1 + |w|] == s[i..i + |w|];
    assert OccursAt([c] + s, w, i + 1);
    assert (s + [c])[i..i + |w|] == s[i..i + |w|];
    assert OccursAt(s + [c], w, i);
  }

  /** Index of the first of `words`, in list order, that occurs in `s`, or |words|. */
  function FirstContained(s: string, words: seq<string>): (k: nat)
    ensures k <= |words|
    ensures k < |words| ==> Contains(s, words[k])
    ensures forall j :: 0 <= j < k ==> !Contains(s, words[j])
  {
    if words == [] then 0 else if Contains(s, words[0]) then 0 else 1 + FirstContained(s, words[1..])
  }

  /** The loop that stops at the first word found computes FirstContained. */
  lemma {:induction false} FirstContainedIs(s: string, words: seq<string>, k: nat)
    requires k <= |words|
    requires k < |words| ==> Contains(s, words[k])
    requires forall j :: 0 <= j < k ==> !Contains(s, words[j])
    ensures FirstContained(s, words) == k
    decreases |words|
  {
    if words != [] && k > 0 {
      FirstContainedIs(s, words[1..], k - 1);
    }
  }

  /** Some word of the list occurs exactly when the search stops inside the list. */
  lemma FirstContainedFinds(s: string, words: seq<string>)
    ensures FirstContained(s, words) < |words| <==> exists j :: 0 <= j < |words| && Contains(s, words[j])
  {
    var k := FirstContained(s, words);
    if j :| 0 <= j < |words| && Contains(s, words[j]) {
      assert k <= j;
    }
  }

  /** A word cannot occur in a string none of whose characters can start it. */
  lemma NotContainsWhenNoStart(s: string, w: string)
    requires w != []
    requires forall i :: 0 <= i < |s| ==> s[i] != w[0]
    ensures !Contains(s, w)
  {
    forall i | 0 <= i <= |s| ensures !OccursAt(s, w, i) {
      if i + |w| <= |s| {
        assert s[i..i + |w|][0] == s[i];
      }
    }
  }

  predicate AllSpace(s: string) {
    forall i :: 0 <= i < |s| ==> IsSpace(s[i])
  }

  /** A word that starts with a non-space character does not occur in a blank string. */
  lemma BlankContainsNoWord(s: string, w: string)
    requires AllSpace(s) && w != [] && !IsSpace(w[0])
    ensures !Contains(s, w)
  {
    NotContainsWhenNoStart(s, w);
  }

  /** Leading whitespace removed (`s.lstrip()`). */
  function TrimStart(s: string): (r: string)
    ensures |r| <= |s| && r == s[|s| - |r|..]
    ensures r != [] ==> !IsSpace(r[0])
    ensures AllSpace(s[..|s| - |r|])
  {
    if s != [] && IsSpace(s[0]) then
      var r := TrimStart(s[1..]);
      assert s[1..][..|s[1..]| - |r|] == s[1..|s| - |r|];
      r
    else s
  }

  /** Trailing whitespace removed (`s.rstrip()`). */
  function TrimEnd(s: string): (r: string)
    ensures |r| <= |s| && r == s[..|r|]
    ensures r != [] ==> !IsSpace(r[|r| - 1])
    ensures AllSpace(s[|r|..])
  {
    if s != [] && IsSpace(s[|s| - 1]) then
      var r := TrimEnd(s[..|s| - 1]);
      r
    else s
  }

  /** `s.strip()`: the longest slice of `s` that neither starts nor ends in whitespace. */
  function Strip(s: string): (r: string)
  {
    TrimEnd(TrimStart(s))
  }

  /** `s.strip()` is empty exactly for blank strings. */
  lemma {:induction false} StripEmpty(s: string)
    ensures Strip(s) == [] <==> AllSpace(s)
  {
    var t := TrimStart(s);
    if t != [] {
      assert !IsSpace(t[0]);
      assert t[0] == s[|s| - |t|];
    } else {
      assert s[..|s| - |t|] == s;
    }
  }

  /** Stripping twice is stripping once (the source strips an already stripped line). */
  lemma StripIdempotent(s: string)
    ensures Strip(Strip(s)) == Strip(s)
  {
    var r := Strip(s);
    assert r != [] ==> !IsSpace(r[0]) && !IsSpace(r[|r| - 1]) by {
      var t := TrimStart(s);
      if r != [] {
        assert r[0] == t[0];
      }
    }
  }

  /** Length of the leading run of non-whitespace characters. */
  function WordLength(s: string): (n: nat)
    ensures n <= |s|
    ensures forall i :: 0 <= i < n ==> !IsSpace(s[i])
    ensures n < |s| ==> IsSpace(s[n])
  {
    if s == [] || IsSpace(s[0]) then 0 else 1 + WordLength(s[1..])
  }

  /** `s.split()`: the maximal runs of non-whitespace characters, in order. */
  function Words(s: string): (r: seq<string>)
    ensures forall w :: w in r ==> w != [] && forall i :: 0 <= i < |w| ==> !IsSpace(w[i])
    decreases |s|
  {
    if s == [] then []
    else if IsSpace(s[0]) then Words(s[1..])
    else
      var n := WordLength(s);
      [s[..n]] + Words(s[n..])
  }

  /** A blank string splits into no words. */
  lemma {:induction false} WordsOfBlank(s: string)
    requires AllSpace(s)
    ensures Words(s) == []
    decreases |s|
  {
    if s != [] {
      WordsOfBlank(s[1..]);
    }
  }

  /** Position of the first `sep` in `s`, or |s|. */
  function IndexOf(s: string, sep: char): (k: nat)
    ensures k <= |s|
    ensures sep !in s[..k]
    ensures k < |s| ==> s[k] == sep
  {
    if s == [] then 0 else if s[0] == sep then 0 else
      var k := 1 + IndexOf(s[1..], sep);
      assert s[..k] == [s[0]] + s[1..][..k - 1];
      k
  }

  /** `s.split(sep)` for a one-character separator: never empty, no piece holds `sep`. */
  function SplitOn(s: string, sep: char): (r: seq<string>)
    ensures |r| >= 1
    ensures forall piece :: piece in r ==> sep !in piece
    decreases |s|
  {
    var k := IndexOf(s, sep);
    if k == |s| then [s] else [s[..k]] + SplitOn(s[k + 1..], sep)
  }

  /** `sep.join(parts)`. */
  function Join(sep: string, parts: seq<string>): string
  {
    if parts == [] then ""
    else if |parts| == 1 then parts[0]
    else parts[0] + sep + Join(sep, parts[1..])
  }

  /** Splitting on a character and joining with it gives the string back. */
  lemma {:induction false} JoinSplitOn(s: string, sep: char)
    ensures Join([sep], SplitOn(s, sep)) == s
    decreases |s|
  {
    var k := IndexOf(s, sep);
    if k < |s| {
      var rest := SplitOn(s[k + 1..], sep);
      JoinSplitOn(s[k + 1..], sep);
      assert SplitOn(s, sep) == [s[..k]] + rest;
      assert s == s[..k] + [sep] + s[k + 1..];
    }
  }

  /** Length of the longest run of characters satisfying `p` from position i
      (what a greedy `[...]*` consumes there). */
  function Span(s: string, i: nat, p: char -> bool): (n: nat)
    requires i <= |s|
    ensures i + n <= |s|
    ensures forall k :: i <= k < i + n ==> p(s[k])
    ensures i + n < |s| ==> !p(s[i + n])
    decreases |s| - i
  {
    if i < |s| && p(s[i]) then 1 + Span(s, i + 1, p) else 0
  }

  /** The decimal value of a string of digits (`int(ds)`). */
  function DigitsValue(ds: string): nat
    requires forall k :: 0 <= k < |ds| ==> IsDigit(ds[k])
  {
    if ds == [] then 0
    else
      assert IsDigit(ds[|ds| - 1]);
      10 * DigitsValue(ds[..|ds| - 1]) + (ds[|ds| - 1] as int - '0' as int)
  }
}
