/**
 The string primitives the validator relies on: Python's `str.strip()`,
 `str.upper()`, the `in` substring test and `string.punctuation`, each
 restricted to the ASCII range (see README).
 */
module Text {

  /** Python's `str.isspace` on ASCII: tab, line feed, vertical tab, form feed,
      carriage return, the four information separators 0x1C-0x1F, and space. */
  predicate IsSpace(c: char) {
    c == ' ' || ('\t' <= c <= '\r') || ('\U{1C}' <= c <= '\U{1F}')
  }

  predicate AllSpace(s: string) {
    forall i :: 0 <= i < |s| ==> IsSpace(s[i])
  }

  /** Neither end of `s` is whitespace. */
  predicate Trimmed(s: string) {
    s == [] || (!IsSpace(s[0]) && !IsSpace(s[|s| - 1]))
  }

  /** `r` is `s` with a whitespace-only prefix and a whitespace-only suffix
      removed, and nothing further could be removed. This is the declarative
      meaning of `str.strip()` with no argument. */
  ghost predicate Trims(s: string, r: string) {
    Trimmed(r) && exists i :: TrimsAt(s, r, i)
  }

  /** `r` sits at index `i` of `s` with only whitespace before and after it. */
  predicate TrimsAt(s: string, r: string, i: int) {
    0 <= i <= |s| - |r| && s[i..i + |r|] == r && AllSpace(s[..i]) && AllSpace(s[i + |r|..])
  }

  /** Drops leading whitespace. */
  function StripLeading(s: string): (r: string)
    ensures |r| <= |s| && r == s[|s| - |r|..]
    ensures AllSpace(s[..|s| - |r|])
    ensures r == [] || !IsSpace(r[0])
  {
    if |s| > 0 && IsSpace(s[0]) then StripLeading(s[1..]) else s
  }

  /** Drops trailing whitespace. */
  function StripTrailing(s: string): (r: string)
    ensures |r| <= |s| && r == s[..|r|]
    ensures AllSpace(s[|r|..])
    ensures r == [] || !IsSpace(r[|r| - 1])
  {
    if |s| > 0 && IsSpace(s[|s| - 1]) then StripTrailing(s[..|s| - 1]) else s
  }

  /** Python's `s.strip()`. */
  function Strip(s: string): (r: string)
    ensures Trims(s, r)
  {
    var t := StripTrailing(s);
    var r := StripLeading(t);
    var i := |t| - |r|;
    assert s[i..i + |r|] == r;
    assert s[..i] == t[..i];
    assert TrimsAt(s, r, i);
    r
  }

  /** Two positions that both start the first non-space character coincide. */
  lemma FirstNonSpaceUnique(s: string, i: int, j: int)
    requires 0 <= i < |s| && 0 <= j < |s|
    requires AllSpace(s[..i]) && !IsSpace(s[i])
    requires AllSpace(s[..j]) && !IsSpace(s[j])
    ensures i == j
  {
    assert forall k :: 0 <= k < i ==> IsSpace(s[k]) by {
      forall k | 0 <= k < i ensures IsSpace(s[k]) { assert s[..i][k] == s[k]; }
    }
    assert forall k :: 0 <= k < j ==> IsSpace(s[k]) by {
      forall k | 0 <= k < j ensures IsSpace(s[k]) { assert s[..j][k] == s[k]; }
    }
  }

  /** Two positions that both end the last non-space character coincide. */
  lemma LastNonSpaceUnique(s: string, i: int, j: int)
    requires 0 < i <= |s| && 0 < j <= |s|
    requires AllSpace(s[i..]) && !IsSpace(s[i - 1])
    requires AllSpace(s[j..]) && !IsSpace(s[j - 1])
    ensures i == j
  {
    assert forall k :: i <= k < |s| ==> IsSpace(s[k]) by {
      forall k | i <= k < |s| ensures IsSpace(s[k]) { assert s[i..][k - i] == s[k]; }
    }
    assert forall k :: j <= k < |s| ==> IsSpace(s[k]) by {
      forall k | j <= k < |s| ensures IsSpace(s[k]) { assert s[j..][k - j] == s[k]; }
    }
  }

  /** The stripped part is empty exactly when the whole string is whitespace. */
  lemma EmptyIffAllSpace(s: string, r: string, i: int)
    requires TrimsAt(s, r, i) && Trimmed(r)
    ensures r == [] <==> AllSpace(s)
  {
    if r == [] {
      assert s == s[..i] + s[i..];
    } else {
      assert r[0] == s[i];
    }
  }

  /** `Trims` has exactly one solution, so `Strip` is fully determined by it. */
  lemma {:induction false} TrimsUnique(s: string, r1: string, r2: string)
    requires Trims(s, r1) && Trims(s, r2)
    ensures r1 == r2
  {
    var i1 :| TrimsAt(s, r1, i1);
    var i2 :| TrimsAt(s, r2, i2);
    EmptyIffAllSpace(s, r1, i1);
    EmptyIffAllSpace(s, r2, i2);
    if !AllSpace(s) {
      assert s[i1] == r1[0] && s[i2] == r2[0];
      FirstNonSpaceUnique(s, i1, i2);
      assert s[i1 + |r1| - 1] == r1[|r1| - 1] && s[i2 + |r2| - 1] == r2[|r2| - 1];
      LastNonSpaceUnique(s, i1 + |r1|, i2 + |r2|);
      assert r1 == s[i1..i1 + |r1|];
    }
  }

  /** Stripping an already stripped string changes nothing. */
  lemma {:induction false} StripIdempotent(s: string)
    ensures Strip(Strip(s)) == Strip(s)
  {
    var r := Strip(s);
    assert r[0..|r|] == r && r[..0] == [] && r[|r|..] == [];
    assert TrimsAt(r, r, 0);
    TrimsUnique(r, r, Strip(r));
  }

  /** A string with no whitespace at either end is its own strip. */
  lemma {:induction false} StripTrimmed(s: string)
    requires Trimmed(s)
    ensures Strip(s) == s
  {
    assert s[0..|s|] == s && s[..0] == [] && s[|s|..] == [];
    assert TrimsAt(s, s, 0);
    TrimsUnique(s, s, Strip(s));
  }

  lemma AllSpaceConcat(a: string, b: string)
    requires AllSpace(a) && AllSpace(b)
    ensures AllSpace(a + b)
  {
  }

  /** Padding with whitespace keeps a trimmed core where it was, shifted by the prefix. */
  lemma TrimsAtPadded(pre: string, s: string, suf: string, r: string, i: int)
    requires AllSpace(pre) && AllSpace(suf) && TrimsAt(s, r, i)
    ensures TrimsAt(pre + s + suf, r, |pre| + i)
  {
    var p := pre + s + suf;
    var j := |pre| + i;
    assert p[j..j + |r|] == s[i..i + |r|];
    assert p[..j] == pre + s[..i];
    AllSpaceConcat(pre, s[..i]);
    assert p[j + |r|..] == s[i + |r|..] + suf;
    AllSpaceConcat(s[i + |r|..], suf);
  }

  /** Whitespace added around a string is removed again by `Strip`. */
  lemma {:induction false} StripIgnoresPadding(pre: string, s: string, suf: string)
    requires AllSpace(pre) && AllSpace(suf)
    ensures Strip(pre + s + suf) == Strip(s)
  {
    var r := Strip(s);
    var i :| TrimsAt(s, r, i);
    TrimsAtPadded(pre, s, suf, r, i);
    TrimsUnique(pre + s + suf, r, Strip(pre + s + suf));
  }

  /** Python's `str.upper` on ASCII letters; every other character is kept. */
  function UpperChar(c: char): char {
    if 'a' <= c <= 'z' then (c as int - 32) as char else c
  }

  /** Python's `s.upper()` on ASCII: same length, no lower-case letter left,
      each lower-case letter replaced by its capital, everything else kept. */
  function Upper(s: string): (r: string)
    ensures |r| == |s|
    ensures forall i :: 0 <= i < |r| ==> !('a' <= r[i] <= 'z')
    ensures forall i :: 0 <= i < |s| && 'a' <= s[i] <= 'z' ==> r[i] as int == s[i] as int - 32
    ensures forall i :: 0 <= i < |s| && !('a' <= s[i] <= 'z') ==> r[i] == s[i]
  {
    seq(|s|, i requires 0 <= i < |s| => UpperChar(s[i]))
  }

  lemma UpperConcat(a: string, b: string)
    ensures Upper(a + b) == Upper(a) + Upper(b)
  {
  }

  /** Upper-casing is idempotent. */
  lemma UpperIdempotent(s: string)
    ensures Upper(Upper(s)) == Upper(s)
  {
  }

  /** `k` appears in `s` starting at index `i`. */
  predicate At(k: string, s: string, i: int) {
    0 <= i <= |s| - |k| && s[i..i + |k|] == k
  }

  /** Python's substring test `k in s`: the empty string occurs in every
      text, nothing occurs in a shorter text, and a text of the same length
      holds `k` only by being `k`. */
  predicate Occurs(k: string, s: string): (r: bool)
    ensures k == [] ==> r
    ensures r ==> |k| <= |s|
    ensures |k| == |s| ==> (r <==> k == s)
  {
    assert s[0..|s|] == s;
    assert k == [] ==> At(k, s, 0);
    assert |k| == |s| ==> (At(k, s, 0) <==> k == s);
    exists i | 0 <= i <= |s| - |k| :: At(k, s, i)
  }

  /** An occurrence inside a longer word is an occurrence. */
  lemma {:induction false} OccursInside(a: string, k: string, b: string)
    ensures Occurs(k, a + k + b)
  {
    assert At(k, a + k + b, |a|);
  }

  /** If some character of `k` never appears in `s`, then `k` does not occur in `s`. */
  lemma {:induction false} CharAbsent(k: string, s: string, j: int)
    requires 0 <= j < |k|
    requires forall i :: 0 <= i < |s| ==> s[i] != k[j]
    ensures !Occurs(k, s)
  {
    forall i | 0 <= i <= |s| - |k| ensures !At(k, s, i) {
      assert s[i..i + |k|][j] == s[i + j];
    }
  }

  /** If two adjacent characters of `k` never appear side by side in `s`,
      then `k` does not occur in `s`. */
  lemma {:induction false} PairAbsent(k: string, s: string, j: int)
    requires 0 <= j < |k| - 1
    requires forall i :: 0 <= i < |s| - 1 ==> !(s[i] == k[j] && s[i + 1] == k[j + 1])
    ensures !Occurs(k, s)
  {
    forall i | 0 <= i <= |s| - |k| ensures !At(k, s, i) {
      assert s[i..i + |k|][j] == s[i + j];
      assert s[i..i + |k|][j + 1] == s[i + j + 1];
    }
  }

  /** A word that contains no space cannot occur across a space that ends `a`. */
  lemma {:induction false} OccursAcrossSpace(k: string, a: string, b: string)
    requires |a| > 0 && a[|a| - 1] == ' '
    requires forall j :: 0 <= j < |k| ==> k[j] != ' '
    requires !Occurs(k, a) && !Occurs(k, b)
    ensures !Occurs(k, a + b)
  {
    var s := a + b;
    forall i | 0 <= i <= |s| - |k| ensures !At(k, s, i) {
      if i + |k| <= |a| {
        assert s[i..i + |k|] == a[i..i + |k|];
        assert !At(k, a, i);
      } else if i >= |a| {
        assert s[i..i + |k|] == b[i - |a|..i - |a| + |k|];
        assert !At(k, b, i - |a|);
      } else {
        assert s[i..i + |k|][|a| - 1 - i] == ' ';
      }
    }
  }

  /** `string.punctuation`: the 32 printable ASCII characters that are neither
      letters, digits nor whitespace. */
  const Punctuation: string := "!\"#$%&'()*+,-./:;<=>?@[\\]^_`{|}~"

  /** The four ASCII ranges between the digits and the letters. */
  predicate IsPunctuation(c: char) {
    ('!' <= c <= '/') || (':' <= c <= '@') || ('[' <= c <= '`') || ('{' <= c <= '~')
  }

  /** `string.punctuation` is exactly those four ranges. */
  lemma PunctuationRanges(c: char)
    ensures c in Punctuation <==> IsPunctuation(c)
  {
  }

  lemma PunctuationSize()
    ensures |Punctuation| == 32
  {
  }

  /** Upper-casing does not turn anything into, or out of, punctuation. */
  lemma UpperKeepsPunctuation(c: char)
    ensures IsPunctuation(UpperChar(c)) <==> IsPunctuation(c)
  {
  }
}
