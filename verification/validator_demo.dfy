/**
 The three sample inputs the validator module runs when executed as a script,
 with the verdicts its comments announce. Each sample is handled in halves:
 Dafny evaluates character facts of short literals directly.
 */
module ValidatorDemo {
  import opened Text
  import opened Validator

  /** An ASCII letter or a space. */
  predicate Plain(c: char) {
    ('a' <= c <= 'z') || ('A' <= c <= 'Z') || c == ' '
  }

  lemma PlainIsPunctuationFree(s: string)
    requires forall i :: 0 <= i < |s| ==> Plain(s[i])
    ensures PunctuationFree(s)
  {
  }

  // Test 1

  lemma DangerSampleSplit(t: string)
    requires t == "DROP TABLE users and all their data right now"
    ensures t == "DROP TABLE users and a" + "ll their data right now"
  {
  }

  lemma DangerSampleHalves(t: string)
    requires t == "DROP TABLE users and a" + "ll their data right now"
    ensures Trimmed(t) && |t| == 45 && t[..4] == "DROP"
  {
    var a, b := "DROP TABLE users and a", "ll their data right now";
    assert t[0] == a[0] && t[|t| - 1] == b[|b| - 1];
  }

  /** Test 1: a leading DROP is refused as unsafe, although the text is long enough. */
  lemma {:induction false} DemoDangerousKeyword()
    ensures ValidateAll(New("DROP TABLE users and all their data right now")) == (false, UnsafeMessage)
  {
    var t := "DROP TABLE users and all their data right now";
    DangerSampleSplit(t);
    DangerSampleHalves(t);
    StripTrimmed(t);
    assert Upper("DROP") == SqlWords[4];
    assert t == "" + "DROP" + t[4..];
    UnsafeIfSqlWord("", "DROP", t[4..]);
  }

  // Test 2

  /** Test 2: a short greeting is refused as too short. */
  lemma {:induction false} DemoTooShort()
    ensures ValidateAll(New("Hi there")) == (false, TooShortMessage)
  {
    StripTrimmed("Hi there");
  }

  // Test 3

  lemma FirstHalfPlain(a: string)
    requires a == "Tell me about the history "
    ensures forall i :: 0 <= i < |a| ==> Plain(a[i])
    ensures Upper(a) == "TELL ME ABOUT THE HISTORY "
  {
  }

  lemma SecondHalfPlain(b: string)
    requires b == "of artificial intelligence"
    ensures forall i :: 0 <= i < |b| ==> Plain(b[i])
    ensures Upper(b) == "OF ARTIFICIAL INTELLIGENCE"
  {
  }

  /** Marks every dangerous keyword carries: a `D` (DELETE, UPDATE, DROP),
      an adjacent `SE` (SELECT, INSERT), a `-` or a `;`. */
  predicate NoKeywordMarks(u: string) {
    && (forall i :: 0 <= i < |u| ==> u[i] != 'D' && u[i] != '-' && u[i] != ';')
    && (forall i :: 0 <= i < |u| - 1 ==> !(u[i] == 'S' && u[i + 1] == 'E'))
  }

  /** A text without those marks holds no dangerous keyword. */
  lemma {:induction false} KeywordFreeByMarks(u: string, j: int)
    requires NoKeywordMarks(u)
    requires 0 <= j < |DangerousKeywords|
    ensures !Occurs(DangerousKeywords[j], u)
  {
    var k := DangerousKeywords[j];
    if j == 0 {
      PairAbsent(k, u, 0);
    } else if j == 2 {
      PairAbsent(k, u, 2);
    } else if j == 3 {
      CharAbsent(k, u, 2);
    } else {
      CharAbsent(k, u, 0);
    }
  }

  /** Two texts without keyword marks, the first ending in a space, hold no
      dangerous keyword together: none fits across the space. */
  lemma {:induction false} KeywordFreeAcrossSpace(ua: string, ub: string)
    requires NoKeywordMarks(ua) && NoKeywordMarks(ub)
    requires |ua| > 0 && ua[|ua| - 1] == ' '
    ensures forall j :: 0 <= j < |DangerousKeywords| ==> !Occurs(DangerousKeywords[j], ua + ub)
  {
    forall j | 0 <= j < |DangerousKeywords| ensures !Occurs(DangerousKeywords[j], ua + ub) {
      KeywordFreeByMarks(ua, j);
      KeywordFreeByMarks(ub, j);
      OccursAcrossSpace(DangerousKeywords[j], ua, ub);
    }
  }

  lemma PlainConcat(a: string, b: string)
    requires forall i :: 0 <= i < |a| ==> Plain(a[i])
    requires forall i :: 0 <= i < |b| ==> Plain(b[i])
    ensures forall i :: 0 <= i < |a + b| ==> Plain((a + b)[i])
  {
    assert forall i :: |a| <= i < |a + b| ==> (a + b)[i] == b[i - |a|];
  }

  lemma FirstHalfMarks(ua: string)
    requires ua == "TELL ME ABOUT THE HISTORY "
    ensures NoKeywordMarks(ua) && ua[|ua| - 1] == ' '
  {
  }

  lemma SecondHalfMarks(ub: string)
    requires ub == "OF ARTIFICIAL INTELLIGENCE"
    ensures NoKeywordMarks(ub)
  {
  }

  /** The accepted sample is safe: neither half holds a keyword mark or
      punctuation, and no keyword can straddle the space that ends the first half. */
  lemma {:induction false} ValidSampleSafe(a: string, b: string)
    requires a == "Tell me about the history " && b == "of artificial intelligence"
    ensures Safe(a + b)
  {
    var ua, ub := "TELL ME ABOUT THE HISTORY ", "OF ARTIFICIAL INTELLIGENCE";
    FirstHalfPlain(a);
    SecondHalfPlain(b);
    PlainConcat(a, b);
    PlainIsPunctuationFree(a + b);
    UpperConcat(a, b);
    FirstHalfMarks(ua);
    SecondHalfMarks(ub);
    KeywordFreeAcrossSpace(ua, ub);
  }

  lemma ValidSampleSplit(t: string)
    requires t == "Tell me about the history of artificial intelligence"
    ensures t == "Tell me about the history " + "of artificial intelligence"
    ensures Trimmed(t)
  {
    var a, b := "Tell me about the history ", "of artificial intelligence";
    assert t == a + b;
    assert t[0] == a[0] && t[|t| - 1] == b[|b| - 1];
  }

  /** Test 3: an ordinary question is accepted. */
  lemma {:induction false} DemoValid()
    ensures ValidateAll(New("Tell me about the history of artificial intelligence")) == (true, SuccessMessage)
  {
    var t := "Tell me about the history of artificial intelligence";
    ValidSampleSplit(t);
    StripTrimmed(t);
    ValidSampleSafe("Tell me about the history ", "of artificial intelligence");
  }
}
