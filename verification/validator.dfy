/**
 The `InputValidator` class: a user-submitted text is stripped on
 construction, then judged on its length and on whether it contains SQL
 keywords, SQL comment/terminator tokens or punctuation.
 */
module Validator {
  import opened Text

  /** The threshold `validate_all` applies (the default of `is_long_enough`). */
  const DefaultMinChars: int := 20

  /** `DANGEROUS_KEYWORDS`, in the order `is_safe` tries them. */
  const DangerousKeywords: seq<string> := ["SELECT", "DELETE", "INSERT", "UPDATE", "DROP", "--", ";"]

  /** The five SQL words among the dangerous keywords. */
  const SqlWords: seq<string> := DangerousKeywords[..5]

  const TooShortMessage: string := "Error: Input is too short. Minimum 20 characters required."
  const UnsafeMessage: string := "Error: Input contains unsafe keywords or punctuation."
  const SuccessMessage: string := "Input validated successfully."

  /** A text with no whitespace at either end. */
  type StrippedText = s: string | Trimmed(s) witness ""

  /** An `InputValidator` instance: its one attribute is the stripped input. */
  datatype InputValidator = InputValidator(text: StrippedText)

  /** The constructor: keeps the input with surrounding whitespace removed. */
  function New(raw: string): (v: InputValidator)
    ensures Trims(raw, v.text)
    ensures Strip(v.text) == v.text
  {
    StripIdempotent(raw);
    InputValidator(Strip(raw))
  }

  /** `is_long_enough(min_chars)`: the stripped text is at least `minChars`
      characters long; any threshold at or below zero is met even by an empty text. */
  predicate IsLongEnough(v: InputValidator, minChars: int): (r: bool)
    ensures minChars <= 0 ==> r
    ensures r <==> minChars <= |v.text|
  {
    |v.text| >= minChars
  }

  /** A threshold that is met stays met when lowered. */
  lemma LongEnoughMonotone(v: InputValidator, m: int, m': int)
    requires m' <= m && IsLongEnough(v, m)
    ensures IsLongEnough(v, m')
  {
  }

  /** No dangerous keyword is a substring of the upper-cased text. */
  predicate KeywordFree(text: string) {
    forall j :: 0 <= j < |DangerousKeywords| ==> !Occurs(DangerousKeywords[j], Upper(text))
  }

  /** No character of the text is punctuation. */
  predicate PunctuationFree(text: string) {
    forall i :: 0 <= i < |text| ==> !IsPunctuation(text[i])
  }

  /** What `is_safe` decides. A safe text holds none of the five SQL words in
      upper-cased form, and the empty text is safe. */
  predicate Safe(text: string): (r: bool)
    ensures r ==> forall j :: 0 <= j < |SqlWords| ==> !Occurs(SqlWords[j], Upper(text))
    ensures text == [] ==> r
  {
    KeywordFree(text) && PunctuationFree(text)
  }

  /** `is_safe`: tries each keyword against the upper-cased text, then each
      character against the punctuation set, returning as soon as one hits. */
  method IsSafe(v: InputValidator) returns (safe: bool)
    ensures safe <==> Safe(v.text)
  {
    var upper := Upper(v.text);
    var j := 0;
    while j < |DangerousKeywords|
      invariant 0 <= j <= |DangerousKeywords|
      invariant forall j' :: 0 <= j' < j ==> !Occurs(DangerousKeywords[j'], upper)
    {
      if Occurs(DangerousKeywords[j], upper) {
        return false;
      }
      j := j + 1;
    }
    var i := 0;
    while i < |v.text|
      invariant 0 <= i <= |v.text|
      invariant forall i' :: 0 <= i' < i ==> !IsPunctuation(v.text[i'])
    {
      PunctuationRanges(v.text[i]);
      if v.text[i] in Punctuation {
        return false;
      }
      i := i + 1;
    }
    return true;
  }

  /** Any punctuation character makes a text unsafe. */
  lemma UnsafeIfPunctuation(text: string, i: int)
    requires 0 <= i < |text| && text[i] in Punctuation
    ensures !Safe(text)
  {
    PunctuationRanges(text[i]);
  }

  /** A SQL word makes a text unsafe in any letter case, even inside a longer word. */
  lemma {:induction false} UnsafeIfSqlWord(pre: string, w: string, post: string)
    requires Upper(w) in SqlWords
    ensures !KeywordFree(pre + w + post)
  {
    var k := Upper(w);
    UpperConcat(pre + w, post);
    UpperConcat(pre, w);
    OccursInside(Upper(pre), k, Upper(post));
    var j :| 0 <= j < 5 && SqlWords[j] == k;
    assert DangerousKeywords[j] == k;
  }

  /** The `--` and `;` entries never decide anything: both are made of
      punctuation, so a text is safe exactly when none of the five SQL words
      occurs in its upper-cased form and none of its characters is punctuation. */
  lemma {:induction false} SafeExactly(text: string)
    ensures Safe(text) <==>
      (forall j :: 0 <= j < |SqlWords| ==> !Occurs(SqlWords[j], Upper(text))) && PunctuationFree(text)
  {
    if PunctuationFree(text) {
      var u := Upper(text);
      forall i | 0 <= i < |u| ensures u[i] != '-' && u[i] != ';' {
        UpperKeepsPunctuation(text[i]);
      }
      CharAbsent("--", u, 0);
      CharAbsent(";", u, 0);
      assert DangerousKeywords[5] == "--" && DangerousKeywords[6] == ";";
    }
  }

  /** Safety does not depend on the letter case of the input. */
  lemma {:induction false} SafeIgnoresCase(text: string)
    ensures Safe(Upper(text)) <==> Safe(text)
  {
    UpperIdempotent(text);
    forall i | 0 <= i < |text| ensures IsPunctuation(Upper(text)[i]) == IsPunctuation(text[i]) {
      UpperKeepsPunctuation(text[i]);
    }
  }

  /** `validate_all`: length first, then safety. */
  function ValidateAll(v: InputValidator): (r: (bool, string))
    ensures r.0 <==> |v.text| >= DefaultMinChars && Safe(v.text)
    ensures r.0 <==> r.1 == SuccessMessage
    ensures !r.0 ==> r.1 == TooShortMessage || r.1 == UnsafeMessage
    ensures |v.text| < DefaultMinChars ==> r == (false, TooShortMessage)
    ensures |v.text| >= DefaultMinChars && !Safe(v.text) ==> r == (false, UnsafeMessage)
  {
    if !IsLongEnough(v, DefaultMinChars) then
      (false, TooShortMessage)
    else if !Safe(v.text) then
      (false, UnsafeMessage)
    else
      (true, SuccessMessage)
  }

  /** Whitespace around the raw input never changes the verdict or the message. */
  lemma {:induction false} ValidateIgnoresPadding(pre: string, s: string, post: string)
    requires AllSpace(pre) && AllSpace(post)
    ensures ValidateAll(New(pre + s + post)) == ValidateAll(New(s))
  {
    StripIgnoresPadding(pre, s, post);
  }
}
