/** Normalisation and validation of the currency code a user types
    (lab4/lab4.py): `text.strip().upper()`, then `isalpha()` and length 3.
    Python's versions of these are Unicode-aware; this model restricts all
    three to ASCII. */
module CurrencyCode {

  /** The ASCII characters Python's `str.strip()` removes: tab, line feed,
      vertical tab, form feed, carriage return, the four separators
      0x1C-0x1F and space. */
  predicate IsSpace(ch: char) {
    var n := ch as int;
    (9 <= n <= 13) || (28 <= n <= 31) || n == 32
  }

  predicate IsLower(ch: char) {
    'a' <= ch <= 'z'
  }

  predicate IsLetter(ch: char) {
    'A' <= ch <= 'Z' || IsLower(ch)
  }

  /** The index of the first non-whitespace character of `s` at or after
      `i`, or `|s|` when there is none: leading whitespace ends there. */
  function SkipSpaces(s: string, i: nat): (j: nat)
    requires i <= |s|
    ensures i <= j <= |s|
    ensures forall k :: i <= k < j ==> IsSpace(s[k])
    ensures j == |s| || !IsSpace(s[j])
    decreases |s| - i
  {
    if i < |s| && IsSpace(s[i]) then SkipSpaces(s, i + 1) else i
  }

  /** The index just past the last non-whitespace character of `s[lo..hi]`,
      or `lo` when there is none: trailing whitespace starts there. */
  function SkipSpacesBack(s: string, lo: nat, hi: nat): (j: nat)
    requires lo <= hi <= |s|
    ensures lo <= j <= hi
    ensures forall k :: j <= k < hi ==> IsSpace(s[k])
    ensures j == lo || !IsSpace(s[j - 1])
    decreases hi - lo
  {
    if lo < hi && IsSpace(s[hi - 1]) then SkipSpacesBack(s, lo, hi - 1) else hi
  }

  /** `r` is the slice of `s` starting at `i`, and everything of `s` before
      and after that slice is whitespace. */
  predicate SliceWithinSpaces(s: string, r: string, i: int) {
    && 0 <= i <= |s| - |r|
    && r == s[i..i + |r|]
    && (forall k :: 0 <= k < i ==> IsSpace(s[k]))
    && (forall k :: i + |r| <= k < |s| ==> IsSpace(s[k]))
  }

  /** `str.strip()` with no argument: the result is a contiguous slice of
      `s` with nothing but whitespace around it, and it neither starts nor
      ends with whitespace. */
  function Strip(s: string): (r: string)
    ensures |r| <= |s|
    ensures exists i :: SliceWithinSpaces(s, r, i)
    ensures r == [] || (!IsSpace(r[0]) && !IsSpace(r[|r| - 1]))
  {
    var i := SkipSpaces(s, 0);
    var j := SkipSpacesBack(s, i, |s|);
    assert SliceWithinSpaces(s, s[i..j], i);
    s[i..j]
  }

  /** Upper-casing one character: a lower-case letter becomes the capital at
      the same position in the alphabet. */
  function UpperChar(ch: char): (u: char)
    ensures !IsLower(u)
    ensures IsLower(ch) ==> 'A' <= u <= 'Z' && u as int - 'A' as int == ch as int - 'a' as int
    ensures IsLetter(u) <==> IsLetter(ch)
    ensures IsSpace(u) <==> IsSpace(ch)
    ensures !IsLower(ch) ==> u == ch
  {
    if IsLower(ch) then (ch as int - 32) as char else ch
  }

  /** `str.upper()`: lower-case letters become capitals, nothing else moves. */
  function Upper(s: string): (r: string)
    ensures |r| == |s|
    ensures forall i :: 0 <= i < |r| ==> !IsLower(r[i])
    ensures forall i :: 0 <= i < |r| ==> (IsLetter(r[i]) <==> IsLetter(s[i]))
    ensures forall i :: 0 <= i < |r| ==> (IsSpace(r[i]) <==> IsSpace(s[i]))
    ensures forall i :: 0 <= i < |r| && !IsLower(s[i]) ==> r[i] == s[i]
    ensures forall i :: 0 <= i < |r| && IsLower(s[i]) ==>
              'A' <= r[i] <= 'Z' && r[i] as int - 'A' as int == s[i] as int - 'a' as int
  {
    seq(|s|, i requires 0 <= i < |s| => UpperChar(s[i]))
  }

  /** `x` and `y` are the same character once letter case is ignored. */
  predicate SameIgnoringCase(x: char, y: char) {
    || x == y
    || (IsLower(x) && 'A' <= y <= 'Z' && y as int - 'A' as int == x as int - 'a' as int)
    || (IsLower(y) && 'A' <= x <= 'Z' && x as int - 'A' as int == y as int - 'a' as int)
  }

  /** Strings that differ only in letter case upper-case to the same string,
      so "usd", "Usd" and "USD" name one currency. */
  lemma UpperIgnoresCase(s: string, t: string)
    requires |s| == |t|
    requires forall i :: 0 <= i < |s| ==> SameIgnoringCase(s[i], t[i])
    ensures Upper(s) == Upper(t)
  {
  }

  /** Letter case never turns a character into whitespace or back. */
  lemma SameIgnoringCaseKeepsSpace(x: char, y: char)
    requires SameIgnoringCase(x, y)
    ensures IsSpace(x) <==> IsSpace(y)
  {
  }

  /** Texts with whitespace at the same positions lose the same leading run:
      SkipSpaces's contract fixes the index uniquely. */
  lemma SkipSpacesAgree(s: string, t: string, i: nat)
    requires |s| == |t| && i <= |s|
    requires forall k :: 0 <= k < |s| ==> (IsSpace(s[k]) <==> IsSpace(t[k]))
    ensures SkipSpaces(s, i) == SkipSpaces(t, i)
  {
  }

  /** Texts with whitespace at the same positions lose the same trailing run:
      SkipSpacesBack's contract fixes the index uniquely. */
  lemma SkipSpacesBackAgree(s: string, t: string, lo: nat, hi: nat)
    requires |s| == |t| && lo <= hi <= |s|
    requires forall k :: 0 <= k < |s| ==> (IsSpace(s[k]) <==> IsSpace(t[k]))
    ensures SkipSpacesBack(s, lo, hi) == SkipSpacesBack(t, lo, hi)
  {
  }

  /** The normalisation every typed currency name goes through first: no
      surrounding whitespace and no lower-case letter is left. */
  function Normalize(text: string): (r: string)
    ensures |r| <= |text|
    ensures r == [] || (!IsSpace(r[0]) && !IsSpace(r[|r| - 1]))
    ensures forall i :: 0 <= i < |r| ==> !IsLower(r[i])
  {
    Upper(Strip(text))
  }

  /** The accepted form of a currency name: exactly three letters. */
  predicate IsCode(s: string) {
    |s| == 3 && forall i :: 0 <= i < |s| ==> IsLetter(s[i])
  }

  /** The test of process_currency_name: `isalpha()` (true only on a
      non-empty all-letter string) and length 3. */
  predicate Acceptable(text: string)
    ensures Acceptable(text) <==> IsCode(Normalize(text))
    ensures Acceptable(text) <==> IsCode(Strip(text))
  {
    var name := Normalize(text);
    |name| > 0 && (forall i :: 0 <= i < |name| ==> IsLetter(name[i])) && |name| == 3
  }

  /** A name that passes the test is an upper-case code. */
  lemma AcceptedIsUpperCode(text: string)
    requires Acceptable(text)
    ensures IsCode(Normalize(text))
    ensures forall i :: 0 <= i < 3 ==> 'A' <= Normalize(text)[i] <= 'Z'
  {
  }

  /** Stripping a string without surrounding whitespace changes nothing. */
  lemma StripUnchanged(s: string)
    requires s == [] || (!IsSpace(s[0]) && !IsSpace(s[|s| - 1]))
    ensures Strip(s) == s
  {
    assert SkipSpaces(s, 0) == 0;
    assert s[0..|s|] == s;
  }

  lemma UpperIdempotent(s: string)
    ensures Upper(Upper(s)) == Upper(s)
  {
    var u := Upper(s);
    assert forall i :: 0 <= i < |u| ==> Upper(u)[i] == u[i];
  }

  /** Texts that differ only in letter case normalise to the same name, so
      " usd", "Usd" and "USD" select one currency. */
  lemma {:induction false} NormalizeIgnoresCase(s: string, t: string)
    requires |s| == |t|
    requires forall k :: 0 <= k < |s| ==> SameIgnoringCase(s[k], t[k])
    ensures Normalize(s) == Normalize(t)
  {
    forall k | 0 <= k < |s|
      ensures IsSpace(s[k]) <==> IsSpace(t[k])
    {
      SameIgnoringCaseKeepsSpace(s[k], t[k]);
    }
    var i := SkipSpaces(s, 0);
    SkipSpacesAgree(s, t, 0);
    SkipSpacesBackAgree(s, t, i, |s|);
    var j := SkipSpacesBack(s, i, |s|);
    assert Strip(s) == s[i..j] && Strip(t) == t[i..j];
    UpperIgnoresCase(s[i..j], t[i..j]);
  }

  /** Normalising an already normalised name gives it back: typing the name
      as the bot echoes it selects the same currency. */
  lemma {:induction false} NormalizeIdempotent(text: string)
    ensures Normalize(Normalize(text)) == Normalize(text)
  {
    var n := Normalize(text);
    StripUnchanged(n);
    UpperIdempotent(Strip(text));
  }

  /** Surrounding whitespace and letter case do not matter. */
  lemma NormalizeExamples()
    ensures Normalize(" usd\n") == "USD"
    ensures Acceptable(" eur ")
  {
    assert SkipSpaces(" usd\n", 0) == 1;
    assert SkipSpacesBack(" usd\n", 1, 5) == 4;
    assert Strip(" usd\n") == "usd";
    assert SkipSpaces(" eur ", 0) == 1;
    assert SkipSpacesBack(" eur ", 1, 5) == 4;
    assert Strip(" eur ") == "eur";
  }

  /** Too short, a digit, or a command: each is refused as a name. */
  lemma RefusedExamples()
    ensures !Acceptable("US")
    ensures !Acceptable("US1")
    ensures !Acceptable("/convert")
  {
    StripUnchanged("US1");
    assert !IsLetter(Normalize("US1")[2]);
    StripUnchanged("/convert");
    assert !IsLetter(Normalize("/convert")[0]);
  }
}
