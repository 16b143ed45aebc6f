// The JavaScript regular expressions the password and form validators test,
// written as predicates on strings. `.` matches anything but the four line
// terminators; a character class such as `[^A-Za-z0-9]` matches them; without
// the `m` flag `^` and `$` are the ends of the whole string; and the `i` flag
// folds only ASCII letters onto ASCII letters.

module TextPatterns {
  import opened Common

  /** `s[i..j]` holds no line terminator: `.*` can cross it. */
  predicate OnOneLine(s: string, i: int, j: int)
    requires 0 <= i <= j <= |s|
  {
    forall k :: i <= k < j ==> !IsLineTerminator(s[k])
  }

  /** The string has no line terminator at all. */
  predicate SingleLine(s: string)
  {
    forall k :: 0 <= k < |s| ==> !IsLineTerminator(s[k])
  }

  /** `n` characters from `i` with no line terminator among them. */
  predicate LineRunAt(s: string, i: int, n: nat)
  {
    0 <= i && i + n <= |s| && OnOneLine(s, i, i + n)
  }

  /** `/.{n,}/`: some `n` consecutive characters on one line. */
  predicate AtLeastOnLine(s: string, n: nat)
  {
    exists i :: 0 <= i <= |s| && LineRunAt(s, i, n)
  }

  /** On a single line, `/.{n,}/` is a length test. */
  lemma AtLeastOnLineIsLength(s: string, n: nat)
    requires SingleLine(s)
    ensures AtLeastOnLine(s, n) <==> |s| >= n
  {
    if |s| >= n {
      assert LineRunAt(s, 0, n);
    }
  }

  /** `[^A-Za-z0-9]`: anything but an ASCII letter or digit, line terminators included. */
  predicate IsSpecial(c: char)
  {
    !IsAlnum(c)
  }

  /** `/p.*p/`: two matching characters with only non-terminators between them. */
  predicate TwoOnLine(s: string, p: char -> bool)
  {
    exists i, j :: 0 <= i < j < |s| && p(s[i]) && p(s[j]) && OnOneLine(s, i + 1, j)
  }

  /** `/p.*p.*p/`: three matching characters, each gap on one line. */
  predicate ThreeOnLine(s: string, p: char -> bool)
  {
    exists i, j, k :: 0 <= i < j < k < |s| && p(s[i]) && p(s[j]) && p(s[k]) && OnOneLine(s, i + 1, j) && OnOneLine(s, j + 1, k)
  }

  /** On a single line, the gaps do not matter: two (three) matching characters anywhere suffice. */
  lemma OnLineIsCount(s: string, p: char -> bool)
    requires SingleLine(s)
    ensures TwoOnLine(s, p) <==> exists i, j :: 0 <= i < j < |s| && p(s[i]) && p(s[j])
    ensures ThreeOnLine(s, p) <==> exists i, j, k :: 0 <= i < j < k < |s| && p(s[i]) && p(s[j]) && p(s[k])
  {
    TwoOnLineIsCount(s, p);
    ThreeOnLineIsCount(s, p);
  }

  lemma TwoOnLineIsCount(s: string, p: char -> bool)
    requires SingleLine(s)
    ensures TwoOnLine(s, p) <==> exists i, j :: 0 <= i < j < |s| && p(s[i]) && p(s[j])
  {
    if exists i, j :: 0 <= i < j < |s| && p(s[i]) && p(s[j]) {
      var i, j :| 0 <= i < j < |s| && p(s[i]) && p(s[j]);
      assert OnOneLine(s, i + 1, j);
    }
  }

  lemma ThreeOnLineIsCount(s: string, p: char -> bool)
    requires SingleLine(s)
    ensures ThreeOnLine(s, p) <==> exists i, j, k :: 0 <= i < j < k < |s| && p(s[i]) && p(s[j]) && p(s[k])
  {
    if exists i, j, k :: 0 <= i < j < k < |s| && p(s[i]) && p(s[j]) && p(s[k]) {
      var i, j, k :| 0 <= i < j < k < |s| && p(s[i]) && p(s[j]) && p(s[k]);
      assert OnOneLine(s, i + 1, j) && OnOneLine(s, j + 1, k);
    }
  }

  /** A character other than a line terminator repeated three times from `i`: `(.)\1\1`. */
  predicate TripleAt(s: string, i: int)
  {
    0 <= i && i + 2 < |s| && s[i] == s[i + 1] && s[i + 1] == s[i + 2] && !IsLineTerminator(s[i])
  }

  /** `/(.)\1{2,}/`: a triple anywhere. */
  predicate HasTriple(s: string)
  {
    exists i :: 0 <= i < |s| && TripleAt(s, i)
  }

  /** `/^(?!.*(.)\1{2,})/`: the lookahead runs from the start, so only a triple on the first line fails it. */
  predicate NoTripleOnFirstLine(s: string)
  {
    !exists i :: 0 <= i < |s| && TripleAt(s, i) && OnOneLine(s, 0, i)
  }

  /** The first-line test is weaker than the anywhere test, and the same on a single line. */
  lemma TripleTests(s: string)
    ensures !NoTripleOnFirstLine(s) ==> HasTriple(s)
    ensures SingleLine(s) ==> (NoTripleOnFirstLine(s) <==> !HasTriple(s))
  {
  }

  /** After a line break, a triple escapes the first-line test. */
  lemma TripleAfterBreak()
    ensures NoTripleOnFirstLine("x\naaa") && HasTriple("x\naaa")
  {
    var s := "x\naaa";
    assert TripleAt(s, 2);
    assert !OnOneLine(s, 0, 2) by { assert IsLineTerminator(s[1]); }
    forall i | TripleAt(s, i) ensures !OnOneLine(s, 0, i) {
      assert i == 2;
    }
  }

  /** The lower-cased word `w` occurs in `s` starting at `i`, and that occurrence is on the first line. */
  predicate OccursOnFirstLine(s: string, w: string, i: int)
  {
    0 <= i && i + |w| <= |s| && OnOneLine(s, 0, i + |w|) && Lower(s)[i..i + |w|] == w
  }

  /** `/^(?!.*(?:password|123|abc|qwerty))/i`. */
  predicate NoCommonPattern(s: string)
  {
    !exists i :: 0 <= i <= |s| &&
      (OccursOnFirstLine(s, "password", i) || OccursOnFirstLine(s, "123", i) ||
       OccursOnFirstLine(s, "abc", i) || OccursOnFirstLine(s, "qwerty", i))
  }

  lemma OccursIsIncludes(s: string, w: string)
    requires SingleLine(s)
    ensures (exists i :: OccursOnFirstLine(s, w, i)) <==> Includes(Lower(s), w)
  {
    var l := Lower(s);
    if exists i :: OccursOnFirstLine(s, w, i) {
      var i :| OccursOnFirstLine(s, w, i);
      assert l[i..][..|w|] == l[i..i + |w|];
      assert StartsWith(l[i..], w);
    }
    if Includes(l, w) {
      var i :| 0 <= i <= |l| && StartsWith(l[i..], w);
      assert l[i..][..|w|] == l[i..i + |w|];
      assert OccursOnFirstLine(s, w, i);
    }
  }

  /** On a single line, the common-pattern rule fails exactly on a case-insensitive occurrence of one of the four words. */
  lemma NoCommonPatternIsIncludes(s: string)
    requires SingleLine(s)
    ensures NoCommonPattern(s) <==>
      !Includes(Lower(s), "password") && !Includes(Lower(s), "123") &&
      !Includes(Lower(s), "abc") && !Includes(Lower(s), "qwerty")
  {
    OccursIsIncludes(s, "password");
    OccursIsIncludes(s, "123");
    OccursIsIncludes(s, "abc");
    OccursIsIncludes(s, "qwerty");
  }

  /** `/^[A-Za-z]+$/`. */
  predicate OnlyLetters(s: string)
  {
    |s| > 0 && forall k :: 0 <= k < |s| ==> IsLetter(s[k])
  }

  /** `/^[0-9]+$/`. */
  predicate OnlyDigits(s: string)
  {
    |s| > 0 && forall k :: 0 <= k < |s| ==> IsDigit(s[k])
  }

  /** `/^[a-zA-Z0-9_]+$/`. */
  predicate IsWordString(s: string)
  {
    |s| > 0 && forall k :: 0 <= k < |s| ==> IsAlnum(s[k]) || s[k] == '_'
  }

  /** `[A-Z0-9._%+-]` under the `i` flag. */
  predicate IsEmailLocalChar(c: char)
  {
    IsAlnum(c) || c == '.' || c == '_' || c == '%' || c == '+' || c == '-'
  }

  /** `[A-Z0-9.-]` under the `i` flag. */
  predicate IsEmailDomainChar(c: char)
  {
    IsAlnum(c) || c == '.' || c == '-'
  }

  /**
   * `/^[A-Z0-9._%+-]+@[A-Z0-9.-]+\.[A-Z]{2,}$/i`: a non-empty local part,
   * `@` at `a`, a non-empty domain, `.` at `d`, then two letters or more to
   * the end.
   */
  predicate EmailPattern(s: string)
  {
    exists a, d :: 0 <= a < |s| && 0 <= d < |s| && EmailSplit(s, a, d)
  }

  predicate EmailSplit(s: string, a: int, d: int)
  {
    0 < a && a + 1 < d && d + 2 < |s| && s[a] == '@' && s[d] == '.' &&
    (forall k :: 0 <= k < a ==> IsEmailLocalChar(s[k])) &&
    (forall k :: a < k < d ==> IsEmailDomainChar(s[k])) &&
    (forall k :: d < k < |s| ==> IsLetter(s[k]))
  }

  /** Every string the email pattern accepts contains a `.`. */
  lemma EmailHasDot(s: string)
    requires EmailPattern(s)
    ensures Includes(s, ".")
  {
    var a, d :| 0 <= a < |s| && 0 <= d < |s| && EmailSplit(s, a, d);
    assert s[d..][..1] == [s[d]];
    assert StartsWith(s[d..], ".");
  }

  /** The address split is unique: `@` occurs only once, and the last `.` ends the domain. */
  lemma EmailSplitUnique(s: string, a: int, d: int, a': int, d': int)
    requires EmailSplit(s, a, d) && EmailSplit(s, a', d')
    ensures a == a' && d == d'
  {
    assert forall k :: a < k < |s| ==> s[k] != '@';
    assert forall k :: a' < k < |s| ==> s[k] != '@';
    assert forall k :: d < k < |s| ==> s[k] != '.';
    assert forall k :: d' < k < |s| ==> s[k] != '.';
  }
}
