// The password policy of src/services/passwordPolicy.ts: eleven requirements
// in three cumulative levels, a 0-100 score with bonus points, a list of
// feedback items and the validity verdict.

module PasswordPolicy {
  import opened Common
  import opened TextPatterns
  import BruteForce

  type Complexity = BruteForce.Complexity

  /** What each requirement's regular expression tests. */
  datatype Check =
    | MinLength(n: nat)   // `/.{n,}/`
    | AnyDigit            // `/[0-9]/`
    | AnyLower            // `/[a-z]/`
    | AnyUpper            // `/[A-Z]/`
    | AnySpecial          // `/[^A-Za-z0-9]/`
    | NoTriple            // `/^(?!.*(.)\1{2,})/`
    | TwoDigits           // `/(?=.*[0-9].*[0-9])/`
    | TwoSpecials         // `/(?=.*[^A-Za-z0-9].*[^A-Za-z0-9])/`
    | NoCommonWord        // `/^(?!.*(?:password|123|abc|qwerty))/i`

  predicate Meets(c: Check, s: string)
  {
    match c
    case MinLength(n) => AtLeastOnLine(s, n)
    case AnyDigit => ContainsChar(s, IsDigit)
    case AnyLower => ContainsChar(s, IsLower)
    case AnyUpper => ContainsChar(s, IsUpper)
    case AnySpecial => ContainsChar(s, IsSpecial)
    case NoTriple => NoTripleOnFirstLine(s)
    case TwoDigits => TwoOnLine(s, IsDigit)
    case TwoSpecials => TwoOnLine(s, IsSpecial)
    case NoCommonWord => NoCommonPattern(s)
  }

  /** The message shown for a requirement. */
  function Message(c: Check): string
  {
    match c
    case MinLength(n) => "At least " + NatToString(n) + " characters"
    case AnyDigit => "At least one number"
    case AnyLower => "At least one lowercase letter"
    case AnyUpper => "At least one uppercase letter"
    case AnySpecial => "At least one special character"
    case NoTriple => "No character repeated more than twice in a row"
    case TwoDigits => "At least two numbers"
    case TwoSpecials => "At least two special characters"
    case NoCommonWord => "Must not contain common patterns"
  }

  datatype Requirement = Requirement(check: Check, level: Complexity)

  /** `PASSWORD_REQUIREMENTS`, in table order; each message is `Message(check)`. */
  const Requirements: seq<Requirement> := NormalBlock + EnhancedBlock + MaximumBlock

  /** The table's normal-level rows. */
  const NormalBlock: seq<Requirement> := [
    Requirement(MinLength(8), BruteForce.Normal),
    Requirement(AnyDigit, BruteForce.Normal),
    Requirement(AnyLower, BruteForce.Normal),
    Requirement(AnyUpper, BruteForce.Normal)
  ]

  /** The table's enhanced-level rows. */
  const EnhancedBlock: seq<Requirement> := [
    Requirement(MinLength(12), BruteForce.Enhanced),
    Requirement(AnySpecial, BruteForce.Enhanced),
    Requirement(NoTriple, BruteForce.Enhanced)
  ]

  /** The table's maximum-level rows. */
  const MaximumBlock: seq<Requirement> := [
    Requirement(MinLength(16), BruteForce.Maximum),
    Requirement(TwoDigits, BruteForce.Maximum),
    Requirement(TwoSpecials, BruteForce.Maximum),
    Requirement(NoCommonWord, BruteForce.Maximum)
  ]

  /** `COMPROMISED_PASSWORDS`, compared with the lower-cased password. */
  const CompromisedPasswords: set<string> := {"password123", "admin123", "letmein123"}

  predicate IsCompromised(s: string)
  {
    Lower(s) in CompromisedPasswords
  }

  /** The filter on levels: normal keeps its own, enhanced adds its own, maximum keeps all. */
  predicate Applies(level: Complexity, complexity: Complexity)
  {
    if complexity.Normal? then level.Normal?
    else if complexity.Enhanced? then level.Normal? || level.Enhanced?
    else true
  }

  function ActiveIn(reqs: seq<Requirement>, complexity: Complexity): (r: seq<Requirement>)
    ensures |r| <= |reqs|
  {
    if reqs == [] then []
    else if Applies(reqs[0].level, complexity) then [reqs[0]] + ActiveIn(reqs[1..], complexity)
    else ActiveIn(reqs[1..], complexity)
  }

  function Active(complexity: Complexity): seq<Requirement>
  {
    ActiveIn(Requirements, complexity)
  }

  lemma {:induction false} ActiveInAppend(a: seq<Requirement>, b: seq<Requirement>, c: Complexity)
    ensures ActiveIn(a + b, c) == ActiveIn(a, c) + ActiveIn(b, c)
  {
    if a == [] {
      assert a + b == b;
    } else {
      assert (a + b)[0] == a[0] && (a + b)[1..] == a[1..] + b;
      ActiveInAppend(a[1..], b, c);
    }
  }

  lemma {:induction false} ActiveInUniform(reqs: seq<Requirement>, c: Complexity, on: bool)
    requires forall i :: 0 <= i < |reqs| ==> Applies(reqs[i].level, c) == on
    ensures ActiveIn(reqs, c) == if on then reqs else []
  {
    if reqs != [] {
      ActiveInUniform(reqs[1..], c, on);
    }
  }

  /** The table lists four normal, then three enhanced, then four maximum requirements. */
  lemma TableLevels()
    ensures |Requirements| == 11
    ensures Requirements[..4] == NormalBlock && Requirements[4..7] == EnhancedBlock && Requirements[7..] == MaximumBlock
    ensures forall i :: 0 <= i < 4 ==> Requirements[i].level.Normal?
    ensures forall i :: 4 <= i < 7 ==> Requirements[i].level.Enhanced?
    ensures forall i :: 7 <= i < 11 ==> Requirements[i].level.Maximum?
  {
    assert Requirements[4..7] == (NormalBlock + EnhancedBlock)[4..];
  }

  /** Splitting the table into its three level blocks. */
  lemma ActiveByBlocks(c: Complexity)
    ensures Active(c) == ActiveIn(NormalBlock, c) + ActiveIn(EnhancedBlock, c) + ActiveIn(MaximumBlock, c)
  {
    ActiveInAppend(NormalBlock + EnhancedBlock, MaximumBlock, c);
    ActiveInAppend(NormalBlock, EnhancedBlock, c);
  }

  /** Normal switches on the first four requirements. */
  lemma ActiveNormal()
    ensures Active(BruteForce.Normal) == Requirements[..4]
  {
    var c := BruteForce.Normal;
    TableLevels();
    ActiveByBlocks(c);
    ActiveInUniform(NormalBlock, c, true);
    ActiveInUniform(EnhancedBlock, c, false);
    ActiveInUniform(MaximumBlock, c, false);
    assert Active(c) == NormalBlock + [] + [];
  }

  /** Enhanced adds the next three. */
  lemma ActiveEnhanced()
    ensures Active(BruteForce.Enhanced) == Requirements[..7]
  {
    var c := BruteForce.Enhanced;
    TableLevels();
    ActiveByBlocks(c);
    ActiveInUniform(NormalBlock, c, true);
    ActiveInUniform(EnhancedBlock, c, true);
    ActiveInUniform(MaximumBlock, c, false);
    assert Active(c) == NormalBlock + EnhancedBlock + [];
    assert Requirements[..7] == NormalBlock + EnhancedBlock;
  }

  /** Maximum keeps the whole table. */
  lemma ActiveMaximum()
    ensures Active(BruteForce.Maximum) == Requirements
  {
    ActiveInUniform(Requirements, BruteForce.Maximum, true);
  }

  /** The levels are cumulative, with four, seven and eleven requirements. */
  lemma ActiveRequirementsAreCumulative()
    ensures |Active(BruteForce.Normal)| == 4 && |Active(BruteForce.Enhanced)| == 7 && |Active(BruteForce.Maximum)| == 11
    ensures forall q :: q in Active(BruteForce.Normal) ==> q in Active(BruteForce.Enhanced)
    ensures forall q :: q in Active(BruteForce.Enhanced) ==> q in Active(BruteForce.Maximum)
  {
    TableLevels();
    ActiveNormal();
    ActiveEnhanced();
    ActiveMaximum();
  }

  lemma ActiveNonEmpty(c: Complexity)
    ensures |Active(c)| >= 4
  {
    ActiveRequirementsAreCumulative();
  }

  datatype RequirementResult = RequirementResult(message: string, met: bool)

  /** `activeRequirements.map(req => ({ ..., met: req.regex.test(password) }))`. */
  function Results(reqs: seq<Requirement>, s: string): (r: seq<RequirementResult>)
    ensures |r| == |reqs|
  {
    seq(|reqs|, i requires 0 <= i < |reqs| => RequirementResult(Message(reqs[i].check), Meets(reqs[i].check, s)))
  }

  function CountMet(rs: seq<RequirementResult>): (n: nat)
    ensures n <= |rs|
  {
    if rs == [] then 0 else CountMet(rs[..|rs| - 1]) + (if rs[|rs| - 1].met then 1 else 0)
  }

  /** Every requirement is met exactly when the count reaches the number of requirements. */
  lemma {:induction false} CountMetAll(rs: seq<RequirementResult>)
    ensures CountMet(rs) == |rs| <==> forall i :: 0 <= i < |rs| ==> rs[i].met
  {
    if rs != [] {
      var init := rs[..|rs| - 1];
      CountMetAll(init);
      if forall i :: 0 <= i < |rs| ==> rs[i].met {
        assert forall i :: 0 <= i < |init| ==> init[i].met by {
          forall i | 0 <= i < |init| ensures init[i].met { assert init[i] == rs[i]; }
        }
      }
    }
  }

  /** The bonus points: a long password, three special characters, three digits. */
  function Bonus(s: string): (b: int)
    ensures 0 <= b <= 20
  {
    (if |s| > 20 then 10 else 0) +
    (if ThreeOnLine(s, IsSpecial) then 5 else 0) +
    (if ThreeOnLine(s, IsDigit) then 5 else 0)
  }

  /** `Math.min(100, met / active * 100 + bonus)`. */
  function Score(met: nat, active: nat, bonus: int): (r: real)
    requires 0 < active && met <= active && bonus >= 0
    ensures 0.0 <= r <= 100.0
    ensures met == active ==> r == 100.0
    ensures bonus == 0 ==> r * active as real == 100.0 * met as real
  {
    var share := met as real / active as real;
    assert share * active as real == met as real;
    assert 0.0 <= share <= 1.0;
    assert met == active ==> share == 1.0;
    MinReal(100.0, share * 100.0 + bonus as real)
  }

  /** The items of the feedback list; `AdviceText` gives the message pushed for each. */
  datatype Advice =
    | Unmet(message: string)
    | Breached
    | AvoidRepeats
    | AddDigitsAndSpecials
    | AddLettersAndSpecials
    | AvoidPalindromes

  function AdviceText(a: Advice): string
  {
    match a
    case Unmet(m) => m
    case Breached => "This password has been compromised in data breaches"
    case AvoidRepeats => "Avoid repeating characters"
    case AddDigitsAndSpecials => "Add numbers and special characters"
    case AddLettersAndSpecials => "Add letters and special characters"
    case AvoidPalindromes => "Avoid palindromes"
  }

  /** The messages of the unmet requirements, in table order. */
  function UnmetOf(rs: seq<RequirementResult>): (r: seq<Advice>)
    ensures |r| <= |rs|
    ensures forall a :: a in r ==> a.Unmet?
  {
    if rs == [] then []
    else UnmetOf(rs[..|rs| - 1]) + (if rs[|rs| - 1].met then [] else [Unmet(rs[|rs| - 1].message)])
  }

  lemma {:induction false} UnmetOfMembers(rs: seq<RequirementResult>, m: string)
    ensures Unmet(m) in UnmetOf(rs) <==> exists i :: 0 <= i < |rs| && !rs[i].met && rs[i].message == m
  {
    if rs != [] {
      var init := rs[..|rs| - 1];
      UnmetOfMembers(init, m);
      if exists i :: 0 <= i < |rs| && !rs[i].met && rs[i].message == m {
        var i :| 0 <= i < |rs| && !rs[i].met && rs[i].message == m;
        if i < |init| { assert init[i] == rs[i]; }
      }
      if exists i :: 0 <= i < |init| && !init[i].met && init[i].message == m {
        var i :| 0 <= i < |init| && !init[i].met && init[i].message == m;
        assert rs[i] == init[i];
      }
    }
  }

  /** `lower.includes(reverse(lower))`. */
  predicate PalindromeTest(s: string)
  {
    Includes(Lower(s), Reverse(Lower(s)))
  }

  /** The pattern hints, in their fixed order, given the outcome of each test. */
  function HintList(repeats: bool, letters: bool, digits: bool, palindrome: bool): seq<Advice>
  {
    (if repeats then [AvoidRepeats] else []) +
    (if letters then [AddDigitsAndSpecials] else []) +
    (if digits then [AddLettersAndSpecials] else []) +
    (if palindrome then [AvoidPalindromes] else [])
  }

  /** The pattern hints of a password. */
  function Hints(s: string): seq<Advice>
  {
    HintList(HasTriple(s), OnlyLetters(s), OnlyDigits(s), PalindromeTest(s))
  }

  /** Each hint is in the list exactly when its test holds, and the list holds nothing else. */
  lemma HintListMembers(repeats: bool, letters: bool, digits: bool, palindrome: bool)
    ensures AvoidRepeats in HintList(repeats, letters, digits, palindrome) <==> repeats
    ensures AddDigitsAndSpecials in HintList(repeats, letters, digits, palindrome) <==> letters
    ensures AddLettersAndSpecials in HintList(repeats, letters, digits, palindrome) <==> digits
    ensures AvoidPalindromes in HintList(repeats, letters, digits, palindrome) <==> palindrome
    ensures forall a :: a in HintList(repeats, letters, digits, palindrome) ==> !a.Unmet? && !a.Breached?
  {
  }

  /** Each hint is in the list exactly when its test holds. */
  lemma HintsMembers(s: string)
    ensures AvoidRepeats in Hints(s) <==> HasTriple(s)
    ensures AddDigitsAndSpecials in Hints(s) <==> OnlyLetters(s)
    ensures AddLettersAndSpecials in Hints(s) <==> OnlyDigits(s)
    ensures AvoidPalindromes in Hints(s) <==> PalindromeTest(s)
    ensures forall a :: a in Hints(s) ==> !a.Unmet? && !a.Breached?
  {
    HintListMembers(HasTriple(s), OnlyLetters(s), OnlyDigits(s), PalindromeTest(s));
  }

  datatype StrengthResult = StrengthResult(
    score: real,
    requirements: seq<RequirementResult>,
    feedback: seq<Advice>,
    isValid: bool)

  /** The requirement results for a password at a complexity. */
  function ResultsFor(s: string, complexity: Complexity): (r: seq<RequirementResult>)
    ensures |r| == |Active(complexity)| && |r| >= 4
  {
    ActiveNonEmpty(complexity);
    Results(Active(complexity), s)
  }

  function FeedbackFor(s: string, complexity: Complexity): seq<Advice>
  {
    UnmetOf(ResultsFor(s, complexity)) + (if IsCompromised(s) then [Breached] else []) + Hints(s)
  }

  predicate ValidFor(s: string, complexity: Complexity)
  {
    var results := ResultsFor(s, complexity);
    CountMet(results) == |results| && !IsCompromised(s)
  }

  function ScoreFor(s: string, complexity: Complexity): (r: real)
    ensures 0.0 <= r <= 100.0
  {
    var results := ResultsFor(s, complexity);
    Score(CountMet(results), |results|, Bonus(s))
  }

  /** A hint is in the feedback exactly when it is among the hints. */
  lemma FeedbackHint(s: string, complexity: Complexity, a: Advice)
    requires !a.Unmet? && !a.Breached?
    ensures a in FeedbackFor(s, complexity) <==> a in Hints(s)
  {
  }

  /** An unmet-requirement item is in the feedback exactly when it is in the first part. */
  lemma FeedbackUnmet(s: string, complexity: Complexity, m: string)
    ensures Unmet(m) in FeedbackFor(s, complexity) <==> Unmet(m) in UnmetOf(ResultsFor(s, complexity))
  {
    HintsMembers(s);
  }

  /** `validatePassword` as a function of the password and the complexity. */
  function Validation(s: string, complexity: Complexity): StrengthResult
  {
    StrengthResult(ScoreFor(s, complexity), ResultsFor(s, complexity), FeedbackFor(s, complexity), ValidFor(s, complexity))
  }

  /** The first part of the feedback list: one pushed message per unmet requirement. */
  method CollectUnmet(results: seq<RequirementResult>) returns (feedback: seq<Advice>)
    ensures feedback == UnmetOf(results)
  {
    feedback := [];
    var i := 0;
    while i < |results|
      invariant 0 <= i <= |results|
      invariant feedback == UnmetOf(results[..i])
    {
      assert results[..i + 1][..i] == results[..i];
      if !results[i].met {
        feedback := feedback + [Unmet(results[i].message)];
      }
      i := i + 1;
    }
    assert results[..i] == results;
  }

  /** The rest of the feedback list: the breach message, then the pattern hints. */
  method PushHints(head: seq<Advice>, compromised: bool, s: string) returns (feedback: seq<Advice>)
    ensures feedback == head + (if compromised then [Breached] else []) + Hints(s)
  {
    feedback := head + if compromised then [Breached] else [];
    var t, l, d, p := HasTriple(s), OnlyLetters(s), OnlyDigits(s), PalindromeTest(s);
    feedback := PushFlags(feedback, t, l, d, p);
  }

  /** The pattern hints pushed one by one, given the outcome of each test. */
  method PushFlags(base: seq<Advice>, t: bool, l: bool, d: bool, p: bool) returns (feedback: seq<Advice>)
    ensures feedback == base + HintList(t, l, d, p)
  {
    feedback := base;
    if t {
      feedback := feedback + [AvoidRepeats];
    }
    if l {
      feedback := feedback + [AddDigitsAndSpecials];
    }
    if d {
      feedback := feedback + [AddLettersAndSpecials];
    }
    if p {
      feedback := feedback + [AvoidPalindromes];
    }
  }

  method ValidatePassword(s: string, complexity: Complexity) returns (r: StrengthResult)
    ensures r == Validation(s, complexity)
  {
    var results := ResultsFor(s, complexity);
    var unmet := CollectUnmet(results);
    var feedback := PushHints(unmet, IsCompromised(s), s);
    r := StrengthResult(Score(CountMet(results), |results|, Bonus(s)), results, feedback,
                        CountMet(results) == |results| && !IsCompromised(s));
  }

  /** Over any list of requirements, every result is met exactly when every requirement is. */
  lemma AllMetIff(reqs: seq<Requirement>, s: string)
    ensures CountMet(Results(reqs, s)) == |reqs| <==> forall q :: q in reqs ==> Meets(q.check, s)
  {
    var results := Results(reqs, s);
    CountMetAll(results);
    if forall i :: 0 <= i < |results| ==> results[i].met {
      forall q | q in reqs ensures Meets(q.check, s) {
        var i :| 0 <= i < |reqs| && reqs[i] == q;
        assert results[i].met;
      }
    }
    if forall q :: q in reqs ==> Meets(q.check, s) {
      forall i | 0 <= i < |results| ensures results[i].met {
        assert reqs[i] in reqs;
      }
    }
  }

  /** Valid exactly when every active requirement is met and the password is not a known breached one. */
  lemma ValidIff(s: string, complexity: Complexity)
    ensures ValidFor(s, complexity) <==>
      (forall q :: q in Active(complexity) ==> Meets(q.check, s)) && Lower(s) !in CompromisedPasswords
  {
    AllMetIff(Active(complexity), s);
  }

  /** Over any list of requirements, a message is reported unmet exactly when a requirement with it fails. */
  lemma UnmetResultsIff(reqs: seq<Requirement>, s: string, m: string)
    ensures Unmet(m) in UnmetOf(Results(reqs, s)) <==>
      exists q :: q in reqs && !Meets(q.check, s) && Message(q.check) == m
  {
    var results := Results(reqs, s);
    UnmetOfMembers(results, m);
    if exists i :: 0 <= i < |results| && !results[i].met && results[i].message == m {
      var i :| 0 <= i < |results| && !results[i].met && results[i].message == m;
      assert reqs[i] in reqs;
    }
    if exists q :: q in reqs && !Meets(q.check, s) && Message(q.check) == m {
      var q :| q in reqs && !Meets(q.check, s) && Message(q.check) == m;
      var i :| 0 <= i < |reqs| && reqs[i] == q;
      assert !results[i].met && results[i].message == m;
    }
  }

  /** A requirement's message is fed back exactly when that active requirement is unmet. */
  lemma UnmetFeedbackIff(s: string, complexity: Complexity, m: string)
    ensures Unmet(m) in FeedbackFor(s, complexity) <==>
      exists q :: q in Active(complexity) && !Meets(q.check, s) && Message(q.check) == m
  {
    FeedbackUnmet(s, complexity, m);
    UnmetResultsIff(Active(complexity), s, m);
  }

  /** "Avoid repeating characters" is fed back exactly when some character occurs three times in a row. */
  lemma RepeatHintIff(s: string, complexity: Complexity)
    ensures AvoidRepeats in FeedbackFor(s, complexity) <==> HasTriple(s)
  {
    HintsMembers(s);
    FeedbackHint(s, complexity, AvoidRepeats);
  }

  /**
   * On a password without line breaks the repeat hint is exactly the
   * negation of the enhanced no-repeat requirement; after a line break the
   * requirement no longer sees a triple that the hint still reports.
   */
  lemma RepeatHintNegatesRule(s: string)
    ensures SingleLine(s) ==> (HasTriple(s) <==> !Meets(NoTriple, s))
    ensures !Meets(NoTriple, s) ==> HasTriple(s)
    ensures Meets(NoTriple, "x\naaa") && HasTriple("x\naaa")
  {
    TripleTests(s);
    TripleAfterBreak();
  }

  /** `includes` of a string as long as the text is equality. */
  lemma IncludesSameLength(t: string, u: string)
    requires |t| == |u|
    ensures Includes(t, u) <==> t == u
  {
    if Includes(t, u) {
      var i :| 0 <= i <= |t| && StartsWith(t[i..], u);
      assert i == 0;
      assert t[..|u|] == t;
    }
    if t == u {
      assert StartsWith(t[0..], u);
    }
  }

  /**
   * "Avoid palindromes" is fed back exactly when the lower-cased password
   * reads the same backwards, so the empty password draws it too.
   */
  lemma PalindromeHintIff(s: string, complexity: Complexity)
    ensures AvoidPalindromes in FeedbackFor(s, complexity) <==> Lower(s) == Reverse(Lower(s))
    ensures AvoidPalindromes in FeedbackFor("", complexity)
  {
    IncludesSameLength(Lower(s), Reverse(Lower(s)));
    IncludesSameLength(Lower(""), Reverse(Lower("")));
    HintsMembers(s);
    HintsMembers("");
    FeedbackHint(s, complexity, AvoidPalindromes);
    FeedbackHint("", complexity, AvoidPalindromes);
  }

  /** The verdict rejects a breached password whatever its strength, and says so. */
  lemma CompromisedIsInvalid(s: string, complexity: Complexity)
    requires Lower(s) in CompromisedPasswords
    ensures !ValidFor(s, complexity) && Breached in FeedbackFor(s, complexity)
  {
  }

  /** Meeting every active requirement scores 100 whatever the bonus. */
  lemma AllMetScoresFull(s: string, complexity: Complexity)
    requires forall q :: q in Active(complexity) ==> Meets(q.check, s)
    ensures ScoreFor(s, complexity) == 100.0
  {
    AllMetCount(Active(complexity), s);
  }

  lemma AllMetCount(reqs: seq<Requirement>, s: string)
    requires forall q :: q in reqs ==> Meets(q.check, s)
    ensures CountMet(Results(reqs, s)) == |reqs|
  {
    var results := Results(reqs, s);
    CountMetAll(results);
    forall i | 0 <= i < |results| ensures results[i].met {
      assert reqs[i] in reqs;
    }
  }
}
