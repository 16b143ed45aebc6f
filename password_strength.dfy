// The strength meter of src/components/ui/password-strength.tsx: five
// requirements, a level from "Very Weak" to "Very Strong", five bars of
// which the first level+1 are coloured, and a met/total counter.

module PasswordStrength {
  import opened Common
  import PasswordPolicy

  type Check = PasswordPolicy.Check

  /** The meter's requirements, in display order; the texts are the policy's messages. */
  const Requirements: seq<Check> := [
    PasswordPolicy.MinLength(8),
    PasswordPolicy.AnyDigit,
    PasswordPolicy.AnyLower,
    PasswordPolicy.AnyUpper,
    PasswordPolicy.AnySpecial
  ]

  const Labels: seq<string> := ["Very Weak", "Weak", "Medium", "Strong", "Very Strong"]

  const Colours: seq<string> := ["bg-red-500", "bg-orange-500", "bg-yellow-500", "bg-green-500", "bg-emerald-500"]

  /** `requirements.filter(meetsRequirement).length` over a list of checks. */
  function CountMet(checks: seq<Check>, s: string): (n: nat)
    ensures n <= |checks|
  {
    if checks == [] then 0
    else (if PasswordPolicy.Meets(checks[0], s) then 1 else 0) + CountMet(checks[1..], s)
  }

  /** Nothing is counted exactly when no check holds; everything exactly when all hold. */
  lemma {:induction false} CountMetExtremes(checks: seq<Check>, s: string)
    ensures CountMet(checks, s) == 0 <==> forall i :: 0 <= i < |checks| ==> !PasswordPolicy.Meets(checks[i], s)
    ensures CountMet(checks, s) == |checks| <==> forall i :: 0 <= i < |checks| ==> PasswordPolicy.Meets(checks[i], s)
  {
    if checks != [] {
      CountMetExtremes(checks[1..], s);
      assert forall i :: 1 <= i < |checks| ==> checks[i] == checks[1..][i - 1];
    }
  }

  function MetRequirements(s: string): (n: nat)
    ensures n <= 5
  {
    CountMet(Requirements, s)
  }

  /** `Math.min(Math.floor((met / 5) * 5), 4)`. */
  function StrengthLevel(met: nat): (level: int)
    requires met <= 5
  {
    MinInt(((met as real / 5.0) * 5.0).Floor, 4)
  }

  /**
   * The level is the met count with 5 folded onto 4: it lies in 0..4, never
   * falls as more is met, and is 0 only when nothing is met.
   */
  lemma StrengthLevelIsMetCapped(met: nat, more: nat)
    requires met <= more <= 5
    ensures StrengthLevel(met) == MinInt(met, 4)
    ensures 0 <= StrengthLevel(met) <= 4
    ensures StrengthLevel(met) <= StrengthLevel(more)
    ensures StrengthLevel(met) == 0 <==> met == 0
    ensures StrengthLevel(4) == StrengthLevel(5) == 4
  {
    assert (met as real / 5.0) * 5.0 == met as real;
    assert (more as real / 5.0) * 5.0 == more as real;
    assert (4 as real / 5.0) * 5.0 == 4.0;
    assert (5 as real / 5.0) * 5.0 == 5.0;
  }

  /** The level the meter shows for a password. */
  function Level(s: string): (level: nat)
    ensures level <= 4
  {
    StrengthLevelIsMetCapped(MetRequirements(s), MetRequirements(s));
    StrengthLevel(MetRequirements(s))
  }

  /** "Very Weak" exactly when the password meets none of the five requirements. */
  lemma VeryWeakIffNothingMet(s: string)
    ensures Labels[Level(s)] == "Very Weak" <==> forall i :: 0 <= i < 5 ==> !PasswordPolicy.Meets(Requirements[i], s)
  {
    StrengthLevelIsMetCapped(MetRequirements(s), MetRequirements(s));
    CountMetExtremes(Requirements, s);
    assert |Labels[1]| != |Labels[0]| && |Labels[2]| != |Labels[0]|;
    assert |Labels[3]| != |Labels[0]| && |Labels[4]| != |Labels[0]|;
  }

  /** The colour of each of the five bars: the level's colour up to the level, grey after. */
  function Bars(level: nat): (bars: seq<string>)
    requires level <= 4
    ensures |bars| == 5
  {
    seq(5, i requires 0 <= i < 5 => if i <= level then Colours[level] else "bg-gray-200")
  }

  function CountColoured(bars: seq<string>, colour: string): (n: nat)
    ensures n <= |bars|
  {
    if bars == [] then 0 else (if bars[0] == colour then 1 else 0) + CountColoured(bars[1..], colour)
  }

  /** Exactly level + 1 bars take the level's colour, and they are the first ones. */
  lemma ColouredBars(level: nat)
    requires level <= 4
    ensures CountColoured(Bars(level), Colours[level]) == level + 1
    ensures forall i :: 0 <= i < 5 ==> (Bars(level)[i] == Colours[level] <==> i <= level)
  {
    var b := Bars(level);
    var c := Colours[level];
    assert |c| != |"bg-gray-200"| by {
      assert |Colours[0]| == 10 && |Colours[1]| == 13 && |Colours[2]| == 13;
      assert |Colours[3]| == 12 && |Colours[4]| == 14;
    }
    assert b[4..] == [b[4]] && b[3..] == [b[3]] + b[4..] && b[2..] == [b[2]] + b[3..];
    assert b[1..] == [b[1]] + b[2..] && b == [b[0]] + b[1..];
    assert CountColoured(b[4..], c) == if 4 <= level then 1 else 0;
    assert CountColoured(b[3..], c) == (if 3 <= level then 1 else 0) + CountColoured(b[4..], c);
    assert CountColoured(b[2..], c) == (if 2 <= level then 1 else 0) + CountColoured(b[3..], c);
    assert CountColoured(b[1..], c) == (if 1 <= level then 1 else 0) + CountColoured(b[2..], c);
  }

  /** The counter under the bars: met out of five. */
  function Counter(s: string): (r: (nat, nat))
    ensures r.0 <= r.1 == |Requirements|
  {
    (MetRequirements(s), |Requirements|)
  }
}
