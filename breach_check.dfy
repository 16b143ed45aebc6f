// The breach check of src/services/passwordBreachCheck.ts: the password's
// SHA-1 hash is split into a five-character prefix, which is the only part
// sent to the range service, and a suffix matched against the returned lines;
// a failed request fails safe to "compromised". Also the fixed-order list of
// composition suggestions.

module PasswordBreachCheck {
  import opened Common
  import opened TextPatterns

  /** `hash.slice(0, 5)`. */
  function Prefix(hash: string): (r: string)
    ensures |r| == MinInt(5, |hash|)
  {
    hash[..MinInt(5, |hash|)]
  }

  /** `hash.slice(5)`. */
  function Suffix(hash: string): (r: string)
    ensures |r| == MaxInt(0, |hash| - 5)
  {
    if |hash| <= 5 then "" else hash[5..]
  }

  /** The address of the range request. */
  function RangeUrl(hash: string): string
  {
    "https://api.pwnedpasswords.com/range/" + Prefix(hash)
  }

  /**
   * For a 40-character hex digest, the prefix and suffix are 5 and 35
   * characters and put back together give the hash; two digests lead to the
   * same request exactly when their first five characters agree, so the
   * request says nothing about the remaining 35.
   */
  lemma PrefixSuffixSplit(hash: string, other: string)
    requires |hash| == 40 && |other| == 40
    ensures |Prefix(hash)| == 5 && |Suffix(hash)| == 35
    ensures Prefix(hash) + Suffix(hash) == hash
    ensures RangeUrl(hash) == RangeUrl(other) <==> hash[..5] == other[..5]
  {
    var base := "https://api.pwnedpasswords.com/range/";
    if RangeUrl(hash) == RangeUrl(other) {
      assert (base + Prefix(hash))[|base|..] == Prefix(hash);
      assert (base + Prefix(other))[|base|..] == Prefix(other);
    }
  }

  /** The index of `lines.find(h => h.startsWith(suffix))`: the first line that starts with the suffix. */
  function FindIndex(lines: seq<string>, suffix: string): (r: Option<nat>)
    ensures r.None? <==> forall i :: 0 <= i < |lines| ==> !StartsWith(lines[i], suffix)
    ensures r.Some? ==>
      && r.value < |lines| && StartsWith(lines[r.value], suffix)
      && forall j :: 0 <= j < r.value ==> !StartsWith(lines[j], suffix)
  {
    if lines == [] then None
    else if StartsWith(lines[0], suffix) then Some(0)
    else
      match FindIndex(lines[1..], suffix)
      case None => None
      case Some(k) => Some(k + 1)
  }

  /** The longest run of decimal digits at the start. */
  function DigitPrefix(s: string): (r: string)
    ensures |r| <= |s| && r == s[..|r|]
    ensures forall i :: 0 <= i < |r| ==> IsDigit(r[i])
  {
    if s != [] && IsDigit(s[0]) then [s[0]] + DigitPrefix(s[1..]) else []
  }

  /** The value of a string of decimal digits. */
  function DigitsValue(d: string): nat
    requires forall i :: 0 <= i < |d| ==> IsDigit(d[i])
  {
    if d == [] then 0
    else
      var last := d[|d| - 1];
      assert IsDigit(last);
      DigitsValue(d[..|d| - 1]) * 10 + (last as int - '0' as int)
  }

  /** `parseInt(s, 10)`; `None` is `NaN`. */
  function ParseInt(s: string): (r: Option<int>)
  {
    var t := TrimStart(s);
    var negative := t != [] && t[0] == '-';
    var body := if t != [] && (t[0] == '-' || t[0] == '+') then t[1..] else t;
    var d := DigitPrefix(body);
    if d == [] then None
    else
      var v: int := DigitsValue(d);
      Some(if negative then -v else v)
  }

  lemma {:induction false} DigitPrefixOf(d: string, tail: string)
    requires forall i :: 0 <= i < |d| ==> IsDigit(d[i])
    requires tail == [] || !IsDigit(tail[0])
    ensures DigitPrefix(d + tail) == d
  {
    if d != [] {
      DigitPrefixOf(d[1..], tail);
      assert (d + tail)[1..] == d[1..] + tail;
      assert d == [d[0]] + d[1..];
    }
  }

  lemma {:induction false} DigitsValueOfString(n: nat)
    ensures DigitsValue(NatToString(n)) == n
  {
    if n >= 10 {
      DigitsValueOfString(n / 10);
      var s := NatToString(n);
      assert s[..|s| - 1] == NatToString(n / 10);
    }
  }

  /**
   * `parseInt` reads back a count written in decimal, whatever non-digit
   * text follows it (the range service ends its lines with a carriage
   * return).
   */
  lemma ParseIntOfCount(n: nat, tail: string)
    requires tail == [] || !IsDigit(tail[0])
    ensures ParseInt(NatToString(n) + tail) == Some(n)
  {
    var s := NatToString(n) + tail;
    assert s[0] == NatToString(n)[0];
    assert TrimStart(s) == s;
    DigitPrefixOf(NatToString(n), tail);
    DigitsValueOfString(n);
  }

  /** `parseInt(match.split(':')[1], 10)`; a line without `:` reads `undefined`, which is `NaN`. */
  function Occurrences(line: string): Option<int>
  {
    var parts := Split(line, ':');
    if |parts| > 1 then ParseInt(parts[1]) else None
  }

  /** A range-service line `SUFFIX:COUNT` gives back its count. */
  lemma OccurrencesOfLine(suffix: string, n: nat, tail: string)
    requires ':' !in suffix && ':' !in tail
    requires tail == [] || !IsDigit(tail[0])
    ensures Occurrences(suffix + ":" + NatToString(n) + tail) == Some(n)
  {
    var count := NatToString(n) + tail;
    assert suffix + ":" + NatToString(n) + tail == suffix + [':'] + count;
    SplitAt(suffix, count, ':');
    CountHasNoColon(n, tail);
    SplitNone(count, ':');
    ParseIntOfCount(n, tail);
  }

  /** A count and a tail without colons make a text without colons. */
  lemma CountHasNoColon(n: nat, tail: string)
    requires ':' !in tail
    ensures ':' !in NatToString(n) + tail
  {
    var d := NatToString(n);
    forall i | 0 <= i < |d + tail| ensures (d + tail)[i] != ':' {
      if i < |d| {
        assert IsDigit(d[i]);
      } else {
        assert (d + tail)[i] == tail[i - |d|];
      }
    }
  }

  datatype BreachDetails = BreachDetails(firstSeen: string, lastSeen: string, sources: seq<string>)

  /** `BreachCheckResult`; an `occurrences` of `None` is `NaN`. */
  datatype BreachCheckResult = BreachCheckResult(isCompromised: bool, occurrences: Option<int>, breachDetails: Option<BreachDetails>)

  /** What the range request produced: a failure (network error or non-OK status) or the body. */
  datatype RangeResponse = RequestFailed | Body(text: string)

  const FailSafe := BreachCheckResult(true, Some(0), Some(BreachDetails("Unknown", "Unknown", ["Check failed - assuming compromised"])))

  /**
   * `checkPassword`, given the uppercase hex SHA-1 of the password, the
   * response to `RangeUrl(hash)` and the current time as an ISO string.
   * A matching line that is the empty string is falsy and counts as no
   * match; with a 35-character suffix no matching line is empty.
   */
  function CheckPassword(hash: string, response: RangeResponse, nowIso: string): (r: BreachCheckResult)
  {
    match response
    case RequestFailed => FailSafe
    case Body(text) =>
      var lines := Split(text, '\n');
      var found := FindIndex(lines, Suffix(hash));
      if found.None? || lines[found.value] == "" then BreachCheckResult(false, Some(0), None)
      else BreachCheckResult(true, Occurrences(lines[found.value]),
                             Some(BreachDetails("Unknown", nowIso, ["Have I Been Pwned Database"])))
  }

  /**
   * For a full-length hash, the password is reported compromised exactly
   * when the request failed or some line of the body starts with the
   * suffix; a clean report is `{false, 0}` with no details, and a failure
   * is the fail-safe record.
   */
  lemma CompromisedIff(hash: string, response: RangeResponse, nowIso: string)
    requires |hash| == 40
    ensures var r := CheckPassword(hash, response, nowIso);
      r.isCompromised <==>
        response.RequestFailed? ||
        exists i :: 0 <= i < |Split(response.text, '\n')| && StartsWith(Split(response.text, '\n')[i], Suffix(hash))
    ensures var r := CheckPassword(hash, response, nowIso);
      !r.isCompromised ==> r == BreachCheckResult(false, Some(0), None)
    ensures response.RequestFailed? ==> CheckPassword(hash, response, nowIso) == FailSafe
  {
  }

  /** A body made of newline-free lines is checked line by line. */
  lemma CheckLines(hash: string, lines: seq<string>, nowIso: string)
    requires |lines| >= 1 && forall i :: 0 <= i < |lines| ==> '\n' !in lines[i]
    ensures var r := CheckPassword(hash, Body(Join(lines, "\n")), nowIso);
      var found := FindIndex(lines, Suffix(hash));
      r == if found.None? || lines[found.value] == "" then BreachCheckResult(false, Some(0), None)
           else BreachCheckResult(true, Occurrences(lines[found.value]),
                                  Some(BreachDetails("Unknown", nowIso, ["Have I Been Pwned Database"])))
  {
    JoinSplit(lines, '\n');
  }

  /** No colon or newline in an uppercase hex digest's suffix. */
  lemma HexSuffix(hash: string)
    requires |hash| == 40 && forall i :: 0 <= i < 40 ==> IsDigit(hash[i]) || 'A' <= hash[i] <= 'F'
    ensures |Suffix(hash)| == 35 && ':' !in Suffix(hash) && '\n' !in Suffix(hash)
  {
    var suffix := Suffix(hash);
    forall i | 0 <= i < 35 ensures suffix[i] != ':' && suffix[i] != '\n' {
      assert suffix[i] == hash[i + 5];
    }
  }

  /** The response line for a suffix seen `n` times. */
  function CountLine(suffix: string, n: nat): string
  {
    suffix + ":" + NatToString(n) + "\r"
  }

  lemma CountLineShape(suffix: string, n: nat)
    requires ':' !in suffix && '\n' !in suffix
    ensures '\n' !in CountLine(suffix, n) && StartsWith(CountLine(suffix, n), suffix)
    ensures Occurrences(CountLine(suffix, n)) == Some(n)
  {
    var line := CountLine(suffix, n);
    var digits := NatToString(n);
    forall i | 0 <= i < |line| ensures line[i] != '\n' {
      if i < |suffix| { assert line[i] == suffix[i]; }
      else if i > |suffix| && i < |line| - 1 { assert line[i] == digits[i - |suffix| - 1]; }
    }
    assert line[..|suffix|] == suffix;
    OccurrencesOfLine(suffix, n, "\r");
  }

  /**
   * The first matching line decides the count; a match whose count is 0 is
   * still reported compromised.
   */
  lemma MatchedLineCount(hash: string, before: seq<string>, n: nat, after: seq<string>, nowIso: string)
    requires |hash| == 40 && forall i :: 0 <= i < 40 ==> IsDigit(hash[i]) || 'A' <= hash[i] <= 'F'
    requires forall i :: 0 <= i < |before| ==> '\n' !in before[i] && !StartsWith(before[i], Suffix(hash))
    requires forall i :: 0 <= i < |after| ==> '\n' !in after[i]
    ensures CheckPassword(hash, Body(Join(before + [CountLine(Suffix(hash), n)] + after, "\n")), nowIso) ==
      BreachCheckResult(true, Some(n), Some(BreachDetails("Unknown", nowIso, ["Have I Been Pwned Database"])))
  {
    var suffix := Suffix(hash);
    var line := CountLine(suffix, n);
    HexSuffix(hash);
    CountLineShape(suffix, n);
    var lines := before + [line] + after;
    LinesWithout(before, line, after, '\n');
    assert lines[|before|] == line;
    assert forall j :: 0 <= j < |before| ==> lines[j] == before[j];
    FindIndexAt(lines, suffix, |before|);
    CheckLines(hash, lines, nowIso);
  }

  lemma LinesWithout(before: seq<string>, line: string, after: seq<string>, c: char)
    requires forall i :: 0 <= i < |before| ==> c !in before[i]
    requires c !in line && forall i :: 0 <= i < |after| ==> c !in after[i]
    ensures forall i :: 0 <= i < |before + [line] + after| ==> c !in (before + [line] + after)[i]
  {
    var lines := before + [line] + after;
    forall i | 0 <= i < |lines| ensures c !in lines[i] {
      if i < |before| { assert lines[i] == before[i]; }
      else if i > |before| { assert lines[i] == after[i - |before| - 1]; }
    }
  }

  lemma FindIndexAt(lines: seq<string>, suffix: string, k: nat)
    requires k < |lines| && StartsWith(lines[k], suffix)
    requires forall j :: 0 <= j < k ==> !StartsWith(lines[j], suffix)
    ensures FindIndex(lines, suffix) == Some(k)
  {
  }

  /** The suggestions `checkPasswordStrength` may make, in the order it makes them. */
  datatype Suggestion =
    | AddUppercase | AddLowercase | AddNumbers | AddSpecials
    | MakeLonger | AvoidRepeats | AvoidCommonPatterns

  const AllSuggestions: seq<Suggestion> :=
    [AddUppercase, AddLowercase, AddNumbers, AddSpecials, MakeLonger, AvoidRepeats, AvoidCommonPatterns]

  function SuggestionText(s: Suggestion): string
  {
    match s
    case AddUppercase => "Add uppercase letters"
    case AddLowercase => "Add lowercase letters"
    case AddNumbers => "Add numbers"
    case AddSpecials => "Add special characters"
    case MakeLonger => "Make the password longer"
    case AvoidRepeats => "Avoid repeating characters"
    case AvoidCommonPatterns => "Avoid common patterns"
  }

  /** `/^(?:abc|123|qwerty|password)/i`. */
  predicate CommonStart(p: string)
  {
    var l := Lower(p);
    StartsWith(l, "abc") || StartsWith(l, "123") || StartsWith(l, "qwerty") || StartsWith(l, "password")
  }

  /** The condition under which each of `AllSuggestions` is made. */
  function SuggestionFlags(p: string): (flags: seq<bool>)
    ensures |flags| == |AllSuggestions|
  {
    [ !ContainsChar(p, IsUpper),
      !ContainsChar(p, IsLower),
      !ContainsChar(p, IsDigit),
      !ContainsChar(p, IsSpecial),
      |p| < 16,
      HasTriple(p),
      CommonStart(p) ]
  }

  function Suggestions(p: string): seq<Suggestion>
  {
    Selected(AllSuggestions, SuggestionFlags(p))
  }

  /** The suggestion list of `checkPasswordStrength`, built by its seven tests. */
  method CheckPasswordStrength(p: string) returns (suggestions: seq<Suggestion>)
    ensures suggestions == Suggestions(p)
  {
    var all, flags := AllSuggestions, SuggestionFlags(p);
    suggestions := [];
    for k := 0 to 7
      invariant suggestions == Selected(all[..k], flags[..k])
    {
      SelectedSnoc(all, flags, k);
      if flags[k] {
        suggestions := suggestions + [all[k]];
      }
    }
    assert all[..7] == all && flags[..7] == flags;
  }

  /** The units `estimateCrackTime` reports in, smallest first. */
  datatype TimeUnit = Seconds | Minutes | Hours | Days | Years

  datatype CrackTime = Instantly | About(amount: int, unit: TimeUnit)

  function UnitSeconds(u: TimeUnit): real
  {
    match u
    case Seconds => 1.0
    case Minutes => 60.0
    case Hours => 3600.0
    case Days => 86400.0
    case Years => 31536000.0
  }

  function UnitRank(u: TimeUnit): nat
  {
    match u
    case Seconds => 0
    case Minutes => 1
    case Hours => 2
    case Days => 3
    case Years => 4
  }

  /**
   * `estimateCrackTime`, given the seconds `2 ** entropy / 10 ** 9`: the
   * largest unit that the time reaches, up to a year, and the rounded count
   * of it, which is at least 1 and, below years, at most one of the next unit.
   */
  function EstimateCrackTime(seconds: real): (c: CrackTime)
    ensures c == Instantly <==> seconds < 1.0
    ensures c.About? ==> UnitSeconds(c.unit) <= seconds
    ensures c.About? && c.unit != Years ==> seconds < UnitSeconds(UnitOfRank(UnitRank(c.unit) + 1))
    ensures c.About? ==> 1 <= c.amount
    ensures c.About? && c.unit != Years ==>
      c.amount as real * UnitSeconds(c.unit) <= UnitSeconds(UnitOfRank(UnitRank(c.unit) + 1))
  {
    if seconds < 1.0 then Instantly
    else if seconds < 60.0 then About(Round(seconds), Seconds)
    else if seconds < 3600.0 then About(Round(seconds / 60.0), Minutes)
    else if seconds < 86400.0 then About(Round(seconds / 3600.0), Hours)
    else if seconds < 31536000.0 then About(Round(seconds / 86400.0), Days)
    else About(Round(seconds / 31536000.0), Years)
  }

  /** The unit of a given rank. */
  function UnitOfRank(rank: nat): TimeUnit
    requires rank <= 4
  {
    if rank == 0 then Seconds else if rank == 1 then Minutes else if rank == 2 then Hours
    else if rank == 3 then Days else Years
  }

  /** A longer time is never reported in a smaller unit. */
  lemma CrackTimeUnitMonotone(s: real, t: real)
    requires s <= t && s >= 1.0
    ensures UnitRank(EstimateCrackTime(s).unit) <= UnitRank(EstimateCrackTime(t).unit)
  {
  }

  /** The characters a password uses. */
  function CharSet(p: string): set<char>
  {
    set i | 0 <= i < |p| :: p[i]
  }

  function Power(b: nat, e: nat): nat
  {
    if e == 0 then 1 else b * Power(b, e - 1)
  }

  /**
   * The seconds behind the crack time: `2 ** log2(k ** n) / 10 ** 9` for n
   * characters drawn from k distinct ones, which is `k ** n / 10 ** 9`
   * without floating-point rounding.
   */
  function CrackSeconds(p: string): (s: real)
    ensures s >= 0.0
  {
    Power(|CharSet(p)|, |p|) as real / 1000000000.0
  }

  lemma {:induction false} PowerOfOne(e: nat)
    ensures Power(1, e) == 1
  {
    if e > 0 {
      PowerOfOne(e - 1);
    }
  }

  /** A password that repeats a single character, or the empty one, is cracked instantly. */
  lemma SingleCharacterCrackedInstantly(p: string)
    requires forall i :: 0 <= i < |p| ==> p[i] == p[0]
    ensures EstimateCrackTime(CrackSeconds(p)) == Instantly
  {
    if p == [] {
      assert CharSet(p) == {};
    } else {
      assert CharSet(p) == {p[0]};
      PowerOfOne(|p|);
    }
  }

  /** Over distinct items, an item is selected exactly when its flag holds, and nothing exactly when no flag does. */
  lemma SelectedExact<T>(items: seq<T>, flags: seq<bool>)
    requires |flags| == |items| && NoDuplicates(items)
    ensures forall k :: 0 <= k < |items| ==> (items[k] in Selected(items, flags) <==> flags[k])
    ensures NoDuplicates(Selected(items, flags))
    ensures Selected(items, flags) == [] <==> true !in flags
  {
    forall k | 0 <= k < |items| ensures items[k] in Selected(items, flags) <==> flags[k] {
      SelectedMembers(items, flags, items[k]);
    }
    SelectedNoDuplicates(items, flags);
    if Selected(items, flags) != [] {
      SelectedMembers(items, flags, Selected(items, flags)[0]);
    }
    if true in flags {
      var k :| 0 <= k < |flags| && flags[k];
      SelectedMembers(items, flags, items[k]);
    }
  }

  /**
   * Each suggestion is made exactly when its condition holds, none twice,
   * and none at all exactly for a password of 16 or more characters mixing
   * all four classes, with no triple and no common start.
   */
  lemma SuggestionsExact(p: string)
    ensures forall k :: 0 <= k < 7 ==> (AllSuggestions[k] in Suggestions(p) <==> SuggestionFlags(p)[k])
    ensures NoDuplicates(Suggestions(p))
    ensures Suggestions(p) == [] <==>
      ContainsChar(p, IsUpper) && ContainsChar(p, IsLower) && ContainsChar(p, IsDigit) && ContainsChar(p, IsSpecial)
      && |p| >= 16 && !HasTriple(p) && !CommonStart(p)
  {
    SelectedExact(AllSuggestions, SuggestionFlags(p));
  }

  /** The common-start test ignores ASCII case. */
  lemma CommonStartIgnoresCase()
    ensures CommonStart("PassWord1") && CommonStart("QWERTY!") && !CommonStart("xabc")
  {
    MixedCasePassword();
    UpperCaseQwerty();
    NoCommonStart();
  }

  lemma MixedCasePassword()
    ensures CommonStart("PassWord1")
  {
    var l := Lower("PassWord1");
    assert l[0] == 'p' && l[1] == 'a' && l[2] == 's' && l[3] == 's';
    assert l[4] == 'w' && l[5] == 'o' && l[6] == 'r' && l[7] == 'd';
    assert l[..8] == "password";
  }

  lemma UpperCaseQwerty()
    ensures CommonStart("QWERTY!")
  {
    assert Lower("QWERTY!")[..6] == "qwerty";
  }

  lemma NoCommonStart()
    ensures !CommonStart("xabc")
  {
    assert Lower("xabc")[0] == 'x';
  }
}
