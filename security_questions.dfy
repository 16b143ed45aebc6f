// The security-question hook of src/hooks/useSecurityQuestions.ts: answers
// are normalised (lower case, trimmed, white-space runs collapsed) and then
// base64-encoded before they are stored or compared; set-up needs at least
// three questions; verification is the conjunction of the per-answer checks.

module SecurityQuestions {
  import opened Common
  import Base64

  const AvailableQuestions: seq<string> := [
    "What was the name of your first pet?",
    "In which city were you born?",
    "What was your childhood nickname?",
    "What was the name of your first school?",
    "What is your mother's maiden name?",
    "What was the make of your first car?",
    "What is the name of the street you grew up on?",
    "What was your favorite subject in school?",
    "What is the name of your favorite childhood teacher?",
    "What is your favorite book from childhood?"
  ]

  // ---------------------------------------------------------------------
  // Normalisation: `answer.toLowerCase().trim().replace(/\s+/g, ' ')`.

  /** The text before its trailing white space. */
  function DropTrailingSpaces(s: string): (r: string)
    ensures |r| <= |s| && r == s[..|r|]
    ensures r != [] ==> !IsJsSpace(r[|r| - 1])
  {
    if s != [] && IsJsSpace(s[|s| - 1]) then DropTrailingSpaces(s[..|s| - 1]) else s
  }

  /** `trim()`. */
  function Trim(s: string): (r: string)
    ensures r != [] ==> !IsJsSpace(r[0]) && !IsJsSpace(r[|r| - 1])
    ensures forall c :: c in r ==> c in s
  {
    var d := TrimStart(s);
    var r := DropTrailingSpaces(d);
    assert r != [] ==> r[0] == d[0];
    r
  }

  /**
   * `replace(/\s+/g, ' ')`: every run of white space becomes one space. A
   * white-space character followed by another is dropped; the last one of a
   * run becomes a space.
   */
  function Collapse(s: string): (r: string)
    ensures r == [] <==> s == []
    ensures |r| <= |s|
  {
    if s == [] then []
    else if !IsJsSpace(s[0]) then [s[0]] + Collapse(s[1..])
    else if |s| > 1 && IsJsSpace(s[1]) then Collapse(s[1..])
    else [' '] + Collapse(s[1..])
  }

  /** The collapsed text is single-spaced, and starts with a space exactly where the text starts with white space. */
  lemma {:induction false} CollapseSingleSpaced(s: string)
    ensures SingleSpaced(Collapse(s))
    ensures s != [] && IsJsSpace(s[0]) ==> Collapse(s)[0] == ' '
    ensures s != [] && !IsJsSpace(s[0]) ==> Collapse(s)[0] == s[0]
  {
    if s != [] {
      var t := Collapse(s[1..]);
      CollapseSingleSpaced(s[1..]);
      if IsJsSpace(s[0]) && |s| > 1 && IsJsSpace(s[1]) {
        assert Collapse(s) == t;
      } else {
        var c := if IsJsSpace(s[0]) then ' ' else s[0];
        assert Collapse(s) == [c] + t;
        assert t != [] && IsJsSpace(c) ==> !IsJsSpace(t[0]) by {
          if t != [] && IsJsSpace(c) {
            assert t[0] == s[1];
          }
        }
      }
    }
  }

  /** A text that does not end in white space keeps its last character. */
  lemma {:induction false} CollapseLast(s: string)
    requires s != [] && !IsJsSpace(s[|s| - 1])
    ensures Collapse(s) != [] && Collapse(s)[|Collapse(s)| - 1] == s[|s| - 1]
  {
    if |s| > 1 {
      assert s[1..][|s| - 2] == s[|s| - 1];
      CollapseLast(s[1..]);
    }
  }

  /** Collapsing adds no upper-case letter. */
  lemma {:induction false} CollapseNoUpper(s: string)
    requires NoUpper(s)
    ensures NoUpper(Collapse(s))
  {
    if s != [] {
      assert NoUpper(s[1..]) by {
        forall i | 0 <= i < |s| - 1 ensures !IsUpper(s[1..][i]) {
          assert s[1..][i] == s[i + 1];
        }
      }
      CollapseNoUpper(s[1..]);
    }
  }

  function Normalize(answer: string): string
  {
    Collapse(Trim(Lower(answer)))
  }

  predicate NoUpper(s: string)
  {
    forall i :: 0 <= i < |s| ==> !IsUpper(s[i])
  }

  /** No white space but single spaces between other characters. */
  predicate SingleSpaced(s: string)
  {
    && (forall i :: 0 <= i < |s| ==> IsJsSpace(s[i]) ==> s[i] == ' ')
    && (forall i :: 0 <= i < |s| - 1 ==> !(IsJsSpace(s[i]) && IsJsSpace(s[i + 1])))
  }

  /** What normalisation produces: lower case, trimmed, single-spaced. */
  predicate IsNormal(s: string)
  {
    && (s != [] ==> !IsJsSpace(s[0]) && !IsJsSpace(s[|s| - 1]))
    && SingleSpaced(s)
    && NoUpper(s)
  }

  lemma LowerTrimmedNoUpper(answer: string)
    ensures NoUpper(Trim(Lower(answer)))
  {
    var l := Lower(answer);
    assert NoUpper(l) by {
      forall j | 0 <= j < |l| ensures !IsUpper(l[j]) {
        assert l[j] == ToLowerChar(answer[j]);
      }
    }
    var t := Trim(l);
    forall i | 0 <= i < |t| ensures !IsUpper(t[i]) {
      assert t[i] in t;
      var j :| 0 <= j < |l| && l[j] == t[i];
      assert !IsUpper(l[j]);
    }
  }

  /** Collapsing a trimmed text without upper-case letters gives a normal text. */
  lemma CollapseNormal(t: string)
    requires NoUpper(t)
    requires t != [] ==> !IsJsSpace(t[0]) && !IsJsSpace(t[|t| - 1])
    ensures IsNormal(Collapse(t))
  {
    var r := Collapse(t);
    CollapseNoUpper(t);
    CollapseSingleSpaced(t);
    if t != [] {
      CollapseLast(t);
    }
  }

  lemma NormalizeIsNormal(answer: string)
    ensures IsNormal(Normalize(answer))
  {
    LowerTrimmedNoUpper(answer);
    CollapseNormal(Trim(Lower(answer)));
  }

  lemma {:induction false} CollapseFixed(s: string)
    requires SingleSpaced(s)
    ensures Collapse(s) == s
  {
    if s != [] {
      assert SingleSpaced(s[1..]);
      CollapseFixed(s[1..]);
      assert s == [s[0]] + s[1..];
    }
  }

  /** A normal text is left as it is. */
  lemma NormalFixed(s: string)
    requires IsNormal(s)
    ensures Normalize(s) == s
  {
    assert Lower(s) == s;
    if s != [] {
      assert TrimStart(s) == s;
      assert DropTrailingSpaces(s) == s;
    }
    assert Trim(s) == s;
    CollapseFixed(s);
  }

  /** Normalising twice is normalising once. */
  lemma NormalizeIdempotent(answer: string)
    ensures Normalize(Normalize(answer)) == Normalize(answer)
  {
    NormalizeIsNormal(answer);
    NormalFixed(Normalize(answer));
  }

  // ---------------------------------------------------------------------
  // `hashAnswer`: `btoa` of the normalised answer.

  predicate Latin1(s: string)
  {
    forall i :: 0 <= i < |s| ==> s[i] as int < 256
  }

  function Bytes(s: string): (b: seq<Base64.Byte>)
    requires Latin1(s)
    ensures |b| == |s| && forall i :: 0 <= i < |s| ==> b[i] == s[i] as int
  {
    seq(|s|, i requires 0 <= i < |s| => s[i] as int)
  }

  /** `hashAnswer`; `None` is the exception `btoa` throws for a code unit above 0xFF. */
  function HashAnswer(answer: string): Option<string>
  {
    var n := Normalize(answer);
    if Latin1(n) then Some(Base64.Encode(Bytes(n))) else None
  }

  /**
   * Two answers that can be encoded get the same stored form exactly when
   * they normalise to the same text: case and spacing are ignored, nothing
   * else is.
   */
  lemma HashSeparates(a: string, b: string)
    ensures Normalize(a) == Normalize(b) ==> HashAnswer(a) == HashAnswer(b)
    ensures HashAnswer(a).Some? && HashAnswer(a) == HashAnswer(b) ==> Normalize(a) == Normalize(b)
  {
    if HashAnswer(a).Some? && HashAnswer(a) == HashAnswer(b) {
      var n, m := Normalize(a), Normalize(b);
      Base64.EncodeInjective(Bytes(n), Bytes(m));
      BytesInjective(n, m);
    }
  }

  lemma BytesInjective(n: string, m: string)
    requires Latin1(n) && Latin1(m) && Bytes(n) == Bytes(m)
    ensures n == m
  {
    assert |n| == |m|;
    forall i | 0 <= i < |n| ensures n[i] == m[i] {
      assert Bytes(n)[i] == Bytes(m)[i];
    }
  }

  /** Normalisation leaves the stored form unchanged. */
  lemma HashOfNormal(answer: string)
    ensures HashAnswer(Normalize(answer)) == HashAnswer(answer)
  {
    NormalizeIdempotent(answer);
  }

  // ---------------------------------------------------------------------
  // The hook's operations, with the database as a parameter.

  datatype SecurityQuestion = SecurityQuestion(question: string, answer: string)

  datatype State = State(questions: seq<SecurityQuestion>, isSetup: bool)

  datatype SetupOutcome =
    | TooFew(message: string)   // thrown before anything else happens
    | Failed                    // an answer `btoa` cannot encode, or the upsert failed
    | Stored(state: State)

  predicate Encodable(questions: seq<SecurityQuestion>)
  {
    forall i :: 0 <= i < |questions| ==> HashAnswer(questions[i].answer).Some?
  }

  function Hashed(questions: seq<SecurityQuestion>): (r: seq<SecurityQuestion>)
    requires Encodable(questions)
    ensures |r| == |questions|
  {
    seq(|questions|, i requires 0 <= i < |questions| =>
      SecurityQuestion(questions[i].question, HashAnswer(questions[i].answer).value))
  }

  /** `setupSecurityQuestions`; `upsertFails` is the database's answer. */
  function Setup(questions: seq<SecurityQuestion>, upsertFails: bool): (r: SetupOutcome)
    ensures r.TooFew? <==> |questions| < 3
    ensures r.Stored? <==> |questions| >= 3 && Encodable(questions) && !upsertFails
    ensures r.Stored? ==> r.state.isSetup && |r.state.questions| == |questions|
  {
    if |questions| < 3 then TooFew("Please set up at least 3 security questions")
    else if !Encodable(questions) || upsertFails then Failed
    else Stored(State(Hashed(questions), true))
  }

  /** The stored answer of each question in the table. */
  function Table(rows: seq<SecurityQuestion>): map<string, string>
  {
    if rows == [] then map[]
    else Table(rows[..|rows| - 1])[rows[|rows| - 1].question := rows[|rows| - 1].answer]
  }

  /**
   * `verifySecurityQuestions`: every answer's question must be found (a
   * missing row is a query error, which makes the result false) and its
   * stored form must equal the answer's.
   */
  function Verify(answers: seq<SecurityQuestion>, table: map<string, string>): (ok: bool)
  {
    forall i :: 0 <= i < |answers| ==>
      answers[i].question in table && HashAnswer(answers[i].answer) == Some(table[answers[i].question])
  }

  predicate DistinctQuestions(rows: seq<SecurityQuestion>)
  {
    forall i, j :: 0 <= i < j < |rows| ==> rows[i].question != rows[j].question
  }

  lemma {:induction false} TableLookup(rows: seq<SecurityQuestion>, k: nat)
    requires DistinctQuestions(rows) && k < |rows|
    ensures rows[k].question in Table(rows) && Table(rows)[rows[k].question] == rows[k].answer
  {
    if k < |rows| - 1 {
      TableLookup(rows[..|rows| - 1], k);
    }
  }

  /**
   * After a successful set-up, a list of answers to set-up questions
   * verifies exactly when each answer normalises to the answer given at
   * set-up; the empty list verifies.
   */
  lemma VerifyAfterSetup(questions: seq<SecurityQuestion>, answers: seq<SecurityQuestion>, pick: seq<nat>)
    requires Setup(questions, false).Stored? && DistinctQuestions(questions)
    requires |pick| == |answers|
    requires forall i :: 0 <= i < |answers| ==> pick[i] < |questions| && answers[i].question == questions[pick[i]].question
    ensures Verify(answers, Table(Setup(questions, false).state.questions)) <==>
      forall i :: 0 <= i < |answers| ==> Normalize(answers[i].answer) == Normalize(questions[pick[i]].answer)
    ensures Verify([], Table(Setup(questions, false).state.questions))
  {
    var rows := Setup(questions, false).state.questions;
    assert DistinctQuestions(rows);
    forall i | 0 <= i < |answers|
      ensures (answers[i].question in Table(rows) && HashAnswer(answers[i].answer) == Some(Table(rows)[answers[i].question]))
        <==> Normalize(answers[i].answer) == Normalize(questions[pick[i]].answer)
    {
      var k := pick[i];
      TableLookup(rows, k);
      assert Table(rows)[answers[i].question] == HashAnswer(questions[k].answer).value;
      HashSeparates(questions[k].answer, answers[i].answer);
    }
  }

  /** `loadSecurityQuestions`: `rows` is the query result, `None` an error that leaves the state alone. */
  function Load(state: State, rows: Option<seq<string>>): (r: State)
    ensures rows.None? ==> r == state
    ensures rows.Some? ==> (r.isSetup <==> |rows.value| > 0)
    ensures rows.Some? ==>
      && |r.questions| == |rows.value|
      && forall i :: 0 <= i < |r.questions| ==> r.questions[i] == SecurityQuestion(rows.value[i], "")
  {
    match rows
    case None => state
    case Some(qs) =>
      State(seq(|qs|, i requires 0 <= i < |qs| => SecurityQuestion(qs[i], "")), |qs| > 0)
  }
}
