/**
 * The quiz page: one answer slot per question, the question cursor moved by
 * "Previous", "Next" and the question grid, the buttons each state enables,
 * and the m:ss rendering of the time remaining.
 */
module Quiz {
  import opened Wrappers
  import opened Text
  import opened Feeds

  /** The time allowed: 30 minutes, in seconds. */
  const TimeAllowed := 1800

  /** The answer slots of a fresh attempt: one empty slot per question. */
  function NoAnswers(n: nat): (r: seq<Option<int>>)
    ensures |r| == n
    ensures forall i :: 0 <= i < n ==> r[i].None?
  {
    seq(n, i => None)
  }

  /** The slots after choosing option `a` for question `cur`: that slot holds `a`, every other slot is kept. */
  function WithAnswer(answers: seq<Option<int>>, cur: int, a: int): (r: seq<Option<int>>)
    requires 0 <= cur < |answers|
    ensures |r| == |answers|
    ensures r[cur] == Some(a)
    ensures forall i :: 0 <= i < |r| && i != cur ==> r[i] == answers[i]
  {
    answers[cur := Some(a)]
  }

  /** `isLastQuestion`. */
  predicate IsLastQuestion(cur: int, n: int) {
    cur == n - 1
  }

  /** `hasAnswered`: the current question's slot holds an option. */
  predicate HasAnswered(answers: seq<Option<int>>, cur: int)
    requires 0 <= cur < |answers|
  {
    answers[cur].Some?
  }

  /** The number of slots holding an option (the grid marks those questions as answered). */
  function AnsweredCount(answers: seq<Option<int>>): nat
    decreases |answers|
  {
    if answers == [] then 0
    else AnsweredCount(answers[..|answers| - 1]) + (if answers[|answers| - 1].Some? then 1 else 0)
  }

  /** A fresh attempt has nothing answered. */
  lemma {:induction false} NoAnswersCount(n: nat)
    ensures AnsweredCount(NoAnswers(n)) == 0
  {
    if n > 0 {
      assert NoAnswers(n)[..n - 1] == NoAnswers(n - 1);
      NoAnswersCount(n - 1);
    }
  }

  /**
   * The footer button: before an answer neither "Next" nor "Submit Test" is enabled; once the
   * current question is answered, "Submit Test" is enabled on the last question and "Next" on
   * every other one.
   */
  lemma AnsweringEnablesOneButton(answers: seq<Option<int>>, cur: int, a: int)
    requires 0 <= cur < |answers|
    ensures !HasAnswered(answers, cur) ==> !SubmitEnabled(answers, cur) && !NextEnabled(answers, cur)
    ensures SubmitEnabled(WithAnswer(answers, cur, a), cur) <==> cur == |answers| - 1
    ensures NextEnabled(WithAnswer(answers, cur, a), cur) <==> cur < |answers| - 1
  {
  }

  /**
   * Choosing an option answers the current question, and the answered count
   * grows by one exactly when the question had no answer yet.
   */
  lemma {:induction false} AnswerCounted(answers: seq<Option<int>>, cur: int, a: int)
    requires 0 <= cur < |answers|
    ensures HasAnswered(WithAnswer(answers, cur, a), cur)
    ensures AnsweredCount(WithAnswer(answers, cur, a))
              == AnsweredCount(answers) + (if answers[cur].None? then 1 else 0)
    decreases |answers|
  {
    var r := WithAnswer(answers, cur, a);
    var last := |answers| - 1;
    if cur < last {
      assert r[..last] == WithAnswer(answers[..last], cur, a);
      AnswerCounted(answers[..last], cur, a);
    } else {
      assert r[..last] == answers[..last];
    }
  }

  /** "Submit Test" is shown on the last question and enabled once it is answered. */
  predicate SubmitEnabled(answers: seq<Option<int>>, cur: int)
    requires 0 <= cur < |answers|
  {
    IsLastQuestion(cur, |answers|) && HasAnswered(answers, cur)
  }

  /** "Next" is shown on the other questions and enabled once the current one is answered. */
  predicate NextEnabled(answers: seq<Option<int>>, cur: int)
    requires 0 <= cur < |answers|
  {
    !IsLastQuestion(cur, |answers|) && HasAnswered(answers, cur)
  }

  /** An enabled "Next" always moves on; on the last question it is replaced by "Submit Test". */
  lemma NextEnabledMoves(answers: seq<Option<int>>, cur: int)
    requires 0 <= cur < |answers|
    ensures NextEnabled(answers, cur) ==> BoundedStep(cur, Up, |answers|) == cur + 1
    ensures !(NextEnabled(answers, cur) && SubmitEnabled(answers, cur))
  {
  }

  /**
   * `padStart(2, '0')` on a non-empty string (the clock only pads decimal renderings,
   * which have at least one digit): one zero in front of a single character, a longer
   * string kept as it is.
   */
  function PadTwo(s: string): (r: string)
    requires |s| >= 1
    ensures |r| == if |s| < 2 then 2 else |s|
    ensures |s| < 2 ==> r == "0" + s
    ensures |s| >= 2 ==> r == s
  {
    if |s| < 2 then "0" + s else s
  }

  /** Below 100, the padded rendering is exactly the tens digit and the units digit. */
  lemma PadTwoDigits(n: nat)
    requires n < 100
    ensures PadTwo(NatToString(n)) == [DigitChar(n / 10), DigitChar(n % 10)]
  {
  }

  /** The shape of a rendered time: decimal minutes, ':', two decimal digits. */
  predicate TimeShaped(t: string) {
    |t| >= 4 && t[|t| - 3] == ':'
    && (forall i :: 0 <= i < |t| - 3 ==> IsDigit(t[i]))
    && IsDigit(t[|t| - 2]) && IsDigit(t[|t| - 1])
  }

  /** Reading a rendered time back into seconds; a string of another shape gives nothing. */
  function ParseTime(t: string): (r: Option<nat>)
    ensures r.Some? <==> TimeShaped(t)
  {
    if TimeShaped(t) then
      Some(DigitsValue(t[..|t| - 3]) * 60 + DigitValue(t[|t| - 2]) * 10 + DigitValue(t[|t| - 1]))
    else None
  }

  /** `formatTime`: whole minutes, a colon, and the remaining seconds as two digits. */
  function FormatTime(seconds: nat): (r: string)
    ensures TimeShaped(r)
    ensures r[..|r| - 3] == NatToString(seconds / 60)
    ensures r[|r| - 2..] == [DigitChar(seconds % 60 / 10), DigitChar(seconds % 60 % 10)]
  {
    PadTwoDigits(seconds % 60);
    var m := NatToString(seconds / 60);
    var r := m + ":" + PadTwo(NatToString(seconds % 60));
    assert r[..|r| - 3] == m;
    r
  }

  /** Reading back a string of the rendered shape: the minutes times sixty plus the two seconds digits. */
  lemma {:induction false} ParseShaped(r: string, m: nat, s: nat)
    requires s < 60 && TimeShaped(r)
    requires r[..|r| - 3] == NatToString(m)
    requires r[|r| - 2..] == [DigitChar(s / 10), DigitChar(s % 10)]
    ensures ParseTime(r) == Some(m * 60 + s)
  {
    DigitsValueOfNatToString(m);
    assert r[|r| - 2] == DigitChar(s / 10) && r[|r| - 1] == DigitChar(s % 10) by {
      assert r[|r| - 2..][0] == r[|r| - 2] && r[|r| - 2..][1] == r[|r| - 1];
    }
  }

  /** Reading the rendering back gives the number of seconds. */
  lemma {:induction false} FormatTimeRoundTrip(seconds: nat)
    ensures ParseTime(FormatTime(seconds)) == Some(seconds)
  {
    var r := FormatTime(seconds);
    ParseRendered(r, seconds);
  }

  /** A string with the rendered shape of `seconds` reads back as `seconds`. */
  lemma {:induction false} ParseRendered(r: string, seconds: nat)
    requires TimeShaped(r)
    requires r[..|r| - 3] == NatToString(seconds / 60)
    requires r[|r| - 2..] == [DigitChar(seconds % 60 / 10), DigitChar(seconds % 60 % 10)]
    ensures ParseTime(r) == Some(seconds)
  {
    var m, s := seconds / 60, seconds % 60;
    assert m * 60 + s == seconds;
    ParseShaped(r, m, s);
  }

  /** The clock starts at "30:00". */
  lemma TimeAllowedShown()
    ensures FormatTime(TimeAllowed) == "30:00"
  {
    var r := FormatTime(TimeAllowed);
    assert NatToString(30) == "30" by {
      assert NatToString(3) == "3";
    }
    RenderedParts(r);
  }

  /** A rendered time is its minutes, the colon and its two seconds digits. */
  lemma RenderedParts(r: string)
    requires TimeShaped(r)
    ensures r == r[..|r| - 3] + ":" + r[|r| - 2..]
  {
  }

  /** One attempt at a quiz of `n` questions. */
  class Attempt {
    const n: int
    var currentQuestion: int
    var answers: seq<Option<int>>
    var timeRemaining: int
    var isBookmarked: bool

    /** One slot per question, and the cursor on a question. */
    predicate Valid()
      reads this
    {
      |answers| == n && 0 <= currentQuestion < n
    }

    /** A fresh attempt at a quiz of `count` questions (the page renders the current question, so there is one). */
    constructor (count: nat)
      requires count >= 1
      ensures Valid()
      ensures n == count && currentQuestion == 0 && answers == NoAnswers(count)
      ensures timeRemaining == TimeAllowed && !isBookmarked
    {
      n := count;
      currentQuestion := 0;
      answers := NoAnswers(count);
      timeRemaining := TimeAllowed;
      isBookmarked := false;
    }

    /** `handleAnswerSelect`. */
    method SelectAnswer(a: int)
      requires Valid()
      modifies this`answers
      ensures Valid()
      ensures answers == WithAnswer(old(answers), currentQuestion, a)
    {
      answers := answers[currentQuestion := Some(a)];
    }

    /** `handleNext`. */
    method Next()
      requires Valid()
      modifies this`currentQuestion
      ensures Valid()
      ensures currentQuestion == BoundedStep(old(currentQuestion), Up, n)
    {
      if currentQuestion < n - 1 {
        currentQuestion := currentQuestion + 1;
      }
    }

    /** `handlePrevious`. */
    method Previous()
      requires Valid()
      modifies this`currentQuestion
      ensures Valid()
      ensures currentQuestion == BoundedStep(old(currentQuestion), Down, n)
    {
      if currentQuestion > 0 {
        currentQuestion := currentQuestion - 1;
      }
    }

    /** A click on question `index` of the question grid. */
    method JumpTo(index: int)
      requires Valid() && 0 <= index < n
      modifies this`currentQuestion
      ensures Valid() && currentQuestion == index
    {
      currentQuestion := index;
    }

    method ToggleBookmark()
      modifies this`isBookmarked
      ensures isBookmarked == !old(isBookmarked)
    {
      isBookmarked := !isBookmarked;
    }

    /** `handleSubmit`: the answers handed to the caller. */
    method Submit() returns (r: seq<Option<int>>)
      requires Valid()
      ensures r == answers && |r| == n
    {
      r := answers;
    }
  }
}
