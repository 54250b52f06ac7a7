/**
 * The value-level rules of the mock-interview screen: the fixed question
 * bank, the per-question countdown, the speech transcript, the MM:SS clock
 * and the question-progression rules of Submit and Skip.
 */
module SessionLogic {
  import opened Wrappers

  /** Seconds allowed for each question. */
  const TOTAL_TIME: nat := 165

  datatype Question = Question(id: nat, category: string, prompt: string, hint: string)

  /** The fixed, ordered question bank the session walks through. */
  const QUESTIONS: seq<Question> := [
    Question(1, "Technical: System Design",
      "\"Explain how you would approach designing a highly available notification service that needs to handle both push, email, and SMS triggers. What specific architectural components would you prioritize?\"",
      "Consider mentioning message queues for decoupling and how you would handle failures at the 3rd-party provider level."),
    Question(2, "Behavioral",
      "\"Tell me about a time you had to lead a cross-functional team through a technically challenging project. How did you manage conflicting priorities?\"",
      "Use the STAR method: Situation, Task, Action, Result. Quantify outcomes where possible."),
    Question(3, "Technical: Frontend",
      "\"How would you optimize a React application that is experiencing slow renders on a data-heavy dashboard? Walk me through your debugging and optimization process.\"",
      "Think about React.memo, useMemo, useCallback, virtualization (react-window), and code splitting."),
    Question(4, "Technical: Architecture",
      "\"What strategies would you use to ensure backward compatibility when evolving a public REST API that has thousands of active consumers?\"",
      "Cover versioning strategies (URL vs header-based), deprecation policies, and semantic versioning."),
    Question(5, "Situational",
      "\"A critical production bug was just reported 30 minutes before a major product demo. How do you prioritize and manage the situation?\"",
      "Focus on triage speed, stakeholder communication, hotfix vs rollback decision, and post-mortem.")
  ]

  /** Index of the last question, `QUESTIONS.length - 1`; `LastIndexOfBank` ties the two. */
  const LAST_INDEX: int := 4

  /** The last index names the last question of the bank. */
  lemma LastIndexOfBank()
    ensures |QUESTIONS| == LAST_INDEX + 1
    ensures QUESTIONS[LAST_INDEX].id == |QUESTIONS|
  {
  }

  // ---------------------------------------------------------------------
  // Countdown
  // ---------------------------------------------------------------------

  /** One countdown tick: `t <= 1` yields 0, anything else `t - 1`. */
  function CountdownStep(t: nat): (r: nat)
    ensures t == 0 ==> r == 0
    ensures t > 0 ==> r + 1 == t
  {
    if t <= 1 then 0 else t - 1
  }

  /** The countdown interval keeps running after a tick from `t` only when `t > 1`. */
  predicate CountdownContinues(t: nat) {
    t > 1
  }

  /** The value left after `n` ticks starting from `t`. */
  function TicksFrom(t: nat, n: nat): nat
    decreases n
  {
    if n == 0 then t else TicksFrom(CountdownStep(t), n - 1)
  }

  /** `n` ticks subtract `n` seconds and never go below zero. */
  lemma {:induction false} TicksFloorAtZero(t: nat, n: nat)
    ensures TicksFrom(t, n) == if n >= t then 0 else t - n
    decreases n
  {
    if n > 0 {
      TicksFloorAtZero(CountdownStep(t), n - 1);
    }
  }

  /** A full budget of ticks empties the countdown exactly. */
  lemma FullBudgetReachesZero()
    ensures TicksFrom(TOTAL_TIME, TOTAL_TIME) == 0
    ensures TicksFrom(TOTAL_TIME, TOTAL_TIME - 1) == 1
  {
    TicksFloorAtZero(TOTAL_TIME, TOTAL_TIME);
    TicksFloorAtZero(TOTAL_TIME, TOTAL_TIME - 1);
  }

  // ---------------------------------------------------------------------
  // Speech transcript
  // ---------------------------------------------------------------------

  /** The in-order concatenation of every result segment's transcript. */
  function Concat(segments: seq<string>): string
    decreases |segments|
  {
    if segments == [] then ""
    else Concat(segments[..|segments| - 1]) + segments[|segments| - 1]
  }

  /** Concatenation distributes over appending batches of segments. */
  lemma {:induction false} ConcatAppend(a: seq<string>, b: seq<string>)
    ensures Concat(a + b) == Concat(a) + Concat(b)
    decreases |b|
  {
    if b == [] {
      assert a + b == a;
    } else {
      var b' := b[..|b| - 1];
      assert (a + b)[..|a + b| - 1] == a + b';
      ConcatAppend(a, b');
    }
  }

  /** The transcript of the first `i` segments is never longer than that of all of them. */
  lemma {:induction false} ConcatLength(segments: seq<string>, i: nat)
    requires i <= |segments|
    ensures |Concat(segments[..i])| <= |Concat(segments)|
  {
    assert segments == segments[..i] + segments[i..];
    ConcatAppend(segments[..i], segments[i..]);
  }

  /** When recognition only adds segments, the earlier transcript is a prefix of the later one. */
  lemma GrowingResults(earlier: seq<string>, later: seq<string>)
    requires earlier <= later
    ensures Concat(earlier) <= Concat(later)
  {
    assert later == earlier + later[|earlier|..];
    ConcatAppend(earlier, later[|earlier|..]);
  }

  /** The `onresult` loop that accumulates `event.results[i][0].transcript`. */
  method BuildTranscript(segments: seq<string>) returns (transcript: string)
    ensures transcript == Concat(segments)
  {
    transcript := "";
    var i := 0;
    while i < |segments|
      invariant 0 <= i <= |segments|
      invariant transcript == Concat(segments[..i])
    {
      assert segments[..i + 1][..i] == segments[..i];
      transcript := transcript + segments[i];
      i := i + 1;
    }
    assert segments[..i] == segments;
  }

  // ---------------------------------------------------------------------
  // MM:SS clock
  // ---------------------------------------------------------------------

  function DigitChar(d: nat): char
    requires d < 10
  {
    ['0', '1', '2', '3', '4', '5', '6', '7', '8', '9'][d]
  }

  predicate IsDigit(c: char) {
    '0' <= c <= '9'
  }

  function DigitValue(c: char): nat
    requires IsDigit(c)
  {
    (c as int - '0' as int) as nat
  }

  predicate AllDigits(s: string) {
    forall i :: 0 <= i < |s| ==> IsDigit(s[i])
  }

  /** `String(n)` for a non-negative integer: its decimal digits, no leading zero. */
  function Decimal(n: nat): (r: string)
    ensures |r| >= 1 && AllDigits(r)
    ensures r[0] == '0' <==> n == 0
    ensures n < 10 <==> |r| == 1
    ensures n < 100 ==> |r| <= 2
    decreases n
  {
    if n < 10 then [DigitChar(n)] else Decimal(n / 10) + [DigitChar(n % 10)]
  }

  /** The number a string of decimal digits denotes; leading zeros do not count. */
  function DecimalValue(s: string): nat
    requires AllDigits(s)
    decreases |s|
  {
    if s == [] then 0 else DecimalValue(s[..|s| - 1]) * 10 + DigitValue(s[|s| - 1])
  }

  /** Reading back a printed number gives the number. */
  lemma {:induction false} DecimalRoundTrip(n: nat)
    ensures DecimalValue(Decimal(n)) == n
    decreases n
  {
    if n >= 10 {
      DecimalRoundTrip(n / 10);
      var s := Decimal(n);
      assert s[..|s| - 1] == Decimal(n / 10);
    }
  }

  /** `str.padStart(2, '0')`. */
  function PadStart2(s: string): (r: string)
    ensures |r| == if |s| >= 2 then |s| else 2
    decreases 2 - |s|
  {
    if |s| >= 2 then s else PadStart2("0" + s)
  }

  /** A leading zero does not change the value of a digit string. */
  lemma {:induction false} LeadingZero(s: string)
    requires AllDigits(s)
    ensures AllDigits("0" + s) && DecimalValue("0" + s) == DecimalValue(s)
    decreases |s|
  {
    var z := "0" + s;
    assert AllDigits(z);
    if s != [] {
      assert z[..|z| - 1] == "0" + s[..|s| - 1];
      LeadingZero(s[..|s| - 1]);
    }
  }

  /** Padding keeps a digit string a digit string of the same value. */
  lemma {:induction false} PadKeepsValue(s: string)
    requires AllDigits(s)
    ensures AllDigits(PadStart2(s)) && DecimalValue(PadStart2(s)) == DecimalValue(s)
    decreases 2 - |s|
  {
    if |s| < 2 {
      LeadingZero(s);
      PadKeepsValue("0" + s);
    }
  }

  /** `formatRecTime`: two-digit `floor(s / 60)`, a colon, two-digit `s % 60`. */
  function FormatRecTime(s: nat): (r: string)
    ensures |r| >= 5 && r[|r| - 3] == ':'
    ensures s < 6000 ==> |r| == 5
  {
    PadStart2(Decimal(s / 60)) + ":" + PadStart2(Decimal(s % 60))
  }

  /** Reads a clock string back: minutes before the colon, two seconds digits after it. */
  function ReadClock(t: string): Option<nat>
  {
    if |t| < 3 || t[|t| - 3] != ':' then None
    else
      var mm, ss := t[..|t| - 3], t[|t| - 2..];
      if AllDigits(mm) && AllDigits(ss) then Some(DecimalValue(mm) * 60 + DecimalValue(ss))
      else None
  }

  /** A clock string made of digit fields reads back as minutes × 60 + seconds. */
  lemma ReadClockOf(mm: string, ss: string, m: nat, sec: nat)
    requires AllDigits(mm) && AllDigits(ss) && |ss| == 2
    requires DecimalValue(mm) == m && DecimalValue(ss) == sec
    ensures ReadClock(mm + ":" + ss) == Some(m * 60 + sec)
  {
    var t := mm + ":" + ss;
    var k := |mm|;
    assert |t| == k + 3 && t[k] == ':';
    assert t[..k] == mm;
    assert t[k + 1..] == ss;
  }

  /** A number printed and padded to two places is a digit string denoting the number. */
  lemma PaddedValue(n: nat)
    ensures AllDigits(PadStart2(Decimal(n))) && DecimalValue(PadStart2(Decimal(n))) == n
    ensures n < 100 ==> |PadStart2(Decimal(n))| == 2
  {
    DecimalRoundTrip(n);
    PadKeepsValue(Decimal(n));
  }

  /** Minutes and seconds (below 100) printed as the clock read back as minutes × 60 + seconds. */
  lemma ClockValue(m: nat, sec: nat)
    requires sec < 100
    ensures ReadClock(PadStart2(Decimal(m)) + ":" + PadStart2(Decimal(sec))) == Some(m * 60 + sec)
  {
    PaddedValue(m);
    PaddedValue(sec);
    ReadClockOf(PadStart2(Decimal(m)), PadStart2(Decimal(sec)), m, sec);
  }

  /** The clock shows exactly the elapsed seconds: minutes times 60 plus seconds is `s`. */
  lemma FormatRecTimeReadsBack(s: nat)
    ensures ReadClock(FormatRecTime(s)) == Some(s)
  {
    ClockValue(s / 60, s % 60);
  }

  /** The value of a two-digit string. */
  lemma TwoDigitValue(s: string)
    requires |s| == 2 && AllDigits(s)
    ensures DecimalValue(s) == DigitValue(s[0]) * 10 + DigitValue(s[1])
  {
    var h := s[..1];
    assert h[..0] == [] && h[0] == s[0];
    assert DecimalValue(h) == DigitValue(s[0]);
    assert DecimalValue(s) == DecimalValue(h) * 10 + DigitValue(s[1]);
  }

  /** The fields on either side of the colon of `mm + ":" + ss`, when `ss` has two characters. */
  lemma ClockFieldsOf(mm: string, ss: string)
    requires |ss| == 2
    ensures var t := mm + ":" + ss;
            |t| == |mm| + 3 && t[..|t| - 3] == mm && t[|t| - 2..] == ss
  {
    var t := mm + ":" + ss;
    assert t[..|mm|] == mm;
    assert t[|mm| + 1..] == ss;
  }

  /** Minutes and seconds (below 100) printed as the clock: each field reads back as its number. */
  lemma ClockFields(m: nat, sec: nat)
    requires sec < 100
    ensures var t := PadStart2(Decimal(m)) + ":" + PadStart2(Decimal(sec));
            && AllDigits(t[..|t| - 3]) && AllDigits(t[|t| - 2..])
            && DecimalValue(t[..|t| - 3]) == m
            && DecimalValue(t[|t| - 2..]) == sec
  {
    PaddedValue(m);
    PaddedValue(sec);
    ClockFieldsOf(PadStart2(Decimal(m)), PadStart2(Decimal(sec)));
  }

  /**
   * The two fields of the clock: before the colon the digits of the whole
   * minutes `s / 60`, after it the two digits of the remaining seconds `s % 60`.
   */
  lemma FormatRecTimeFields(s: nat)
    ensures var t := FormatRecTime(s);
            && AllDigits(t[..|t| - 3]) && AllDigits(t[|t| - 2..])
            && DecimalValue(t[..|t| - 3]) == s / 60
            && DecimalValue(t[|t| - 2..]) == s % 60
  {
    ClockFields(s / 60, s % 60);
  }

  /** Under 100 minutes the clock has the fixed shape `DD:DD`: minutes, colon, seconds. */
  lemma FormatRecTimeShape(s: nat)
    requires s < 6000
    ensures var t := FormatRecTime(s);
            |t| == 5 && t[2] == ':' && AllDigits(t[..2]) && AllDigits(t[3..])
            && DigitValue(t[0]) * 10 + DigitValue(t[1]) == s / 60
            && DigitValue(t[3]) * 10 + DigitValue(t[4]) == s % 60
  {
    FormatRecTimeFields(s);
    var t := FormatRecTime(s);
    assert t[..2] == t[..|t| - 3] && t[3..] == t[|t| - 2..];
    TwoDigitValue(t[..2]);
    TwoDigitValue(t[3..]);
  }

  // ---------------------------------------------------------------------
  // Keyboard shortcut
  // ---------------------------------------------------------------------

  /** The space bar toggles the microphone unless the key went to the answer text area. */
  predicate SpaceTogglesMic(code: string, targetTag: string) {
    code == "Space" && targetTag != "TEXTAREA"
  }

  // ---------------------------------------------------------------------
  // Question progression: Submit, Skip and the delayed advance
  // ---------------------------------------------------------------------

  /**
   * The part of the session state that Submit, Skip and the two submit
   * timeouts touch. `pendingAdvances` counts the 600 ms advance timeouts
   * still scheduled; `completionScheduled` is the 800 ms navigation to the
   * results page; `completed` says that navigation has happened.
   */
  datatype Progress = Progress(
    idx: int,
    submitted: bool,
    pendingAdvances: nat,
    completionScheduled: bool,
    completed: bool)

  datatype ProgressEvent =
    | SubmitClicked        // handleSubmit; ignored while the button is disabled
    | SkipClicked          // handleSkip
    | AdvanceElapsed       // one 600 ms advance timeout fires
    | CompletionElapsed    // the 800 ms navigation timeout fires

  const START: Progress := Progress(0, false, 0, false, false)

  /** The shared effect of clicking Submit. */
  function Submit(p: Progress): (r: Progress)
    ensures r.submitted && r.idx == p.idx && r.completed == p.completed
    ensures p.submitted ==> r == p
    ensures !p.submitted && p.idx < LAST_INDEX ==>
              r.pendingAdvances == p.pendingAdvances + 1 && r.completionScheduled == p.completionScheduled
    ensures !p.submitted && p.idx >= LAST_INDEX ==>
              r.completionScheduled && r.pendingAdvances == p.pendingAdvances
  {
    if p.submitted then p
    else if p.idx < LAST_INDEX then p.(submitted := true, pendingAdvances := p.pendingAdvances + 1)
    else p.(submitted := true, completionScheduled := true)
  }

  /** The shared effect of the navigation timeout. */
  function Complete(p: Progress): (r: Progress)
    ensures !r.completionScheduled && r.completed == (p.completed || p.completionScheduled)
    ensures r.idx == p.idx && r.submitted == p.submitted && r.pendingAdvances == p.pendingAdvances
  {
    if p.completionScheduled then p.(completionScheduled := false, completed := true) else p
  }

  /**
   * The rules as written: Skip moves on without cancelling an advance that an
   * earlier Submit scheduled, and that advance increments the index it finds.
   */
  function StepAsWritten(p: Progress, e: ProgressEvent): Progress {
    match e
    case SubmitClicked => Submit(p)
    case SkipClicked => p.(submitted := false, idx := if p.idx < LAST_INDEX then p.idx + 1 else p.idx)
    case AdvanceElapsed =>
      if p.pendingAdvances == 0 then p
      else p.(submitted := false, idx := p.idx + 1, pendingAdvances := p.pendingAdvances - 1)
    case CompletionElapsed => Complete(p)
  }

  /**
   * The rules with the advance bound to its question: moving to another
   * question cancels a scheduled advance, as every other timer of the screen
   * is cancelled when the question changes.
   */
  function StepCorrected(p: Progress, e: ProgressEvent): Progress {
    match e
    case SubmitClicked => Submit(p)
    case SkipClicked =>
      if p.idx < LAST_INDEX then p.(submitted := false, idx := p.idx + 1, pendingAdvances := 0)
      else p.(submitted := false)
    case AdvanceElapsed =>
      if p.pendingAdvances == 0 then p
      else p.(submitted := false, idx := p.idx + 1, pendingAdvances := 0)
    case CompletionElapsed => Complete(p)
  }

  function RunAsWritten(p: Progress, es: seq<ProgressEvent>): Progress
    decreases |es|
  {
    if es == [] then p else RunAsWritten(StepAsWritten(p, es[0]), es[1..])
  }

  function RunCorrected(p: Progress, es: seq<ProgressEvent>): Progress
    decreases |es|
  {
    if es == [] then p else RunCorrected(StepCorrected(p, es[0]), es[1..])
  }

  /**
   * The progression invariant: the index names a question, at most one
   * advance is pending, and a pending advance belongs to a submitted,
   * non-last question.
   */
  predicate ProgressOk(p: Progress) {
    && 0 <= p.idx <= LAST_INDEX
    && p.pendingAdvances <= 1
    && (p.pendingAdvances == 1 ==> p.submitted && p.idx < LAST_INDEX)
  }

  /**
   * As written, Submit on the fourth question followed by Skip within the
   * 600 ms window lets the stale advance push the index to 5, past the
   * last question, where `QUESTIONS[5]` is undefined.
   */
  lemma AsWrittenIndexOverrun()
    ensures var p := Progress(3, false, 0, false, false);
            ProgressOk(p)
            && RunAsWritten(p, [SubmitClicked, SkipClicked, AdvanceElapsed]).idx == 5
            && !ProgressOk(RunAsWritten(p, [SubmitClicked, SkipClicked, AdvanceElapsed]))
  {
    var p := Progress(3, false, 0, false, false);
    var es := [SubmitClicked, SkipClicked, AdvanceElapsed];
    var p1 := StepAsWritten(p, SubmitClicked);
    var p2 := StepAsWritten(p1, SkipClicked);
    var p3 := StepAsWritten(p2, AdvanceElapsed);
    assert p3.idx == 5;
    assert es[1..][1..][1..] == [];
    assert RunAsWritten(p, es) == p3;
  }

  /** Every corrected step keeps the progression invariant. */
  lemma StepCorrectedKeepsOk(p: Progress, e: ProgressEvent)
    requires ProgressOk(p)
    ensures ProgressOk(StepCorrected(p, e))
  {
  }

  /** Under the corrected rules, the index stays within the question bank whatever happens. */
  lemma {:induction false} RunCorrectedKeepsOk(p: Progress, es: seq<ProgressEvent>)
    requires ProgressOk(p)
    ensures ProgressOk(RunCorrected(p, es))
    ensures 0 <= RunCorrected(p, es).idx <= LAST_INDEX
    decreases |es|
  {
    if es != [] {
      StepCorrectedKeepsOk(p, es[0]);
      RunCorrectedKeepsOk(StepCorrected(p, es[0]), es[1..]);
    }
  }

  /** The corrected rules never move backwards: the index only grows. */
  lemma {:induction false} RunCorrectedMonotone(p: Progress, es: seq<ProgressEvent>)
    ensures RunCorrected(p, es).idx >= p.idx
    decreases |es|
  {
    if es != [] {
      RunCorrectedMonotone(StepCorrected(p, es[0]), es[1..]);
    }
  }

  /** Submitting a non-last question and letting the delay elapse advances by exactly one. */
  lemma SubmitAdvancesByOne(p: Progress)
    requires ProgressOk(p) && !p.submitted && p.idx < LAST_INDEX
    ensures var q := StepCorrected(StepCorrected(p, SubmitClicked), AdvanceElapsed);
            q.idx == p.idx + 1 && !q.submitted && q.completed == p.completed && ProgressOk(q)
  {
  }

  /** Submitting the last question keeps the index and completes the session. */
  lemma SubmitLastCompletes(p: Progress)
    requires ProgressOk(p) && !p.submitted && p.idx == LAST_INDEX
    ensures var q := StepCorrected(StepCorrected(p, SubmitClicked), CompletionElapsed);
            q.idx == LAST_INDEX && q.completed
  {
  }

  /** Skipping the last question only clears `submitted`: no completion is signalled. */
  lemma SkipLastNoCompletion(p: Progress)
    requires p.idx == LAST_INDEX
    ensures StepCorrected(p, SkipClicked) == p.(submitted := false)
  {
  }

  /** The corrected rules differ from the written ones only when an advance is pending. */
  lemma CorrectedAgreesWhenNothingPending(p: Progress, e: ProgressEvent)
    requires p.pendingAdvances == 0
    ensures StepCorrected(p, e) == StepAsWritten(p, e)
  {
  }
}
