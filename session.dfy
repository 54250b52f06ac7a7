/**
 * The mock-interview screen as a state machine. Each field is one piece of
 * component state; each method is one event: a click, a key press, a timer
 * callback or a speech-recognition callback. Timers are not clocks here:
 * a callback that would fire is an event method (`Tick`, `RecTick`,
 * `SpeakDelayElapsed`, `SubmitDelayElapsed`, `CompletionDelayElapsed`), and
 * a cancelled timer is one whose armed flag is false.
 */
module Session {
  import opened SessionLogic

  class InterviewSession {
    /** Whether the browser offers speech recognition; fixed for the page's life. */
    const speechSupported: bool

    var questionIdx: int
    var response: string
    var timeLeft: nat
    /** The 1-second countdown interval is scheduled. */
    var countdownRunning: bool
    var isRecording: bool
    var recordingTime: nat
    var showHint: bool
    var isInterviewerSpeaking: bool
    /** The 2.5-second "interviewer speaking" timeout is scheduled. */
    var speakTimerArmed: bool
    var submitted: bool
    /** 600 ms advance timeouts still scheduled by Submit. */
    var pendingAdvances: nat
    /** The 800 ms navigation to the results page is scheduled. */
    var completionScheduled: bool
    /** The session has navigated to the results page. */
    var completed: bool
    /** A recognizer has been created, so its callbacks can arrive. */
    var hasRecognizer: bool

    /** The fields Submit, Skip and the submit timeouts act on. */
    function ProgressOf(): Progress
      reads this
    {
      Progress(questionIdx, submitted, pendingAdvances, completionScheduled, completed)
    }

    /** The recording counter is zero whenever nothing is recording; no recognizer without support. */
    ghost predicate RecordingOk()
      reads this
    {
      && (!isRecording ==> recordingTime == 0)
      && (!speechSupported ==> !hasRecognizer)
    }

    ghost predicate Valid()
      reads this
    {
      && ProgressOk(ProgressOf())
      && timeLeft <= TOTAL_TIME
      && (countdownRunning ==> timeLeft > 0)
      && RecordingOk()
    }

    /** The state once the screen has mounted and its effects have run for question 0. */
    constructor (speechSupported: bool)
      ensures Valid()
      ensures this.speechSupported == speechSupported
      ensures ProgressOf() == START
      ensures response == "" && timeLeft == TOTAL_TIME && countdownRunning
      ensures !isRecording && recordingTime == 0
      ensures showHint && isInterviewerSpeaking && speakTimerArmed && !hasRecognizer
    {
      this.speechSupported := speechSupported;
      questionIdx, response := 0, "";
      timeLeft, countdownRunning := TOTAL_TIME, true;
      isRecording, recordingTime := false, 0;
      showHint := true;
      isInterviewerSpeaking, speakTimerArmed := true, true;
      submitted, pendingAdvances := false, 0;
      completionScheduled, completed := false, false;
      hasRecognizer := false;
    }

    /**
     * The effects that run when `questionIdx` changes: the countdown restarts
     * from the full budget and the interviewer speaks again. The hint, the
     * response and the recording are not touched. A pending submit advance is
     * also dropped here; the page as written never clears that timeout, which
     * is the defect `StepAsWritten` records and `StepCorrected` repairs.
     */
    method LoadQuestion(next: int)
      requires RecordingOk()
      requires next == questionIdx + 1 && 0 <= next <= LAST_INDEX
      modifies this`questionIdx, this`timeLeft, this`countdownRunning,
               this`isInterviewerSpeaking, this`speakTimerArmed, this`pendingAdvances
      ensures Valid()
      ensures questionIdx == next && pendingAdvances == 0
      ensures timeLeft == TOTAL_TIME && countdownRunning
      ensures isInterviewerSpeaking && speakTimerArmed
      ensures submitted == old(submitted)
    {
      questionIdx := next;
      timeLeft, countdownRunning := TOTAL_TIME, true;
      isInterviewerSpeaking, speakTimerArmed := true, true;
      pendingAdvances := 0;
    }

    /** One firing of the countdown interval; the interval stops itself at 0 and never advances. */
    method Tick()
      requires Valid()
      modifies this`timeLeft, this`countdownRunning
      ensures Valid()
      ensures old(countdownRunning) ==> timeLeft == CountdownStep(old(timeLeft))
      ensures !old(countdownRunning) ==> timeLeft == old(timeLeft)
      ensures countdownRunning == (old(countdownRunning) && CountdownContinues(old(timeLeft)))
      ensures timeLeft == 0 <==> (old(timeLeft) == 0 || (old(countdownRunning) && old(timeLeft) == 1))
    {
      if countdownRunning {
        countdownRunning := CountdownContinues(timeLeft);
        timeLeft := CountdownStep(timeLeft);
      }
    }

    /** The 2.5-second timeout: the interviewer stops speaking. */
    method SpeakDelayElapsed()
      requires Valid()
      modifies this`isInterviewerSpeaking, this`speakTimerArmed
      ensures Valid()
      ensures old(speakTimerArmed) ==> !isInterviewerSpeaking && !speakTimerArmed
      ensures !old(speakTimerArmed) ==> isInterviewerSpeaking == old(isInterviewerSpeaking) && !speakTimerArmed
    {
      if speakTimerArmed {
        isInterviewerSpeaking, speakTimerArmed := false, false;
      }
    }

    /** One firing of the recording interval, which runs only while recording. */
    method RecTick()
      requires Valid()
      modifies this`recordingTime
      ensures Valid()
      ensures recordingTime == if isRecording then old(recordingTime) + 1 else 0
    {
      if isRecording {
        recordingTime := recordingTime + 1;
      }
    }

    /**
     * `toggleMic`: without speech recognition it only flips the flag; with it,
     * it stops a running recognizer or creates and starts a new one. Either
     * way the flag is negated and the response is left alone.
     */
    method ToggleMic()
      requires Valid()
      modifies this`isRecording, this`recordingTime, this`hasRecognizer
      ensures Valid()
      ensures isRecording == !old(isRecording)
      ensures recordingTime == 0
      ensures hasRecognizer == (old(hasRecognizer) || (speechSupported && isRecording))
    {
      if !speechSupported {
        isRecording := !isRecording;
      } else if isRecording {
        isRecording := false;
      } else {
        hasRecognizer := true;
        isRecording := true;
      }
      if !isRecording {
        recordingTime := 0;
      }
    }

    /** The global key handler: space toggles the microphone outside the text area. */
    method KeyDown(code: string, targetTag: string) returns (preventDefault: bool)
      requires Valid()
      modifies this`isRecording, this`recordingTime, this`hasRecognizer
      ensures Valid()
      ensures preventDefault == SpaceTogglesMic(code, targetTag)
      ensures preventDefault ==> isRecording == !old(isRecording) && recordingTime == 0
      ensures preventDefault ==> hasRecognizer == (old(hasRecognizer) || (speechSupported && isRecording))
      ensures !preventDefault ==> unchanged(this)
    {
      preventDefault := SpaceTogglesMic(code, targetTag);
      if preventDefault {
        ToggleMic();
      }
    }

    /** `onresult`: the response becomes the concatenation of all result segments. */
    method SpeechResult(segments: seq<string>)
      requires Valid() && hasRecognizer
      modifies this`response
      ensures Valid()
      ensures response == Concat(segments)
    {
      response := BuildTranscript(segments);
    }

    /** `onerror` and `onend`, which share one handler: recording is forced off. */
    method SpeechStopped()
      requires Valid() && hasRecognizer
      modifies this`isRecording, this`recordingTime
      ensures Valid()
      ensures !isRecording && recordingTime == 0
    {
      isRecording, recordingTime := false, 0;
    }

    /** Typing in the answer text area. */
    method TypeResponse(text: string)
      requires Valid()
      modifies this`response
      ensures Valid() && response == text
    {
      response := text;
    }

    /** The discard button, shown only while recording; the recognizer is not stopped. */
    method Discard()
      requires Valid() && isRecording
      modifies this`isRecording, this`recordingTime, this`response
      ensures Valid()
      ensures !isRecording && recordingTime == 0 && response == ""
    {
      isRecording, recordingTime, response := false, 0, "";
    }

    /** The hint's close button. */
    method DismissHint()
      requires Valid()
      modifies this`showHint
      ensures Valid() && !showHint
    {
      showHint := false;
    }

    /** `handleSubmit`; the button is disabled while `submitted` holds. */
    method Submit()
      requires Valid()
      modifies this`submitted, this`countdownRunning, this`pendingAdvances, this`completionScheduled
      ensures Valid()
      ensures ProgressOf() == StepCorrected(old(ProgressOf()), SubmitClicked)
      ensures countdownRunning == (old(submitted) && old(countdownRunning))
    {
      if !submitted {
        submitted := true;
        countdownRunning := false;
        if questionIdx < LAST_INDEX {
          pendingAdvances := pendingAdvances + 1;
        } else {
          completionScheduled := true;
        }
      }
    }

    /** The 600 ms advance scheduled by Submit: clear the answer and load the next question. */
    method SubmitDelayElapsed()
      requires Valid()
      modifies this`response, this`submitted, this`questionIdx, this`timeLeft, this`countdownRunning,
               this`isInterviewerSpeaking, this`speakTimerArmed, this`pendingAdvances
      ensures Valid()
      ensures ProgressOf() == StepCorrected(old(ProgressOf()), AdvanceElapsed)
      ensures old(pendingAdvances) > 0 ==> response == "" && timeLeft == TOTAL_TIME && countdownRunning
      ensures old(pendingAdvances) > 0 ==> isInterviewerSpeaking && speakTimerArmed
      ensures old(pendingAdvances) == 0 ==> unchanged(this)
      ensures showHint == old(showHint) && isRecording == old(isRecording)
      ensures recordingTime == old(recordingTime) && hasRecognizer == old(hasRecognizer)
    {
      if pendingAdvances > 0 {
        response := "";
        submitted := false;
        LoadQuestion(questionIdx + 1);
      }
    }

    /** The 800 ms timeout after submitting the last question: navigate to the results. */
    method CompletionDelayElapsed()
      requires Valid()
      modifies this`completionScheduled, this`completed
      ensures Valid()
      ensures ProgressOf() == StepCorrected(old(ProgressOf()), CompletionElapsed)
    {
      if completionScheduled {
        completionScheduled, completed := false, true;
      }
    }

    /** `handleSkip`: clear the answer and move on unless this is the last question. */
    method Skip()
      requires Valid()
      modifies this`response, this`submitted, this`questionIdx, this`timeLeft, this`countdownRunning,
               this`isInterviewerSpeaking, this`speakTimerArmed, this`pendingAdvances
      ensures Valid()
      ensures ProgressOf() == StepCorrected(old(ProgressOf()), SkipClicked)
      ensures response == "" && !submitted
      ensures old(questionIdx) < LAST_INDEX ==>
                timeLeft == TOTAL_TIME && countdownRunning && isInterviewerSpeaking && speakTimerArmed
      ensures old(questionIdx) == LAST_INDEX ==>
                && timeLeft == old(timeLeft) && countdownRunning == old(countdownRunning)
                && isInterviewerSpeaking == old(isInterviewerSpeaking)
                && speakTimerArmed == old(speakTimerArmed)
      ensures showHint == old(showHint) && isRecording == old(isRecording)
      ensures recordingTime == old(recordingTime) && hasRecognizer == old(hasRecognizer)
    {
      response := "";
      submitted := false;
      if questionIdx < LAST_INDEX {
        LoadQuestion(questionIdx + 1);
      }
    }
  }

  /**
   * Two recognition batches on a fresh session with speech support: each
   * result replaces the response, so the second, longer batch is what stays.
   * Pressing space outside the text area twice leaves the microphone off.
   */
  method SpeechBatches() returns (response: string, recording: bool)
    ensures response == "hello world" && !recording
  {
    var s := new InterviewSession(true);
    var pressed := s.KeyDown("Space", "BODY");
    s.SpeechResult(["hello"]);
    s.SpeechResult(["hello", " world"]);
    pressed := s.KeyDown("Space", "BODY");
    response, recording := s.response, s.isRecording;
  }
}
