/**
 * What the automated caller makes of each kind of input, through its one entry point, and
 * that a call in which every prompt is recognised succeeds.
 */
module ClientDecisions {
  import opened Prelude
  import opened ClientFlow

  // ------------------------------------------------------------------ the clock and hangups

  /** When an active call that the far end has not hung up runs out of time, and with what reason. */
  predicate OutOfTime(f: Flow, now: real) {
    now - f.startedAt >= f.settings.callTimeout || now - f.stageStartedAt >= f.settings.stageTimeout
  }

  /**
   * A tick leaves an active call alone until its stage or the call is out of time. Then it
   * succeeds if it was listening for the result and has heard a complete one, and otherwise
   * fails in the stage it was in, with the call's timeout ahead of the stage's.
   */
  lemma TickDecides(f: Flow, recognize: Recognizer, now: real)
    requires Coherent(f) && Active(f.stage) && f.resultHangupAt.None?
    ensures var (g, command) := Step(f, recognize, Tick(now));
            var heard := recognize(ResultStage, Join(f.segments));
            if !OutOfTime(f, now) then g == f && command.None?
            else
              && g.stage == HangingUp && command.Some? && command.value.Hangup?
              && g.decision == Some(
                   if f.stage == ResultStage && heard.Complete? then Success(heard.value)
                   else if now - f.startedAt >= f.settings.callTimeout then Failure("overall_timeout", f.stage)
                   else Failure("stage_timeout", f.stage))
  {
  }

  /**
   * After the far end hung up in the result stage, speech may still arrive for 5 seconds or
   * until the call timeout; the first tick from then on decides by what was heard, without a command.
   */
  lemma LateResultDecides(f: Flow, recognize: Recognizer, now: real)
    requires Coherent(f) && f.stage == ResultStage && f.resultHangupAt.Some?
    ensures var (g, command) := Step(f, recognize, Tick(now));
            var heard := recognize(ResultStage, Join(f.segments));
            && command.None?
            && if now < f.resultHangupAt.value + RESULT_GRACE_SECONDS && now < f.startedAt + f.settings.callTimeout then
                 g == f
               else
                 && g.stage == Ended
                 && g.decision == Some(if heard.Complete? then Success(heard.value)
                                       else Failure("result_unrecognized", ResultStage))
  {
  }

  /** A call that has neither run out of time nor outlived the far end's hangup. */
  predicate Timely(f: Flow, now: real) {
    if f.resultHangupAt.Some? then
      now < f.resultHangupAt.value + RESULT_GRACE_SECONDS && now < f.startedAt + f.settings.callTimeout
    else !OutOfTime(f, now)
  }

  /** An event the machine has not seen, in time and with room for its id. */
  predicate Fresh(f: Flow, event: Event, now: real) {
    && event.Event? && Timely(f, now)
    && event.id.Some? && 1 <= |event.id.value| <= 256 && event.id.value !in f.seen && |f.seen| < 4096
  }

  /** A timely, fresh call.hangup ends any earlier stage as a failure; in the result stage it only starts the grace. */
  lemma FarHangupDecides(f: Flow, recognize: Recognizer, event: Event, now: real)
    requires Coherent(f) && Active(f.stage) && Fresh(f, event, now) && event.kind == HungUp
    ensures var (g, command) := Step(f, recognize, Deliver(event, now));
            && command.None?
            && if f.stage == ResultStage then
                 && g.stage == ResultStage && g.decision == f.decision && g.segments == f.segments
                 && g.resultHangupAt == if f.resultHangupAt.Some? then f.resultHangupAt else Some(now)
               else g.stage == Ended && g.decision == Some(Failure("early_hangup", f.stage))
  {
  }

  // ---------------------------------------------------------------- events in general

  /** An event that comes too late is a tick: the call ends as if the clock had been looked at. */
  lemma LateEventsAreTicks(f: Flow, recognize: Recognizer, event: Event, now: real)
    requires Coherent(f) && Active(f.stage) && !Timely(f, now) && event.Event?
    ensures Step(f, recognize, Deliver(event, now)) == Step(f, recognize, Tick(now))
  {
    hide OnDeadline, OnKind, Fail;
  }

  /** In time, an event is left alone if it repeats an id, has no usable one, or is not an event at all. */
  lemma RepeatsAreIgnored(f: Flow, recognize: Recognizer, event: Event, now: real)
    requires Coherent(f) && (Active(f.stage) ==> Timely(f, now))
    requires || event.NotADict?
             || event.id.None? || !(1 <= |event.id.value| <= 256) || event.id.value in f.seen
    ensures Step(f, recognize, Deliver(event, now)) == (f, None)
  {
    hide OnDeadline, OnKind, Fail;
  }

  /** A call that has seen 4096 ids fails on the next one. */
  lemma FullIdsFail(f: Flow, recognize: Recognizer, event: Event, now: real)
    requires Coherent(f) && Active(f.stage) && Timely(f, now) && event.Event?
    requires event.id.Some? && 1 <= |event.id.value| <= 256 && event.id.value !in f.seen && |f.seen| == 4096
    ensures var (g, command) := Step(f, recognize, Deliver(event, now));
            Failed(f, g, command, "event_overflow")
  {
    hide OnDeadline, OnKind;
  }

  /** The call has failed in its stage: with a hangup, or without when the far end has hung up already. */
  predicate Failed(f: Flow, g: Flow, command: Option<Command>, reason: string) {
    && g.decision == Some(Failure(reason, f.stage))
    && if f.resultHangupAt.Some? then g.stage == Ended && command.None?
       else g.stage == HangingUp && command == Some(Hangup(f.nextId)) && g.nextId == f.nextId + 1
  }

  /** A timely, fresh event is noted; answers, segments and hangups apart, nothing else happens. */
  lemma OthersAreOnlyNoted(f: Flow, recognize: Recognizer, event: Event, now: real)
    requires Coherent(f) && Active(f.stage) && Fresh(f, event, now)
    requires || event.kind == OtherKind
             || (event.kind == Answered && (f.stage != Dialing || f.answered))
             || (event.kind == Transcription && !Segment(event))
    ensures Step(f, recognize, Deliver(event, now)) == (f.(seen := f.seen + {event.id.value}), None)
  {
    hide OnDeadline, Fail, Evaluate;
  }

  /** A timely event whose type is no text is dropped, and its id stays unused. */
  lemma UntypedAreDropped(f: Flow, recognize: Recognizer, event: Event, now: real)
    requires Coherent(f) && Active(f.stage) && Fresh(f, event, now) && event.kind == NotAString
    ensures Step(f, recognize, Deliver(event, now)) == (f, None)
  {
    hide OnDeadline, Fail, Evaluate, OnKind;
  }

  // -------------------------------------------------------------- answer and segments

  /**
   * A timely, fresh call.answered starts the welcome stage and its clock. Without buffered
   * speech, or while that is undecided, the call listens on; recognised speech is answered
   * at once with its digits, and speech recognised as wrong fails the call.
   */
  lemma AnsweredDecides(f: Flow, recognize: Recognizer, event: Event, now: real)
    requires Coherent(f) && f.stage == Dialing && !f.answered
    requires Fresh(f, event, now) && event.kind == Answered
    ensures var (g, command) := Step(f, recognize, Deliver(event, now));
            var heard := recognize(Welcome, Join(f.segments));
            && g.answered && g.stageStartedAt == now && g.seen == f.seen + {event.id.value}
            && if f.segments == [] || heard.Undecided? then
                 && g.stage == Welcome && command.None?
                 && g.segments == f.segments && g.lastTime == f.lastTime && g.decision == f.decision
               else if heard.Complete? then
                 && g.stage == Challenge && g.decision == f.decision && g.segments == [] && g.consumedAt == f.lastTime
                 && command == Some(Dtmf(f.nextId, Wire(heard.value, f.settings.pauseUnits)))
               else
                 && g.stage == HangingUp && g.decision == Some(Failure(heard.reason, Welcome))
                 && command == Some(Hangup(f.nextId))
  {
    hide Wire, Join;
  }

  /** A final, timed piece of speech of a usable length. */
  predicate Segment(event: Event) {
    && event.Event? && event.kind == Transcription && event.speech.Some? && event.occurred.Some?
    && event.speech.value.final == Some(true)
    && event.speech.value.transcript.Some? && 1 <= |event.speech.value.transcript.value| <= 4096
  }

  /**
   * How a call takes in a segment: older than the last buffered one fails the call, older
   * than the last answered stage's is dropped, more than the buffer holds fails the call,
   * and anything else is appended before the stage is evaluated.
   */
  predicate Hears(f: Flow, recognize: Recognizer, text: string, occurred: real, now: real, g: Flow,
                  command: Option<Command>)
  {
    var longer := f.(segments := f.segments + [text], chars := f.chars + |text|, lastTime := Some(occurred));
    if f.lastTime.Some? && occurred < f.lastTime.value then Failed(f, g, command, "transcript_order")
    else if f.consumedAt.Some? && occurred < f.consumedAt.value then g == f && command.None?
    else if |f.segments| == 64 || f.chars + |text| > 4096 then Failed(f, g, command, "buffer_overflow")
    else if f.stage == Dialing then g == longer && command.None?
    else Decides(longer, recognize, occurred, now, g, command)
  }

  /** What the buffered speech comes to: nothing yet, a failure, a heard result, or the digits that answer the stage. */
  predicate Decides(f: Flow, recognize: Recognizer, occurred: real, now: real, g: Flow, command: Option<Command>) {
    match recognize(f.stage, Join(f.segments))
    case Undecided => g == f && command.None?
    case Invalid(reason) => Failed(f, g, command, reason)
    case Complete(value) =>
      if f.stage == ResultStage then g == f.(checkpoint := true) && command.None?
      else
        && command == Some(Dtmf(f.nextId, Wire(value, f.settings.pauseUnits)))
        && g == f.(stage := NextStage(f.stage), stageStartedAt := now, segments := [], chars := 0,
                   lastTime := None, consumedAt := Some(occurred), pending := command, nextId := f.nextId + 1)
  }

  /** What becomes of a timely, fresh final segment. */
  lemma SegmentDecides(f: Flow, recognize: Recognizer, event: Event, now: real)
    requires Coherent(f) && Active(f.stage) && Fresh(f, event, now) && Segment(event)
    ensures var (g, command) := Step(f, recognize, Deliver(event, now));
            Hears(f.(seen := f.seen + {event.id.value}), recognize, event.speech.value.transcript.value,
                  event.occurred.value, now, g, command)
  {
    hide Hears, Decides, OnDeadline, OnTranscript;
    TimelyIsNotExpired(f, now);
    SegmentIsHeard(f.(seen := f.seen + {event.id.value}), recognize, event, now);
  }

  lemma TimelyIsNotExpired(f: Flow, now: real)
    ensures Timely(f, now) <==> Expired(f, now).None?
  {
  }


  lemma FailFails(f: Flow, reason: string, now: real)
    requires Active(f.stage) && f.decision.None?
    ensures var (g, command) := Fail(f, reason, now); Failed(f, g, command, reason)
  {
  }

  lemma SpeechDecides(f: Flow, recognize: Recognizer, occurred: real, now: real)
    requires Active(f.stage) && f.stage != Dialing && f.decision.None?
    ensures var (g, command) := Evaluate(f, recognize, now, Some(occurred));
            Decides(f, recognize, occurred, now, g, command)
  {
    hide Wire, Join, Fail, Failed;
    match recognize(f.stage, Join(f.segments))
    case Invalid(reason) => FailFails(f, reason, now);
    case _ =>
  }

  lemma SegmentIsHeard(f: Flow, recognize: Recognizer, event: Event, now: real)
    requires Active(f.stage) && Segment(event) && |f.segments| <= 64 && f.decision.None?
    ensures var (g, command) := OnTranscript(f, recognize, event, now);
            Hears(f, recognize, event.speech.value.transcript.value, event.occurred.value, now, g, command)
  {
    hide Evaluate, Decides, Fail, Failed;
    var text, occurred := event.speech.value.transcript.value, event.occurred.value;
    FailFails(f, "transcript_order", now);
    FailFails(f, "buffer_overflow", now);
    if f.stage != Dialing {
      SpeechDecides(f.(segments := f.segments + [text], chars := f.chars + |text|, lastTime := Some(occurred)),
                    recognize, occurred, now);
    }
  }

  // --------------------------------------------------------- failures from elsewhere

  /**
   * The failure of the pending command decides: a failed hangup gives up on confirming it,
   * a failed DTMF fails the call, and the failure of any other command means nothing.
   */
  lemma CommandFailureDecides(f: Flow, recognize: Recognizer, id: nat, now: real)
    requires Coherent(f)
    ensures var (g, command) := Step(f, recognize, CommandFailure(id, now));
            if f.stage == Ended || f.pending.None? || f.pending.value.id != id then g == f && command.None?
            else if f.stage == HangingUp then
              && g.stage == Ended && g.cleanup == Some("hangup_unconfirmed") && g.decision == f.decision
              && command.None?
            else Failed(f, g, command, "provider_failure")
  {
  }

  /** An interruption fails an active call for its reason and leaves any other alone. */
  lemma InterruptDecides(f: Flow, recognize: Recognizer, reason: string, now: real)
    requires Coherent(f)
    ensures var (g, command) := Step(f, recognize, Interrupt(reason, now));
            if Active(f.stage) then Failed(f, g, command, reason) else g == f && command.None?
  {
  }

  /**
   * Events leave an ended call alone; one that is hanging up ends on a fresh call.hangup,
   * if there is room for its id.
   */
  lemma EndedAndHangingUp(f: Flow, recognize: Recognizer, event: Event, now: real)
    requires Coherent(f) && !Active(f.stage)
    ensures var (g, command) := Step(f, recognize, Deliver(event, now));
            if f.stage == Ended || event.NotADict? || event.kind != HungUp then g == f && command.None?
            else if event.id.None? || !(1 <= |event.id.value| <= 256) || event.id.value in f.seen then
              g == f && command.None?
            else if |f.seen| < 4096 then g.stage == Ended && g.decision == f.decision && command.None?
            else
              && g.stage == HangingUp && g.decision == f.decision && g.hangupStartedAt == Some(now)
              && command == Some(Hangup(f.nextId))
  {
    hide OnDeadline, BufferOk;
  }

  // ------------------------------------------------------------------- a whole call

  /** What the far end says in each stage, and how it is numbered and timed. */
  type Script = Stage -> string

  /** Every prompt of the script is usable and recognised in its stage. */
  ghost predicate Understood(recognize: Recognizer, script: Script) {
    forall stage: Stage :: stage in ANSWERED || stage == ResultStage ==>
      1 <= |script(stage)| <= 4096 && recognize(stage, script(stage)).Complete?
  }

  const PICKED_UP: Input := Deliver(Event(Answered, Some("picked up"), None, None), 0.0)

  function Says(script: Script, stage: Stage): Input {
    Deliver(Event(Transcription, Some(Name(stage)), Some(Speech(Some(script(stage)), Some(true))), Some(0.0)), 0.0)
  }

  /** A different event id for each stage. */
  function Name(stage: Stage): string {
    match stage
    case Welcome => "1"
    case Challenge => "2"
    case Menu => "3"
    case Identifier => "4"
    case Confirmation => "5"
    case _ => "6"
  }

  /** The first `n` prompts after the call was answered. */
  function Prompts(script: Script, n: nat): seq<Input>
    requires n <= 5
  {
    if n == 0 then [PICKED_UP] else Prompts(script, n - 1) + [Says(script, ANSWERED[n - 1])]
  }

  /** The stage reached after `n` prompts. */
  function Reached(n: nat): Stage
    requires n <= 5
  {
    if n < 5 then ANSWERED[n] else ResultStage
  }

  /** Where a call stands that has understood `n` prompts, all at time 0. */
  predicate Listening(f: Flow, settings: Settings, n: nat)
    requires n <= 5
  {
    && f.settings == settings && f.startedAt == 0.0 && f.stageStartedAt == 0.0
    && f.stage == Reached(n) && f.decision.None? && f.resultHangupAt.None?
    && f.segments == [] && f.chars == 0 && f.lastTime.None?
    && (f.consumedAt.None? || f.consumedAt == Some(0.0))
    && f.nextId == n
    && |f.seen| == n + 1
    && (forall id :: id in f.seen ==> id == "picked up" || exists k :: 0 <= k < n && id == Name(ANSWERED[k]))
  }

  /** The digits of the first `n` prompts, each sent once, in order. */
  ghost predicate Keyed(sent: seq<Sent>, settings: Settings, recognize: Recognizer, script: Script, n: nat)
    requires n <= 5 && Understood(recognize, script)
  {
    && |sent| == n
    && forall k :: 0 <= k < n ==>
         sent[k].command == Dtmf(k, Wire(recognize(ANSWERED[k], script(ANSWERED[k])).value, settings.pauseUnits))
  }

  lemma PickedUp(settings: Settings, recognize: Recognizer)
    requires settings.stageTimeout > 0.0 && settings.callTimeout > 0.0
    ensures var (f, command) := Step(NewFlow(settings, 0.0, 0.0), recognize, PICKED_UP);
            Coherent(f) && Listening(f, settings, 0) && command.None?
  {
    var start := NewFlow(settings, 0.0, 0.0);
    assert |"picked up"| == 9;
    AnsweredDecides(start, recognize, PICKED_UP.event, 0.0);
    StepAdvances(start, recognize, PICKED_UP);
  }

  lemma NamesDiffer(n: nat)
    requires n <= 5
    ensures |Name(Reached(n))| == 1
    ensures forall k :: 0 <= k < n ==> Name(Reached(n)) != Name(ANSWERED[k])
  {
    assert forall k :: 0 <= k < 5 ==> Name(ANSWERED[k])[0] == "12345"[k];
    assert Name(Reached(n))[0] == "123456"[n];
  }

  lemma NameIsFresh(f: Flow, settings: Settings, n: nat)
    requires n <= 5 && Listening(f, settings, n)
    ensures Name(Reached(n)) !in f.seen
  {
    NamesDiffer(n);
    assert |"picked up"| == 9;
    hide Name, Reached;
  }

  /** The prompt of the stage the call is in is understood and answered. */
  lemma PromptIsAnswered(f: Flow, recognize: Recognizer, script: Script, settings: Settings, n: nat)
    requires n < 5 && Coherent(f) && Listening(f, settings, n) && Understood(recognize, script)
    requires settings.stageTimeout > 0.0 && settings.callTimeout > 0.0
    ensures var (g, command) := Step(f, recognize, Says(script, ANSWERED[n]));
            && Coherent(g) && Listening(g, settings, n + 1)
            && command == Some(Dtmf(n, Wire(recognize(ANSWERED[n], script(ANSWERED[n])).value, settings.pauseUnits)))
  {
    hide Wire, Step, Coherent;
    var stage := ANSWERED[n];
    var input := Says(script, stage);
    NamesDiffer(n);
    NameIsFresh(f, settings, n);
    ActiveAnswered(n);
    assert f.segments + [script(stage)] == [script(stage)];
    assert recognize(stage, Join([script(stage)])).Complete? by { JoinOne(script(stage)); }
    JoinOne(script(stage));
    SegmentDecides(f, recognize, input.event, 0.0);
    StepAdvances(f, recognize, input);
    var (g, command) := Step(f, recognize, input);
    StepKeepsCoherent(f, g, command, recognize);
    assert |f.seen + {Name(stage)}| == n + 2;
  }

  lemma ActiveAnswered(n: nat)
    requires n < 5
    ensures ANSWERED[n] != Dialing && ANSWERED[n] != ResultStage && Active(ANSWERED[n])
    ensures NextStage(ANSWERED[n]) == Reached(n + 1)
  {
  }

  lemma StepKeepsCoherent(f: Flow, g: Flow, command: Option<Command>, recognize: Recognizer)
    requires Advances(f, g, command, recognize)
    ensures Coherent(g)
  {
  }

  lemma JoinOne(text: string)
    ensures Join([text]) == text
  {
  }

  lemma {:induction false} PromptsAreAnswered(recognize: Recognizer, script: Script, settings: Settings, n: nat)
    requires n <= 5 && Understood(recognize, script)
    requires settings.stageTimeout > 0.0 && settings.callTimeout > 0.0
    ensures var (f, sent) := Run(NewFlow(settings, 0.0, 0.0), recognize, Prompts(script, n));
            Coherent(f) && Listening(f, settings, n) && Keyed(sent, settings, recognize, script, n)
  {
    hide Step, Coherent, Listening, Understood, Wire;
    var start := NewFlow(settings, 0.0, 0.0);
    if n == 0 {
      RunNothing(start, recognize);
      RunExtends(start, recognize, [], PICKED_UP);
      assert [] + [PICKED_UP] == [PICKED_UP];
      PickedUp(settings, recognize);
    } else {
      PromptsAreAnswered(recognize, script, settings, n - 1);
      var (f, sent) := Run(start, recognize, Prompts(script, n - 1));
      PromptIsAnswered(f, recognize, script, settings, n - 1);
      RunExtends(start, recognize, Prompts(script, n - 1), Says(script, ANSWERED[n - 1]));
    }
  }

  /** The whole call: answered, five prompts, the result, and the end of its time. */
  function WholeCall(script: Script, settings: Settings): seq<Input> {
    Prompts(script, 5) + [Says(script, ResultStage)] + [Tick(settings.callTimeout)]
  }

  lemma ResultIsHeard(f: Flow, recognize: Recognizer, script: Script, settings: Settings)
    requires Coherent(f) && Listening(f, settings, 5) && Understood(recognize, script)
    requires settings.stageTimeout > 0.0 && settings.callTimeout > 0.0
    ensures var (g, command) := Step(f, recognize, Says(script, ResultStage));
            && Coherent(g) && command.None? && g.stage == ResultStage && g.segments == [script(ResultStage)]
            && g.startedAt == 0.0 && g.settings == settings && g.resultHangupAt.None? && g.nextId == 5
  {
    hide Step, Coherent;
    var input := Says(script, ResultStage);
    NamesDiffer(5);
    NameIsFresh(f, settings, 5);
    assert f.segments + [script(ResultStage)] == [script(ResultStage)];
    JoinOne(script(ResultStage));
    SegmentDecides(f, recognize, input.event, 0.0);
    StepAdvances(f, recognize, input);
    var (g, command) := Step(f, recognize, input);
    StepKeepsCoherent(f, g, command, recognize);
  }

  lemma TimeIsUp(g: Flow, recognize: Recognizer, script: Script, settings: Settings)
    requires Coherent(g) && g.stage == ResultStage && g.segments == [script(ResultStage)] && g.resultHangupAt.None?
    requires g.startedAt == 0.0 && g.settings == settings && recognize(ResultStage, script(ResultStage)).Complete?
    requires g.nextId == 5
    ensures var (h, command) := Step(g, recognize, Tick(settings.callTimeout));
            && h.decision == Some(Success(recognize(ResultStage, script(ResultStage)).value))
            && h.stage == HangingUp && command == Some(Hangup(5))
  {
    JoinOne(script(ResultStage));
    TickDecides(g, recognize, settings.callTimeout);
  }

  /**
   * Whatever the recogniser and the settings: if it recognises what the far end says in each
   * stage, the call sends the five answers, in order, and succeeds with what it heard.
   */
  lemma UnderstoodCallsSucceed(recognize: Recognizer, script: Script, settings: Settings)
    requires Understood(recognize, script) && settings.stageTimeout > 0.0 && settings.callTimeout > 0.0
    ensures var (f, sent) := Run(NewFlow(settings, 0.0, 0.0), recognize, WholeCall(script, settings));
            && f.decision == Some(Success(recognize(ResultStage, script(ResultStage)).value))
            && |sent| == 6 && sent[5].command == Hangup(5)
            && Keyed(sent[..5], settings, recognize, script, 5)
  {
    hide Step, Coherent, Listening, Prompts, Wire;
    var start := NewFlow(settings, 0.0, 0.0);
    PromptsAreAnswered(recognize, script, settings, 5);
    var (f, sent) := Run(start, recognize, Prompts(script, 5));
    ResultIsHeard(f, recognize, script, settings);
    RunExtends(start, recognize, Prompts(script, 5), Says(script, ResultStage));
    var (g, _) := Step(f, recognize, Says(script, ResultStage));
    TimeIsUp(g, recognize, script, settings);
    RunExtends(start, recognize, Prompts(script, 5) + [Says(script, ResultStage)], Tick(settings.callTimeout));
    hide Run;
    var all := Run(start, recognize, WholeCall(script, settings)).1;
    assert all[..5] == sent;
  }
}
