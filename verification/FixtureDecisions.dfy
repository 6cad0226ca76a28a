/**
 * What the test IVR makes of each kind of input, with the digits it asks for written out,
 * and that a caller who enters them is told the result.
 */
module FixtureDecisions {
  import opened Prelude
  import opened FixtureFlow

  /** Neither the call nor what it is waiting for is out of time. */
  predicate InTime(f: Flow, now: real) { now < f.callDeadline && now < f.deadline }

  /** The event is about the pending command. */
  predicate Echoes(f: Flow, input: Input) {
    input.Deliver? && f.pending.Some? && input.payload.client == Some(f.pending.value.id)
  }

  /** The digits a stage waits for: the challenge, the identifier, each closed by a pound, or a 1. */
  predicate RightDigits(f: Flow, digits: Option<string>) {
    match f.stage
    case Challenge => digits == Some(f.challenge + "#")
    case Identifier => digits == Some(f.settings.syntheticId + "#")
    case _ => digits == Some("1")
  }

  /** How many digits a stage gathers. */
  function Asked(stage: Stage): nat {
    if stage == Challenge then 5 else if stage == Identifier then 10 else 1
  }

  /** The next command is reserved, and waited for until `until`. */
  predicate Reserves(f: Flow, g: Flow, command: Option<Command>, stage: Stage, action: Action, until: real) {
    && command == Some(Command(f.nextId, action)) && g.pending == command && g.nextId == f.nextId + 1
    && g.stage == stage && g.deadline == until
    && g.settings == f.settings && g.challenge == f.challenge && g.callDeadline == f.callDeadline
  }

  predicate AsksFor(f: Flow, g: Flow, command: Option<Command>, stage: Stage, retry: bool, now: real) {
    Reserves(f, g, command, stage, Gather(stage, retry, Asked(stage)),
             now + (f.settings.gatherTimeoutMs as real / 1000.0 + f.settings.speechGrace as real))
  }

  predicate SaysAndWaits(f: Flow, g: Flow, command: Option<Command>, stage: Stage, text: Announcement, now: real) {
    Reserves(f, g, command, stage, Speak(text), now + f.settings.speechGrace as real)
  }

  predicate HangsUp(f: Flow, g: Flow, command: Option<Command>, now: real) {
    Reserves(f, g, command, HangingUp, Hangup, now + 15.0)
  }

  /**
   * The call has failed: with an announcement if it was answered and is not already
   * announcing one, else by hanging up.
   */
  predicate Fails(f: Flow, g: Flow, command: Option<Command>, reason: string, text: Announcement, now: real) {
    && g.outcome == Some(reason)
    && if f.answered && f.stage != FailureStage then SaysAndWaits(f, g, command, FailureStage, text, now)
       else HangsUp(f, g, command, now)
  }

  lemma FailFails(f: Flow, reason: string, text: Announcement, now: real)
    requires f.stage != HangingUp && f.stage != Ended
    ensures var (g, command) := Fail(f, reason, now, text); Fails(f, g, command, reason, text, now)
  {
  }

  /**
   * A new call is to be answered within 20 seconds and over within its own timeout; it is only
   * made for a challenge of four digits.
   */
  lemma NewCallDecides(settings: Settings, challenge: string, now: real)
    ensures
      var deadline := now + settings.callTimeout as real;
      var answer := Command(0, Answer);
      NewCall(settings, challenge, now) ==
        if |challenge| == 4 && forall c :: c in challenge ==> '0' <= c <= '9' then
          Some((Flow(settings, challenge, deadline, Answering, now + 20.0, Some(answer), 1, None, false, 1),
                Some(answer)))
        else None
  {
  }

  /** A call that ends keeps neither its challenge nor a command. */
  lemma EndedForgets(f: Flow, input: Input)
    requires Coherent(f) && f.stage != Ended
    ensures var g := Step(f, input).0; g.stage == Ended ==> g.challenge == "" && g.pending.None?
  {
    hide Gathered, StartGather;
    if input.Deliver? && f.pending.Some? { GatheredGoesOn(f, input.payload, input.now); }
  }

  lemma GatheredGoesOn(f: Flow, payload: Payload, now: real)
    requires Coherent(f)
    ensures Gathers(f.stage) ==> Gathered(f, payload, now).0.stage != Ended
    ensures StartGather(f.(answered := true), Welcome, now, false).0.stage == Welcome
  {
  }

  // ------------------------------------------------------------------- the clock

  /**
   * A tick leaves a call alone that is in time. The call's own deadline hangs up, a missed
   * completion fails the stage, a missed end of speech hangs up, and a missed hangup ends it.
   */
  lemma TickDecides(f: Flow, now: real)
    requires Coherent(f)
    ensures var (g, command) := Step(f, Tick(now));
            if f.stage == Ended then g == f && command.None?
            else if f.stage == HangingUp then
              && command.None?
              && if now >= f.deadline then g.stage == Ended && g.outcome == Some("hangup_unconfirmed") else g == f
            else if now >= f.callDeadline then HangsUp(f, g, command, now) && g.outcome == Some("call_timeout")
            else if now < f.deadline then g == f && command.None?
            else if f.stage == ResultStage || f.stage == FailureStage then
              HangsUp(f, g, command, now) && g.outcome == Some("speech_timeout")
            else Fails(f, g, command, "completion_timeout", Unavailable, now)
  {
    hide Fail, Fails;
    if f.stage != Ended && f.stage != HangingUp { FailFails(f, "completion_timeout", Unavailable, now); }
  }

  /** Echoes that come too late are ticks, the far end's hangup apart. */
  lemma LateEventsAreTicks(f: Flow, input: Input)
    requires Coherent(f) && f.stage != HangingUp && Echoes(f, input) && !InTime(f, input.now)
    requires input.kind != CallHangup && input.payload.status != Hungup
    ensures Step(f, input) == Step(f, Tick(input.now))
  {
    hide Fail, HangUp, Progress, Advances;
    FailCommands(f, "completion_timeout", input.now, Unavailable);
    HangUpAdvances(f, Some("call_timeout"), input.now);
    HangUpAdvances(f, Some("speech_timeout"), input.now);
  }

  // ----------------------------------------------------------------- other events

  /** The far end's hangup ends any call, keeping the outcome it has. */
  lemma FarHangupEnds(f: Flow, input: Input)
    requires Coherent(f) && f.stage != Ended && input.Deliver?
    requires || input.kind == CallHangup
             || (Echoes(f, input) && input.payload.status == Hungup && input.kind in {GatherEnded, SpeakEnded})
    ensures var (g, command) := Step(f, input);
            && command.None? && g.stage == Ended
            && g.outcome == if f.outcome.Some? then f.outcome else Some("remote_hangup")
  {
  }

  /** What is not about the pending command, or not what it waits for, changes nothing in time. */
  lemma OthersAreIgnored(f: Flow, input: Input)
    requires Coherent(f) && input.Deliver? && input.kind != CallHangup && f.pending.Some?
    requires || !Echoes(f, input)
             || (&& input.payload.status != Hungup && (f.stage == HangingUp || InTime(f, input.now))
                 && (f.stage == HangingUp ==> input.now < f.deadline)
                 && !(f.stage == Answering && input.kind == CallAnswered)
                 && !(Gathers(f.stage) && input.kind == GatherEnded)
                 && !(f.stage in {ResultStage, FailureStage} && input.kind == SpeakEnded))
    ensures Step(f, input) == (f, None)
  {
    hide Fail, HangUp, Gathered, StartGather;
  }

  /**
   * The failure of the pending command fails the call; once it hangs up, and for any other
   * command, it means nothing.
   */
  lemma CommandFailureDecides(f: Flow, id: nat, now: real)
    requires Coherent(f)
    ensures var (g, command) := Step(f, CommandFailure(id, now));
            if f.pending.None? || f.pending.value.id != id || f.stage == HangingUp then g == f && command.None?
            else Fails(f, g, command, "command_failed", Unavailable, now)
  {
    hide Fails;
    if f.stage != Ended && f.stage != HangingUp { FailFails(f, "command_failed", Unavailable, now); }
  }

  /** The answered call is asked to welcome. */
  lemma AnsweredDecides(f: Flow, input: Input)
    requires Coherent(f) && f.stage == Answering && Echoes(f, input) && InTime(f, input.now)
    requires input.kind == CallAnswered
    ensures var (g, command) := Step(f, input);
            AsksFor(f, g, command, Welcome, false, input.now) && g.answered && g.attempt == 1 && g.outcome == f.outcome
  {
  }

  // ----------------------------------------------------------------------- entries

  /** The echo of the pending gather, in time, with status valid and exactly the digits of its stage. */
  predicate RightEntry(f: Flow, input: Input) {
    && Echoes(f, input) && InTime(f, input.now) && input.kind == GatherEnded
    && input.payload.status == Valid && RightDigits(f, input.payload.digits)
  }

  predicate Diverted(f: Flow) {
    || (f.stage == Welcome && f.settings.scenario in {EarlyHangup, SilentStage})
    || (f.stage == Identifier && f.settings.scenario == RejectedId)
  }

  /** A gather stage is left for the next one exactly on the right entry, and only in a scenario that lets it. */
  lemma PassesIffRightEntry(f: Flow, input: Input)
    requires Coherent(f) && Gathers(f.stage)
    ensures Step(f, input).0.stage == NextStage(f.stage) <==> RightEntry(f, input) && !Diverted(f)
  {
    hide Fail, HangUp, Expire, GatherLength, GatherSeconds, ValidSettings;
    FailLeaves(f, "provider_failure", input.now, Unavailable);
    FailLeaves(f, "unsupported_business", input.now, BusinessUnsupported);
    FailLeaves(f, "input_rejected", input.now, NotVerified);
    FailLeaves(f, "command_failed", input.now, Unavailable);
    HangUpLeaves(f, input.now);
    ExpiresIff(f, input.now);
  }

  lemma FailLeaves(f: Flow, reason: string, now: real, text: Announcement)
    requires Gathers(f.stage)
    ensures Fail(f, reason, now, text).0.stage in {FailureStage, HangingUp}
  {
  }

  lemma HangUpLeaves(f: Flow, now: real)
    requires Gathers(f.stage)
    ensures HangUp(f, now).0.stage == HangingUp
  {
  }

  lemma ExpiresIff(f: Flow, now: real)
    requires Coherent(f) && Gathers(f.stage)
    ensures var (g, command) := Expire(f, now);
            if now >= f.callDeadline || now >= f.deadline then
              command.Some? && g.stage in {FailureStage, HangingUp}
            else g == f && command.None?
  {
    hide Fail, HangUp;
    FailLeaves(f, "completion_timeout", now, Unavailable);
    FailCommands(f, "completion_timeout", now, Unavailable);
    HangUpLeaves(f.(outcome := Some("call_timeout")), now);
    HangUpAdvances(f, Some("call_timeout"), now);
  }

  /** What the right entry leads to, scenario by scenario. */
  lemma RightEntryDecides(f: Flow, input: Input)
    requires Coherent(f) && Gathers(f.stage) && RightEntry(f, input)
    ensures var (g, command) := Step(f, input);
            var scenario := f.settings.scenario;
            if f.stage == Welcome && scenario == EarlyHangup then
              HangsUp(f, g, command, input.now) && g.outcome == f.outcome
            else if f.stage == Welcome && scenario == SilentStage then
              g.stage == Silent && command.None? && g.pending.None? && g.deadline == f.callDeadline
            else if f.stage == Identifier && scenario == RejectedId then
              Fails(f, g, command, "input_rejected", NotVerified, input.now)
            else if f.stage == Confirmation then
              && SaysAndWaits(f, g, command, ResultStage,
                              if scenario == UnsupportedResult then UnsupportedAmount else Amount,
                              input.now)
              && g.outcome == f.outcome && g.answered
            else
              && AsksFor(f, g, command, NextStage(f.stage), false, input.now)
              && g.attempt == 1 && g.outcome == f.outcome && g.answered
  {
    hide Expire, Fail, Fails, ValidSettings;
    ExpiresIff(f, input.now);
    FailFails(f, "input_rejected", NotVerified, input.now);
  }

  /** A timely report on the pending gather that is not the right entry. */
  predicate WrongEntry(f: Flow, input: Input) {
    && Echoes(f, input) && InTime(f, input.now) && input.kind == GatherEnded
    && input.payload.status in {Valid, Invalid, Timeout}
    && !(input.payload.status == Valid && RightDigits(f, input.payload.digits))
  }

  /**
   * A wrong entry repeats the same gather with the retry prompt while attempts are left and
   * otherwise announces a rejection; asking for business at the menu is refused at once.
   */
  lemma WrongEntriesAreRetried(f: Flow, input: Input)
    requires Coherent(f) && Gathers(f.stage) && WrongEntry(f, input)
    ensures var (g, command) := Step(f, input);
            var business := f.stage == Menu && input.payload.status == Valid && input.payload.digits == Some("2");
            if business then Fails(f, g, command, "unsupported_business", BusinessUnsupported, input.now)
            else if f.attempt < f.settings.maxAttempts then
              AsksFor(f, g, command, f.stage, true, input.now) && g.attempt == f.attempt + 1 && g.outcome == f.outcome
            else Fails(f, g, command, "input_rejected", NotVerified, input.now)
  {
    hide Expire, Fail, Fails, ValidSettings, Accepted;
    ExpiresIff(f, input.now);
    FailFails(f, "unsupported_business", BusinessUnsupported, input.now);
    FailFails(f, "input_rejected", NotVerified, input.now);
  }

  /** A report on the pending gather with any other status fails the call. */
  lemma UnknownStatusFails(f: Flow, input: Input)
    requires Coherent(f) && Gathers(f.stage) && Echoes(f, input) && InTime(f, input.now) && input.kind == GatherEnded
    requires input.payload.status !in {Valid, Invalid, Timeout, Hungup}
    ensures var (g, command) := Step(f, input); Fails(f, g, command, "provider_failure", Unavailable, input.now)
  {
    hide Expire, Fail, Fails, ValidSettings, Accepted;
    ExpiresIff(f, input.now);
    FailFails(f, "provider_failure", Unavailable, input.now);
  }

  // ------------------------------------------------------------------------ speech

  /** A result counts as spoken exactly when its own speech is reported completed in time. */
  lemma SpokenIffCompleted(f: Flow, input: Input)
    requires Coherent(f) && f.stage == ResultStage && f.outcome != Some("result_spoken")
    ensures var (g, command) := Step(f, input);
            g.outcome == Some("result_spoken") <==>
              && Echoes(f, input) && InTime(f, input.now)
              && input.kind == SpeakEnded && input.payload.status == Completed
  {
    if input.Deliver? { ExpireAdvances(f, input.now); }
  }

  /** The end of an announcement hangs up; that of the result also decides the outcome. */
  lemma SpeechEndDecides(f: Flow, input: Input)
    requires Coherent(f) && f.stage in {ResultStage, FailureStage} && Echoes(f, input) && InTime(f, input.now)
    requires input.kind == SpeakEnded && input.payload.status != Hungup
    ensures var (g, command) := Step(f, input);
            && HangsUp(f, g, command, input.now)
            && g.outcome == if f.stage == FailureStage then f.outcome
                            else if input.payload.status == Completed then Some("result_spoken")
                            else Some("speech_failed")
  {
  }

  // -------------------------------------------------------------- entries that fit

  /** The pending gather takes exactly as many digits as its right entry has. */
  ghost predicate Fits(f: Flow) {
    && (f.stage != Ended ==> FourDigits(f.challenge))
    && (Gathers(f.stage) ==>
          && f.pending.Some? && f.pending.value.action.Gather?
          && f.pending.value.action.length == Asked(f.stage))
  }

  lemma FitsInLength(f: Flow, digits: string)
    requires Coherent(f) && Fits(f) && Gathers(f.stage) && RightDigits(f, Some(digits))
    ensures |digits| == f.pending.value.action.length
  {
  }

  lemma StepKeepsFits(f: Flow, input: Input)
    requires Coherent(f) && Fits(f)
    ensures Fits(Step(f, input).0)
  {
    hide Fits, Coherent, Expire, Progress, Fail, Advances;
    var now := input.now;
    FailFits(f, "command_failed", now, Unavailable);
    ExpireFits(f, now);
    if input.Deliver? {
      EndFits(f);
      ExpireAdvances(f, now);
      if f.pending.Some? { ProgressFits(f, input.kind, input.payload, now); }
    }
  }

  lemma FailFits(f: Flow, reason: string, now: real, text: Announcement)
    requires Fits(f)
    ensures Fits(Fail(f, reason, now, text).0)
  {
    hide FourDigits;
  }

  lemma HangUpFits(f: Flow, now: real)
    requires Fits(f)
    ensures forall outcome :: Fits(HangUp(f.(outcome := outcome), now).0)
  {
    hide FourDigits;
  }

  lemma EndFits(f: Flow)
    ensures Fits(RemoteEnd(f))
  {
  }

  lemma ExpireFits(f: Flow, now: real)
    requires Fits(f)
    ensures Fits(Expire(f, now).0)
  {
    hide FourDigits, Fail, HangUp;
    FailFits(f, "completion_timeout", now, Unavailable);
    HangUpFits(f, now);
  }

  lemma StartGatherFits(f: Flow, stage: Stage, now: real, retry: bool)
    requires FourDigits(f.challenge) && Gathers(stage)
    ensures Fits(StartGather(f, stage, now, retry).0)
  {
    hide FourDigits, GatherSeconds;
  }

  lemma ProgressFits(f: Flow, kind: EventType, payload: Payload, now: real)
    requires Coherent(f) && Fits(f) && f.pending.Some?
    ensures Fits(Progress(f, kind, payload, now).0)
  {
    hide Gathered, StartGather, HangUp, FourDigits, ValidSettings;
    HangUpFits(f, now);
    if f.stage == Answering {
      StartGatherFits(f.(answered := true), Welcome, now, false);
    } else if Gathers(f.stage) {
      GatheredFits(f, payload, now);
    } else {
      HangUpFits(f, now);
      assert f.(outcome := f.outcome) == f;
    }
  }

  lemma GatheredFits(f: Flow, payload: Payload, now: real)
    requires Coherent(f) && Fits(f) && Gathers(f.stage)
    ensures Fits(Gathered(f, payload, now).0)
  {
    hide Fail, StartGather, HangUp, FourDigits, ValidSettings;
    FailFits(f, "provider_failure", now, Unavailable);
    FailFits(f, "unsupported_business", now, BusinessUnsupported);
    FailFits(f, "input_rejected", now, NotVerified);
    StartGatherFits(f, f.stage, now, true);
    if f.stage != Confirmation { StartGatherFits(f, NextStage(f.stage), now, false); }
    HangUpFits(f, now);
    assert f.(outcome := f.outcome) == f;
  }

  /** In every call, whatever it meets, each gather asks for exactly as many digits as its right entry has. */
  lemma {:induction false} RightEntriesFit(settings: Settings, challenge: string, now: real, inputs: seq<Input>,
                                           digits: string)
    requires ValidSettings(settings) && FourDigits(challenge)
    ensures var (start, answer) := NewCall(settings, challenge, now).value;
            && Coherent(start) && Fits(Run(start, inputs).0)
            && var (f, _) := Run(start, inputs);
            (Gathers(f.stage) && RightDigits(f, Some(digits)) ==> |digits| == f.pending.value.action.length)
  {
    hide Step, Fits, Advances;
    var (start, answer) := NewCall(settings, challenge, now).value;
    NewCallFits(settings, challenge, now);
    if inputs != [] {
      var init, last := inputs[..|inputs| - 1], inputs[|inputs| - 1];
      RightEntriesFit(settings, challenge, now, init, digits);
      StepKeepsFits(Run(start, init).0, last);
    }
    var (f, _) := Run(start, inputs);
    if Gathers(f.stage) && RightDigits(f, Some(digits)) { FitsInLength(f, digits); }
  }

  lemma NewCallFits(settings: Settings, challenge: string, now: real)
    requires ValidSettings(settings) && FourDigits(challenge)
    ensures NewCall(settings, challenge, now).Some?
    ensures var (start, _) := NewCall(settings, challenge, now).value; Coherent(start) && Fits(start)
  {
  }

  // ------------------------------------------------------------------ a whole call

  /** What a caller who does everything right makes the provider report next. */
  function Correct(f: Flow, now: real): Input
    requires f.pending.Some?
  {
    var id := Some(f.pending.value.id);
    match f.stage
    case Answering => Deliver(CallAnswered, Payload(id, OtherStatus, None), now)
    case Challenge => Deliver(GatherEnded, Payload(id, Valid, Some(f.challenge + "#")), now)
    case Identifier => Deliver(GatherEnded, Payload(id, Valid, Some(f.settings.syntheticId + "#")), now)
    case ResultStage => Deliver(SpeakEnded, Payload(id, Completed, None), now)
    case HangingUp => Deliver(CallHangup, Payload(id, OtherStatus, None), now)
    case _ => Deliver(GatherEnded, Payload(id, Valid, Some("1")), now)
  }

  /** The stages of such a call, and what is asked of the provider on the way. */
  const COURSE: seq<Stage> := [Answering, Welcome, Challenge, Menu, Identifier, Confirmation, ResultStage, HangingUp]

  function Asks(settings: Settings): seq<Action> {
    [Gather(Welcome, false, 1), Gather(Challenge, false, 5), Gather(Menu, false, 1), Gather(Identifier, false, 10),
     Gather(Confirmation, false, 1),
     Speak(if settings.scenario == UnsupportedResult then UnsupportedAmount else Amount),
     Hangup]
  }

  /** Where the call stands after `n` right reports. */
  predicate OnCourse(f: Flow, settings: Settings, n: nat, now: real)
    requires n < 8
  {
    && Coherent(f) && f.settings == settings && InTime(f, now) && f.pending.Some?
    && f.stage == COURSE[n] && f.outcome == (if n == 7 then Some("result_spoken") else None)
    && (0 < n < 7 ==> f.answered)
  }

  predicate Undiverted(settings: Settings) {
    settings.scenario in {Normal, LeadingZero, UnsupportedResult}
  }

  lemma CorrectGoesOn(f: Flow, settings: Settings, n: nat, now: real)
    requires n < 7 && OnCourse(f, settings, n, now) && Undiverted(settings)
    ensures var (g, command) := Step(f, Correct(f, now));
            OnCourse(g, settings, n + 1, now) && command.Some? && command.value.action == Asks(settings)[n]
  {
    hide Step, Coherent, GatherLength, GatherSeconds;
    var input := Correct(f, now);
    PendingIsCoherent(f);
    if n == 0 {
      AnsweredDecides(f, input);
    } else if n < 6 {
      RightEntryDecides(f, input);
    } else {
      SpeechEndDecides(f, input);
    }
    StepAdvances(f, input);
    var (g, command) := Step(f, input);
    AdvancedIsCoherent(f, g, command);
  }

  lemma PendingIsCoherent(f: Flow)
    requires Coherent(f)
    ensures f.settings.gatherTimeoutMs > 0 && f.settings.speechGrace > 0
  {
  }

  lemma {:induction false} RightlyReached(start: Flow, settings: Settings, n: nat, now: real)
    returns (inputs: seq<Input>)
    requires n < 8 && OnCourse(start, settings, 0, now) && Undiverted(settings)
    ensures |inputs| == n
    ensures var (f, sent) := Run(start, inputs); OnCourse(f, settings, n, now) && sent == Asks(settings)[..n]
  {
    hide Step, OnCourse, Asks, Undiverted;
    inputs := [];
    StillCoherent(start, settings, 0, now);
    SevenAsks(settings);
    if n > 0 {
      var init := RightlyReached(start, settings, n - 1, now);
      var (f, sent) := Run(start, init);
      StillCoherent(f, settings, n - 1, now);
      CorrectGoesOn(f, settings, n - 1, now);
      inputs := init + [Correct(f, now)];
      assert inputs[..n - 1] == init;
      assert Asks(settings)[..n] == Asks(settings)[..n - 1] + [Asks(settings)[n - 1]];
    }
  }

  lemma StillCoherent(f: Flow, settings: Settings, n: nat, now: real)
    requires n < 8 && OnCourse(f, settings, n, now)
    ensures Coherent(f) && f.pending.Some? && InTime(f, now) && f.stage == COURSE[n]
    ensures f.outcome == if n == 7 then Some("result_spoken") else None
  {
  }

  lemma SevenAsks(settings: Settings)
    ensures |Asks(settings)| == 7
  {
  }

  /**
   * With any valid settings and challenge, in a scenario that diverts nobody: a caller who
   * enters what is asked is gathered from five times, told the result once and hung up on,
   * and the call ends as spoken.
   */
  lemma RightCallsAreSpoken(settings: Settings, challenge: string, now: real)
    requires ValidSettings(settings) && FourDigits(challenge) && Undiverted(settings)
    ensures NewCall(settings, challenge, now).Some?
    ensures var (start, _) := NewCall(settings, challenge, now).value;
            Coherent(start) && exists inputs ::
              && |inputs| == 8
              && Run(start, inputs).1 == Asks(settings)
              && Run(start, inputs).0.stage == Ended && Run(start, inputs).0.outcome == Some("result_spoken")
  {
    hide Step, Asks, Coherent, Run;
    var (start, _) := NewCall(settings, challenge, now).value;
    NewCallIsOnCourse(settings, challenge, now);
    var init := RightlyReached(start, settings, 7, now);
    var (f, sent) := Run(start, init);
    SevenAsks(settings);
    assert Asks(settings)[..7] == Asks(settings);
    FarHangupEnds(f, Correct(f, now));
    RunGoesOn(start, init, Correct(f, now));
    assert |init + [Correct(f, now)]| == 8;
  }

  lemma NewCallIsOnCourse(settings: Settings, challenge: string, now: real)
    requires ValidSettings(settings) && FourDigits(challenge)
    ensures NewCall(settings, challenge, now).Some?
    ensures var (start, _) := NewCall(settings, challenge, now).value; OnCourse(start, settings, 0, now)
  {
  }

  lemma RunGoesOn(start: Flow, inputs: seq<Input>, last: Input)
    requires Coherent(start)
    ensures var (f, sent) := Run(start, inputs);
            var (g, command) := Step(f, last);
            Run(start, inputs + [last]) == (g, Record(sent, command))
  {
    hide Step, Coherent;
    assert (inputs + [last])[..|inputs|] == inputs;
  }
}
