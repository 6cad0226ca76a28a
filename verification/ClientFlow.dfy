/**
 * The automated caller's stage machine: final speech segments move it through
 * five stages, each answered with one DTMF command, under a stage and a call
 * deadline. Prompt recognition is an arbitrary function.
 */
module ClientFlow {
  import opened Prelude

  datatype Stage =
    | Dialing | Welcome | Challenge | Menu | Identifier | Confirmation | ResultStage | HangingUp | Ended

  datatype Recognition = Undecided | Complete(value: string) | Invalid(reason: string)

  type Recognizer = (Stage, string) -> Recognition

  datatype Command = Hangup(id: nat) | Dtmf(id: nat, digits: string)

  datatype Settings = Settings(stageTimeout: real, callTimeout: real, pauseUnits: nat)

  /** What the call came to: the price heard, or the first failure and the stage it struck in. */
  datatype Decision = Success(value: string) | Failure(reason: string, stage: Stage)

  datatype Kind = Answered | Transcription | HungUp | OtherKind | NotAString

  /** A transcription payload; a missing or ill-typed field is None. */
  datatype Speech = Speech(transcript: Option<string>, final: Option<bool>)

  /** A webhook body; `occurred` is None when missing, malformed or without a time zone. */
  datatype Event = NotADict | Event(kind: Kind, id: Option<string>, speech: Option<Speech>, occurred: Option<real>)

  datatype Flow = Flow(
    settings: Settings,
    startedAt: real,
    stage: Stage,
    stageStartedAt: real,
    pending: Option<Command>,
    checkpoint: bool,
    decision: Option<Decision>,
    cleanup: Option<string>,
    answered: bool,
    segments: seq<string>,
    chars: nat,
    seen: set<string>,
    lastTime: Option<real>,
    consumedAt: Option<real>,
    hangupStartedAt: Option<real>,
    resultHangupAt: Option<real>,
    nextId: nat
  )

  const CLEANUP_SECONDS := 15.0
  const RESULT_GRACE_SECONDS := 5.0
  const MAX_SEGMENTS := 64
  const MAX_CHARS := 4096
  const MAX_EVENT_IDS := 4096
  const MAX_ID_LENGTH := 256

  function NewFlow(settings: Settings, startedAt: real, now: real): Flow {
    Flow(settings, startedAt, Dialing, now, None, false, None, None, false, [], 0, {}, None, None, None, None, 0)
  }

  function NextStage(stage: Stage): Stage {
    match stage
    case Welcome => Challenge
    case Challenge => Menu
    case Menu => Identifier
    case Identifier => Confirmation
    case Confirmation => ResultStage
    case _ => stage
  }

  /** The digits with `units` pause characters between them. */
  function Wire(logical: string, units: nat): string {
    if |logical| <= 1 then logical
    else [logical[0]] + seq(units, i => 'w') + Wire(logical[1..], units)
  }

  /** What the far end dials: the wire without its pauses. */
  function Dialed(wire: string): string {
    if wire == [] then [] else (if wire[0] == 'w' then [] else [wire[0]]) + Dialed(wire[1..])
  }

  lemma {:induction false} PausesAreSilent(units: nat, rest: string)
    ensures Dialed(seq(units, i => 'w') + rest) == Dialed(rest)
    decreases units
  {
    var pauses := seq(units, i => 'w');
    if units == 0 {
      assert pauses + rest == rest;
    } else {
      PausesAreSilent(units - 1, rest);
      assert (pauses + rest)[1..] == seq(units - 1, i => 'w') + rest;
    }
  }

  lemma WireUnfolds(logical: string, units: nat)
    requires |logical| > 1
    ensures Wire(logical, units) == [logical[0]] + seq(units, i => 'w') + Wire(logical[1..], units)
  {
  }

  /** Whatever the pause setting, the far end dials exactly the recognised digits. */
  lemma {:induction false} WireDialsTheDigits(logical: string, units: nat)
    requires 'w' !in logical
    ensures Dialed(Wire(logical, units)) == logical
  {
    hide Wire, Dialed;
    NothingDialed(units);
    if |logical| > 1 {
      var rest := seq(units, i => 'w') + Wire(logical[1..], units);
      WireDialsTheDigits(logical[1..], units);
      WireUnfolds(logical, units);
      PausesAreSilent(units, Wire(logical[1..], units));
      assert Wire(logical, units) == [logical[0]] + rest;
      DialedFirst(logical[0], rest);
    } else if |logical| == 1 {
      WireOfOne(logical, units);
      DialedFirst(logical[0], "");
      assert logical == [logical[0]] + "";
    }
  }

  lemma NothingDialed(units: nat)
    ensures Dialed("") == "" == Wire("", units)
  {
  }

  lemma DialedFirst(c: char, rest: string)
    ensures Dialed([c] + rest) == (if c == 'w' then [] else [c]) + Dialed(rest)
  {
    assert ([c] + rest)[1..] == rest;
  }

  /** Where the digits and the pauses stand: a digit, then `units` pauses, in turn, a digit first and last. */
  lemma {:induction false} WirePositions(logical: string, units: nat, k: nat, e: nat)
    requires k < |logical| && e <= units && (k == |logical| - 1 ==> e == 0)
    ensures |Wire(logical, units)| == |logical| + (|logical| - 1) * units
    ensures
      var p := k * (units + 1) + e;
      p < |Wire(logical, units)| && Wire(logical, units)[p] == if e == 0 then logical[k] else 'w'
    decreases |logical|
  {
    hide Wire;
    if |logical| == 1 {
      WireOfOne(logical, units);
    } else {
      WireUnfolds(logical, units);
      assert (|logical| - 1) * units == (|logical| - 2) * units + units;
      if k == 0 {
        WirePositions(logical[1..], units, 0, 0);
      } else {
        WirePositions(logical[1..], units, k - 1, e);
        assert k * (units + 1) == (k - 1) * (units + 1) + (units + 1);
      }
    }
  }

  lemma WireOfOne(logical: string, units: nat)
    requires |logical| == 1
    ensures Wire(logical, units) == logical
  {
  }

  // --------------------------------------------------------------- transitions

  function Decide(f: Flow, reason: string, value: Option<string>): Flow {
    if f.decision.Some? then f
    else f.(decision := Some(if value.Some? then Success(value.value) else Failure(reason, f.stage)))
  }

  function End(f: Flow): Flow {
    f.(stage := Ended, pending := None, segments := [], chars := 0)
  }

  function HangUp(f: Flow, reason: string, now: real): (Flow, Option<Command>) {
    var command := Hangup(f.nextId);
    (Decide(f, reason, None).(pending := Some(command), stage := HangingUp, hangupStartedAt := Some(now),
                              segments := [], chars := 0, nextId := f.nextId + 1),
     Some(command))
  }

  /** A machine that begins to hang up notes the time. */
  predicate StampsHangup(f: Flow, g: Flow, now: real) {
    f.stage != HangingUp && g.stage == HangingUp ==> g.hangupStartedAt == Some(now)
  }

  function Fail(f: Flow, reason: string, now: real): (r: (Flow, Option<Command>))
    ensures r.0.seen == f.seen && StampsHangup(f, r.0, now)
  {
    if f.stage == Ended then (f, None)
    else if f.resultHangupAt.Some? then (End(Decide(f, reason, None)), None)
    else HangUp(Decide(f, reason, None), reason, now)
  }

  function ResultBoundary(f: Flow): real
    requires f.resultHangupAt.Some?
  {
    var grace, call := f.resultHangupAt.value + RESULT_GRACE_SECONDS, f.startedAt + f.settings.callTimeout;
    if grace <= call then grace else call
  }

  function Expired(f: Flow, now: real): Option<string> {
    if f.resultHangupAt.Some? then
      if now >= ResultBoundary(f) then Some("result_unrecognized") else None
    else if now - f.startedAt >= f.settings.callTimeout then Some("overall_timeout")
    else if now - f.stageStartedAt >= f.settings.stageTimeout then Some("stage_timeout")
    else None
  }

  function OnDeadline(f: Flow, recognize: Recognizer, reason: string, now: real): (r: (Flow, Option<Command>))
    ensures r.0.seen == f.seen && StampsHangup(f, r.0, now)
  {
    var heard := recognize(ResultStage, Join(f.segments));
    if f.stage == ResultStage && heard.Complete? then
      var decided := Decide(f, "completed", Some(heard.value));
      if f.resultHangupAt.Some? then (End(decided), None) else HangUp(decided, "completed", now)
    else Fail(f, reason, now)
  }

  function ReserveDtmf(f: Flow, logical: string, now: real, occurred: Option<real>): (Flow, Option<Command>) {
    var command := Dtmf(f.nextId, Wire(logical, f.settings.pauseUnits));
    (f.(pending := Some(command), segments := [], chars := 0, lastTime := None, consumedAt := occurred,
        stage := NextStage(f.stage), stageStartedAt := now, nextId := f.nextId + 1),
     Some(command))
  }

  function Evaluate(f: Flow, recognize: Recognizer, now: real, occurred: Option<real>): (r: (Flow, Option<Command>))
    ensures r.0.seen == f.seen && StampsHangup(f, r.0, now)
  {
    match recognize(f.stage, Join(f.segments))
    case Undecided => (f, None)
    case Invalid(reason) => Fail(f, reason, now)
    case Complete(value) =>
      if f.stage == ResultStage then (f.(checkpoint := true), None)
      else ReserveDtmf(f, value, now, occurred)
  }

  predicate Usable(speech: Speech) {
    && speech.final == Some(true)
    && speech.transcript.Some?
    && 0 < |speech.transcript.value| <= MAX_CHARS
  }

  function OnTranscript(f: Flow, recognize: Recognizer, event: Event, now: real): (r: (Flow, Option<Command>))
    requires event.Event?
    ensures r.0.seen == f.seen && StampsHangup(f, r.0, now)
  {
    if event.speech.None? || !Usable(event.speech.value) || event.occurred.None? then (f, None)
    else
      var text, occurred := event.speech.value.transcript.value, event.occurred.value;
      if f.lastTime.Some? && occurred < f.lastTime.value then Fail(f, "transcript_order", now)
      else if f.consumedAt.Some? && occurred < f.consumedAt.value then (f, None)
      else if |f.segments| >= MAX_SEGMENTS || f.chars + |text| > MAX_CHARS then Fail(f, "buffer_overflow", now)
      else
        var g := f.(segments := f.segments + [text], chars := f.chars + |text|, lastTime := Some(occurred));
        if f.stage == Dialing then (g, None) else Evaluate(g, recognize, now, Some(occurred))
  }

  function OnKind(f: Flow, recognize: Recognizer, event: Event, now: real): (r: (Flow, Option<Command>))
    requires event.Event?
    ensures r.0.seen == f.seen && StampsHangup(f, r.0, now)
  {
    match event.kind
    case Answered =>
      if f.stage != Dialing || f.answered then (f, None)
      else
        var g := f.(answered := true, stage := Welcome, stageStartedAt := now);
        if f.segments != [] then Evaluate(g, recognize, now, f.lastTime) else (g, None)
    case Transcription => OnTranscript(f, recognize, event, now)
    case HungUp =>
      if f.stage == ResultStage then
        (f.(resultHangupAt := if f.resultHangupAt.None? then Some(now) else f.resultHangupAt, pending := None), None)
      else (End(Decide(f, "early_hangup", None)), None)
    case _ => (f, None)
  }

  predicate ValidId(id: Option<string>) {
    id.Some? && 1 <= |id.value| <= MAX_ID_LENGTH
  }

  function Handle(f: Flow, recognize: Recognizer, event: Event, now: real): (Flow, Option<Command>) {
    if f.stage == Ended || event.NotADict? then (f, None)
    else if f.stage == HangingUp && event.kind != HungUp then (f, None)
    else if f.stage != HangingUp && Expired(f, now).Some? then OnDeadline(f, recognize, Expired(f, now).value, now)
    else if !ValidId(event.id) || event.id.value in f.seen then (f, None)
    else if |f.seen| >= MAX_EVENT_IDS then Fail(f, "event_overflow", now)
    else if event.kind == NotAString then (f, None)
    else OnKind(f.(seen := f.seen + {event.id.value}), recognize, event, now)
  }

  function Expire(f: Flow, recognize: Recognizer, now: real): (Flow, Option<Command>) {
    if f.stage == Ended then (f, None)
    else if f.stage == HangingUp then
      if f.hangupStartedAt.Some? && now - f.hangupStartedAt.value >= CLEANUP_SECONDS then
        (End(f.(cleanup := Some("hangup_unconfirmed"))), None)
      else (f, None)
    else if Expired(f, now).Some? then OnDeadline(f, recognize, Expired(f, now).value, now)
    else (f, None)
  }

  function CommandFailed(f: Flow, id: nat, now: real): (Flow, Option<Command>) {
    if f.stage == Ended || f.pending.None? || f.pending.value.id != id then (f, None)
    else if f.pending.value.Hangup? then (End(f.(cleanup := Some("hangup_unconfirmed"))), None)
    else Fail(f, "provider_failure", now)
  }

  function Stop(f: Flow, reason: string, now: real): (Flow, Option<Command>) {
    if f.stage == Ended || f.stage == HangingUp then (f, None) else Fail(f, reason, now)
  }

  // ---------------------------------------------------------------------- runs

  datatype Input =
    | Deliver(event: Event, now: real)
    | Tick(now: real)
    | CommandFailure(id: nat, now: real)
    | Interrupt(reason: string, now: real)

  function Step(f: Flow, recognize: Recognizer, input: Input): (Flow, Option<Command>) {
    match input
    case Deliver(event, now) => Handle(f, recognize, event, now)
    case Tick(now) => Expire(f, recognize, now)
    case CommandFailure(id, now) => CommandFailed(f, id, now)
    case Interrupt(reason, now) => Stop(f, reason, now)
  }

  /** A reserved command and the stage it left the machine in. */
  datatype Sent = Sent(stage: Stage, command: Command)

  function Run(start: Flow, recognize: Recognizer, inputs: seq<Input>): (Flow, seq<Sent>) {
    if inputs == [] then (start, [])
    else
      var (f, sent) := Run(start, recognize, inputs[..|inputs| - 1]);
      var (g, command) := Step(f, recognize, inputs[|inputs| - 1]);
      (g, Record(sent, g, command))
  }

  function Record(sent: seq<Sent>, after: Flow, command: Option<Command>): seq<Sent> {
    if command.Some? then sent + [Sent(after.stage, command.value)] else sent
  }

  function Rank(stage: Stage): nat {
    match stage
    case Dialing => 0
    case Welcome => 1
    case Challenge => 2
    case Menu => 3
    case Identifier => 4
    case Confirmation => 5
    case ResultStage => 6
    case HangingUp => 7
    case Ended => 8
  }

  predicate Active(stage: Stage) { Rank(stage) <= 6 }

  /** The stages answered with a DTMF command, in call order. */
  const ANSWERED: seq<Stage> := [Welcome, Challenge, Menu, Identifier, Confirmation]

  /** How many of them lie before an active `stage`. */
  function Passed(stage: Stage): (n: nat)
    requires Active(stage)
  {
    if stage == Dialing then 0 else Rank(stage) - 1
  }

  function TotalChars(segments: seq<string>): nat {
    if segments == [] then 0 else TotalChars(segments[..|segments| - 1]) + |segments[|segments| - 1]|
  }

  ghost predicate BufferOk(f: Flow) {
    f.chars == TotalChars(f.segments) && f.chars <= MAX_CHARS && |f.segments| <= MAX_SEGMENTS
  }

  ghost predicate Coherent(f: Flow) {
    && BufferOk(f)
    && |f.seen| <= MAX_EVENT_IDS
    && (Active(f.stage) <==> f.decision.None?)
    && (f.stage == HangingUp ==> f.hangupStartedAt.Some? && f.resultHangupAt.None?)
    && ((f.pending.Some? && f.pending.value.Hangup?) <==> f.stage == HangingUp)
    && (f.resultHangupAt.Some? ==> f.stage == ResultStage || f.stage == Ended)
  }

  /** The DTMF command that answers the stage before `after`, spelling what was recognised in it. */
  ghost predicate Answers(command: Command, settings: Settings, recognize: Recognizer, stage: Stage) {
    && command.Dtmf?
    && exists text ::
         && recognize(stage, text).Complete?
         && command.digits == Wire(recognize(stage, text).value, settings.pauseUnits)
  }

  /** What any one step may do: forward only, the decision is final, one well-placed command at most. */
  ghost predicate Advances(f: Flow, g: Flow, command: Option<Command>, recognize: Recognizer) {
    && Coherent(g)
    && g.settings == f.settings && g.startedAt == f.startedAt
    && Rank(f.stage) <= Rank(g.stage)
    && (f.decision.Some? ==> g.decision == f.decision)
    && (f.decision.None? && g.decision.Some? && g.decision.value.Success? ==> f.stage == ResultStage)
    && (command.None? ==> Active(g.stage) ==> Passed(g.stage) == Passed(f.stage))
    && (command.Some? && command.value.Hangup? ==> g.stage == HangingUp)
    && (g.stage == HangingUp && f.stage != HangingUp ==> command.Some? && command.value.Hangup?)
    && (command.Some? && command.value.Dtmf? ==>
          && Active(g.stage) && Passed(g.stage) == Passed(f.stage) + 1
          && Answers(command.value, f.settings, recognize, ANSWERED[Passed(f.stage)]))
  }

  // ------------------------------------------------------- what each transition keeps

  lemma FailAdvances(f: Flow, recognize: Recognizer, reason: string, now: real)
    requires Coherent(f)
    ensures var (g, command) := Fail(f, reason, now); Advances(f, g, command, recognize)
  {
  }

  lemma DeadlineAdvances(f: Flow, recognize: Recognizer, reason: string, now: real)
    requires Coherent(f) && Active(f.stage)
    ensures var (g, command) := OnDeadline(f, recognize, reason, now); Advances(f, g, command, recognize)
  {
    FailAdvances(f, recognize, reason, now);
    hide Fail;
  }

  /** Only the buffer matters, and an empty one is fine. */
  lemma BufferAlone(f: Flow)
    ensures forall g: Flow :: g.segments == [] && g.chars == 0 ==> BufferOk(g)
    ensures forall g: Flow :: g.segments == f.segments && g.chars == f.chars ==> (BufferOk(g) <==> BufferOk(f))
  {
  }

  lemma Spells(command: Command, f: Flow, recognize: Recognizer)
    requires recognize(f.stage, Join(f.segments)).Complete?
    requires command.Dtmf?
    requires command.digits == Wire(recognize(f.stage, Join(f.segments)).value, f.settings.pauseUnits)
    ensures Answers(command, f.settings, recognize, f.stage)
  {
    hide Wire, Join;
  }

  lemma EvaluateAdvances(f: Flow, recognize: Recognizer, now: real, occurred: Option<real>)
    requires Coherent(f) && Active(f.stage) && f.stage != Dialing
    ensures var (g, command) := Evaluate(f, recognize, now, occurred); Advances(f, g, command, recognize)
  {
    hide Fail, Wire, BufferOk, Answers;
    BufferAlone(f);
    match recognize(f.stage, Join(f.segments)) {
      case Undecided =>
      case Invalid(reason) => FailAdvances(f, recognize, reason, now);
      case Complete(value) =>
        if f.stage != ResultStage {
          Spells(Dtmf(f.nextId, Wire(value, f.settings.pauseUnits)), f, recognize);
        }
    }
  }

  lemma Appended(segments: seq<string>, text: string)
    ensures TotalChars(segments + [text]) == TotalChars(segments) + |text|
  {
    assert (segments + [text])[..|segments + [text]| - 1] == segments;
  }

  lemma TranscriptAdvances(f: Flow, recognize: Recognizer, event: Event, now: real)
    requires Coherent(f) && Active(f.stage) && event.Event?
    ensures var (g, command) := OnTranscript(f, recognize, event, now); Advances(f, g, command, recognize)
  {
    hide Fail, Evaluate, Advances, Coherent;
    FailAdvances(f, recognize, "transcript_order", now);
    FailAdvances(f, recognize, "buffer_overflow", now);
    NothingAdvances(f, recognize);
    if event.speech.Some? && Usable(event.speech.value) && event.occurred.Some? {
      var text, occurred := event.speech.value.transcript.value, event.occurred.value;
      if |f.segments| < MAX_SEGMENTS && f.chars + |text| <= MAX_CHARS {
        BufferingAdvances(f, recognize, text, occurred, now);
      }
    }
  }

  lemma NothingAdvances(f: Flow, recognize: Recognizer)
    requires Coherent(f)
    ensures Advances(f, f, None, recognize)
  {
  }

  lemma BufferingAdvances(f: Flow, recognize: Recognizer, text: string, occurred: real, now: real)
    requires Coherent(f) && Active(f.stage)
    requires |f.segments| < MAX_SEGMENTS && f.chars + |text| <= MAX_CHARS
    ensures var g := f.(segments := f.segments + [text], chars := f.chars + |text|, lastTime := Some(occurred));
            if f.stage == Dialing then Advances(f, g, None, recognize)
            else var (h, command) := Evaluate(g, recognize, now, Some(occurred)); Advances(f, h, command, recognize)
  {
    hide Evaluate, Answers;
    Appended(f.segments, text);
    var g := f.(segments := f.segments + [text], chars := f.chars + |text|, lastTime := Some(occurred));
    if f.stage != Dialing {
      EvaluateAdvances(g, recognize, now, Some(occurred));
    }
  }

  lemma KindAdvances(f: Flow, recognize: Recognizer, event: Event, now: real)
    requires Coherent(f) && f.stage != Ended && event.Event?
    requires f.stage == HangingUp ==> event.kind == HungUp
    ensures var (g, command) := OnKind(f, recognize, event, now); Advances(f, g, command, recognize)
  {
    hide OnTranscript, Evaluate, Answers;
    if event.kind == Answered && f.stage == Dialing && !f.answered {
      var g := f.(answered := true, stage := Welcome, stageStartedAt := now);
      if f.segments != [] { EvaluateAdvances(g, recognize, now, f.lastTime); }
    } else if event.kind == Transcription {
      TranscriptAdvances(f, recognize, event, now);
    }
  }

  lemma HandleAdvances(f: Flow, recognize: Recognizer, event: Event, now: real)
    requires Coherent(f)
    ensures var (g, command) := Handle(f, recognize, event, now); Advances(f, g, command, recognize)
  {
    hide OnKind, OnDeadline, Fail, Answers;
    if f.stage != Ended && event.Event? && !(f.stage == HangingUp && event.kind != HungUp) {
      var expired := Expired(f, now);
      if f.stage != HangingUp && expired.Some? {
        DeadlineAdvances(f, recognize, expired.value, now);
      } else if ValidId(event.id) && event.id.value !in f.seen {
        if |f.seen| >= MAX_EVENT_IDS {
          FailAdvances(f, recognize, "event_overflow", now);
        } else {
          KindAdvances(f.(seen := f.seen + {event.id.value}), recognize, event, now);
        }
      }
    }
  }

  /** Any input, in any coherent state, keeps the machine coherent and moving forward. */
  lemma StepAdvances(f: Flow, recognize: Recognizer, input: Input)
    requires Coherent(f)
    ensures var (g, command) := Step(f, recognize, input); Advances(f, g, command, recognize)
  {
    hide Handle, OnDeadline, Fail, Answers;
    match input {
      case Deliver(event, now) => HandleAdvances(f, recognize, event, now);
      case Tick(now) =>
        if Active(f.stage) && Expired(f, now).Some? { DeadlineAdvances(f, recognize, Expired(f, now).value, now); }
      case CommandFailure(id, now) => FailAdvances(f, recognize, "provider_failure", now);
      case Interrupt(reason, now) => FailAdvances(f, recognize, reason, now);
    }
  }

  // ------------------------------------------------------------------- over whole runs

  /** DTMF commands come first, the i-th answering the i-th stage; every later command is a hangup. */
  ghost predicate WellOrdered(sent: seq<Sent>, settings: Settings, recognize: Recognizer) {
    && (forall i :: 0 <= i < |sent| && sent[i].command.Dtmf? ==>
          && i < |ANSWERED|
          && sent[i].stage == NextStage(ANSWERED[i])
          && Answers(sent[i].command, settings, recognize, ANSWERED[i]))
    && (forall i, j :: 0 <= i < j < |sent| && sent[i].command.Hangup? ==> sent[j].command.Hangup?)
  }

  ghost predicate Kept(f: Flow, sent: seq<Sent>, settings: Settings, recognize: Recognizer) {
    && Coherent(f) && f.settings == settings
    && WellOrdered(sent, settings, recognize)
    && (Active(f.stage) ==> |sent| == Passed(f.stage) && forall i :: 0 <= i < |sent| ==> sent[i].command.Dtmf?)
    && (f.decision.Some? && f.decision.value.Success? ==> |sent| >= |ANSWERED| && sent[|ANSWERED| - 1].command.Dtmf?)
  }

  lemma RecordKeeps(f: Flow, sent: seq<Sent>, g: Flow, command: Option<Command>, settings: Settings,
                    recognize: Recognizer)
    requires Kept(f, sent, settings, recognize) && Advances(f, g, command, recognize)
    ensures Kept(g, Record(sent, g, command), settings, recognize)
  {
    hide Answers, BufferOk;
  }

  /**
   * Over every sequence of events, ticks, command failures and interruptions: one DTMF
   * per stage in order, none after a hangup, success only after all five, and the buffer
   * inside its bounds with `chars` equal to what it holds.
   */
  lemma {:induction false} EveryRunIsOrdered(settings: Settings, startedAt: real, now: real, recognize: Recognizer,
                                             inputs: seq<Input>)
    ensures var (f, sent) := Run(NewFlow(settings, startedAt, now), recognize, inputs);
            Kept(f, sent, settings, recognize)
  {
    if inputs != [] {
      var before := inputs[..|inputs| - 1];
      EveryRunIsOrdered(settings, startedAt, now, recognize, before);
      var (f, sent) := Run(NewFlow(settings, startedAt, now), recognize, before);
      StepAdvances(f, recognize, inputs[|inputs| - 1]);
      var (g, command) := Step(f, recognize, inputs[|inputs| - 1]);
      hide Step, Kept, Advances;
      RecordKeeps(f, sent, g, command, settings, recognize);
    }
  }

  lemma {:induction false} RunSplits(start: Flow, recognize: Recognizer, inputs: seq<Input>, more: seq<Input>)
    ensures var (f, sent) := Run(start, recognize, inputs);
            var (g, later) := Run(f, recognize, more);
            Run(start, recognize, inputs + more) == (g, sent + later)
  {
    hide *;
    var (f, sent) := Run(start, recognize, inputs);
    if more == [] {
      RunNothing(f, recognize);
      assert inputs + more == inputs && sent + [] == sent;
    } else {
      var init, last := more[..|more| - 1], more[|more| - 1];
      RunSplits(start, recognize, inputs, init);
      assert more == init + [last] && inputs + more == (inputs + init) + [last];
      RunExtends(start, recognize, inputs + init, last);
      RunExtends(f, recognize, init, last);
      var (g, later) := Run(f, recognize, init);
      var (h, command) := Step(g, recognize, last);
      RecordAfter(sent, later, h, command);
    }
  }

  lemma RunNothing(f: Flow, recognize: Recognizer)
    ensures Run(f, recognize, []) == (f, [])
  {
  }

  lemma RunExtends(start: Flow, recognize: Recognizer, inputs: seq<Input>, last: Input)
    ensures var (f, sent) := Run(start, recognize, inputs);
            var (g, command) := Step(f, recognize, last);
            Run(start, recognize, inputs + [last]) == (g, Record(sent, g, command))
  {
    hide Step, Record;
    assert (inputs + [last])[..|inputs|] == inputs;
  }

  lemma RecordAfter(sent: seq<Sent>, later: seq<Sent>, after: Flow, command: Option<Command>)
    ensures Record(sent + later, after, command) == sent + Record(later, after, command)
  {
  }

  lemma {:induction false} RunAdvances(start: Flow, recognize: Recognizer, inputs: seq<Input>)
    requires Coherent(start)
    ensures var (f, _) := Run(start, recognize, inputs);
            && Coherent(f) && f.startedAt == start.startedAt && f.settings == start.settings
            && Rank(start.stage) <= Rank(f.stage)
            && (start.decision.Some? ==> f.decision == start.decision)
  {
    hide Step, Coherent;
    if inputs != [] {
      var (f, _) := Run(start, recognize, inputs[..|inputs| - 1]);
      RunAdvances(start, recognize, inputs[..|inputs| - 1]);
      StepAdvances(f, recognize, inputs[|inputs| - 1]);
    }
  }

  /** Between any two moments of any run: stages only move forward and a made decision stays. */
  lemma ForwardOnly(settings: Settings, startedAt: real, now: real, recognize: Recognizer, earlier: seq<Input>,
                    later: seq<Input>)
    ensures var start := NewFlow(settings, startedAt, now);
            var (f, sent) := Run(start, recognize, earlier);
            var (g, all) := Run(start, recognize, earlier + later);
            && Rank(f.stage) <= Rank(g.stage)
            && (f.decision.Some? ==> g.decision == f.decision)
            && sent <= all
  {
    hide Step;
    var start := NewFlow(settings, startedAt, now);
    RunAdvances(start, recognize, earlier);
    RunSplits(start, recognize, earlier, later);
    RunAdvances(Run(start, recognize, earlier).0, recognize, later);
  }

  // ------------------------------------------------------------------------- hangups

  /** The one input that makes a machine already hanging up reserve another hangup. */
  predicate Saturated(f: Flow, input: Input) {
    && input.Deliver? && input.event.Event? && input.event.kind == HungUp
    && ValidId(input.event.id) && input.event.id.value !in f.seen
    && |f.seen| >= MAX_EVENT_IDS
  }

  /** A second hangup command is reserved exactly when the seen ids are full and a fresh call.hangup arrives. */
  lemma HangsUpAgainIff(f: Flow, recognize: Recognizer, input: Input)
    requires Coherent(f) && f.stage == HangingUp
    ensures var (g, command) := Step(f, recognize, input);
            && (command.Some? <==> Saturated(f, input))
            && (command.Some? ==> command.value.Hangup? && g.stage == HangingUp && g.hangupStartedAt == Some(input.now))
            && (command.None? ==> (g.stage == HangingUp && g.hangupStartedAt == f.hangupStartedAt) || g.stage == Ended)
  {
  }

  lemma EndedIsSilent(f: Flow, recognize: Recognizer, input: Input)
    requires f.stage == Ended
    ensures Step(f, recognize, input) == (f, None)
  {
  }

  function Hangups(sent: seq<Sent>): nat {
    if sent == [] then 0
    else Hangups(sent[..|sent| - 1]) + if sent[|sent| - 1].command.Hangup? then 1 else 0
  }

  lemma NoHangupsYet()
    ensures Hangups([]) == 0
  {
  }

  lemma HangupsRecorded(sent: seq<Sent>, after: Flow, command: Option<Command>)
    ensures Hangups(Record(sent, after, command))
         == Hangups(sent) + if command.Some? && command.value.Hangup? then 1 else 0
  {
    if command.Some? {
      assert (sent + [Sent(after.stage, command.value)])[..|sent|] == sent;
    }
  }

  /** How often, along a run, a machine that is hanging up meets a saturating input. */
  function Saturations(start: Flow, recognize: Recognizer, inputs: seq<Input>): nat {
    if inputs == [] then 0
    else
      var last := |inputs| - 1;
      var (f, _) := Run(start, recognize, inputs[..last]);
      Saturations(start, recognize, inputs[..last])
      + if f.stage == HangingUp && Saturated(f, inputs[last]) then 1 else 0
  }

  /** The hangups of a run are at most one, plus one for each saturating input: exactly, once it is hanging up. */
  lemma {:induction false} HangupsCounted(start: Flow, recognize: Recognizer, inputs: seq<Input>)
    requires Coherent(start) && Active(start.stage)
    ensures var (f, sent) := Run(start, recognize, inputs);
            && Coherent(f)
            && (Active(f.stage) ==> Hangups(sent) == 0 == Saturations(start, recognize, inputs))
            && (f.stage == HangingUp ==> Hangups(sent) == 1 + Saturations(start, recognize, inputs))
            && Hangups(sent) <= 1 + Saturations(start, recognize, inputs)
  {
    hide Step, Saturated, Coherent, Hangups, Record;
    NoHangupsYet();
    if inputs != [] {
      var last := |inputs| - 1;
      var (f, sent) := Run(start, recognize, inputs[..last]);
      HangupsCounted(start, recognize, inputs[..last]);
      StepAdvances(f, recognize, inputs[last]);
      if f.stage == HangingUp { HangsUpAgainIff(f, recognize, inputs[last]); }
      if f.stage == Ended { EndedIsSilent(f, recognize, inputs[last]); }
      var (g, command) := Step(f, recognize, inputs[last]);
      HangupsRecorded(sent, g, command);
    }
  }

  /** Only a handled event adds an id to the seen ones, and it adds one. */
  lemma SeenGrowsByOne(f: Flow, recognize: Recognizer, input: Input)
    ensures |Step(f, recognize, input).0.seen| <= |f.seen| + 1
  {
    hide Fail, OnDeadline, OnKind;
    if input.Deliver? && input.event.Event? && ValidId(input.event.id) {
      var grown := f.(seen := f.seen + {input.event.id.value});
      assert |grown.seen| <= |f.seen| + 1;
    }
  }

  lemma {:induction false} SeenIsBounded(start: Flow, recognize: Recognizer, inputs: seq<Input>)
    ensures |Run(start, recognize, inputs).0.seen| <= |start.seen| + |inputs|
  {
    hide Step;
    if inputs != [] {
      SeenIsBounded(start, recognize, inputs[..|inputs| - 1]);
      SeenGrowsByOne(Run(start, recognize, inputs[..|inputs| - 1]).0, recognize, inputs[|inputs| - 1]);
    }
  }

  lemma {:induction false} ShortRunsNeverSaturate(start: Flow, recognize: Recognizer, inputs: seq<Input>)
    requires |start.seen| + |inputs| <= MAX_EVENT_IDS
    ensures Saturations(start, recognize, inputs) == 0
  {
    hide Step;
    if inputs != [] {
      ShortRunsNeverSaturate(start, recognize, inputs[..|inputs| - 1]);
      SeenIsBounded(start, recognize, inputs[..|inputs| - 1]);
    }
  }

  /** A call that receives at most 4096 inputs hangs up at most once. */
  lemma AtMostOneHangup(settings: Settings, startedAt: real, now: real, recognize: Recognizer, inputs: seq<Input>)
    requires |inputs| <= MAX_EVENT_IDS
    ensures Hangups(Run(NewFlow(settings, startedAt, now), recognize, inputs).1) <= 1
  {
    hide Step;
    HangupsCounted(NewFlow(settings, startedAt, now), recognize, inputs);
    ShortRunsNeverSaturate(NewFlow(settings, startedAt, now), recognize, inputs);
  }

  // -- a run that does hang up twice: 4096 unrelated events, a shutdown, and a late call.hangup

  function Noise(i: nat): Input
    requires i < MAX_EVENT_IDS
  {
    Deliver(Event(OtherKind, Some(NoiseId(i)), None, None), 0.0)
  }

  function NoiseId(i: nat): (id: string)
    requires i < MAX_EVENT_IDS
    ensures ValidId(Some(id)) && |id| == 2
  {
    [(i / 64) as char, (i % 64) as char]
  }

  function Noises(n: nat): (inputs: seq<Input>)
    requires n <= MAX_EVENT_IDS
    ensures |inputs| == n
  {
    seq(n, i requires 0 <= i < n => Noise(i))
  }

  lemma NoiseIdsDiffer(i: nat, j: nat)
    requires i < j < MAX_EVENT_IDS
    ensures NoiseId(i) != NoiseId(j)
  {
    assert i == 64 * (i / 64) + i % 64 && j == 64 * (j / 64) + j % 64;
    assert NoiseId(i)[0] as int == i / 64 && NoiseId(i)[1] as int == i % 64;
    assert NoiseId(j)[0] as int == j / 64 && NoiseId(j)[1] as int == j % 64;
  }

  lemma NoiseIsOnlySeen(f: Flow, recognize: Recognizer, i: nat)
    requires i < MAX_EVENT_IDS && |f.seen| < MAX_EVENT_IDS && NoiseId(i) !in f.seen
    requires f.stage == Dialing && Expired(f, 0.0).None?
    ensures Step(f, recognize, Noise(i)) == (f.(seen := f.seen + {NoiseId(i)}), None)
  {
    hide OnDeadline, NoiseId;
  }

  lemma {:induction false} NoiseFillsTheSeenIds(settings: Settings, recognize: Recognizer, n: nat)
    requires settings.stageTimeout > 0.0 && settings.callTimeout > 0.0
    requires n <= MAX_EVENT_IDS
    ensures var start := NewFlow(settings, 0.0, 0.0);
            var (f, sent) := Run(start, recognize, Noises(n));
            && f == start.(seen := f.seen) && sent == [] && |f.seen| == n
            && (forall id :: id in f.seen ==> exists i: nat :: i < n && id == NoiseId(i))
  {
    hide Step, NoiseId;
    if n > 0 {
      NoiseFillsTheSeenIds(settings, recognize, n - 1);
      assert Noises(n)[..n - 1] == Noises(n - 1);
      var (f, _) := Run(NewFlow(settings, 0.0, 0.0), recognize, Noises(n - 1));
      forall i: nat | i < n - 1 ensures NoiseId(i) != NoiseId(n - 1) {
        NoiseIdsDiffer(i, n - 1);
      }
      NoiseIsOnlySeen(f, recognize, n - 1);
    }
  }

  function LateHangup(now: real): Input {
    Deliver(Event(HungUp, Some("late"), None, None), now)
  }

  const LATE_HANGUP: Input := LateHangup(0.0)
  const SHUTDOWN: Input := Interrupt("shutdown", 0.0)

  lemma TwoSteps(f: Flow, recognize: Recognizer, first: Input, second: Input)
    ensures var (g, one) := Step(f, recognize, first);
            var (h, two) := Step(g, recognize, second);
            Run(f, recognize, [first, second]) == (h, Record(Record([], g, one), h, two))
  {
    hide *;
    RunNothing(f, recognize);
    RunExtends(f, recognize, [], first);
    RunExtends(f, recognize, [first], second);
    assert [] + [first] == [first] && [first] + [second] == [first, second];
  }

  lemma FullThenHungUpTwice(f: Flow, recognize: Recognizer)
    requires f.stage == Dialing && f.resultHangupAt.None? && Coherent(f)
    requires |f.seen| == MAX_EVENT_IDS && "late" !in f.seen
    ensures var (g, one) := Step(f, recognize, SHUTDOWN);
            var (_, two) := Step(g, recognize, LATE_HANGUP);
            one.Some? && one.value.Hangup? && two.Some? && two.value.Hangup?
  {
    StepAdvances(f, recognize, SHUTDOWN);
    var (g, one) := Step(f, recognize, SHUTDOWN);
    assert g.stage == HangingUp && g.seen == f.seen && one.Some? && one.value.Hangup?;
    HangsUpAgainIff(g, recognize, LATE_HANGUP);
  }

  /** The limit on seen ids can make a call hang up twice: 4096 ignored events, a shutdown, a late call.hangup. */
  lemma HangsUpTwice(settings: Settings, recognize: Recognizer)
    requires settings.stageTimeout > 0.0 && settings.callTimeout > 0.0
    ensures Hangups(Run(NewFlow(settings, 0.0, 0.0), recognize,
                        Noises(MAX_EVENT_IDS) + [SHUTDOWN, LATE_HANGUP]).1) == 2
  {
    hide Step, Coherent, Noises;
    NoiseFillsTheSeenIds(settings, recognize, MAX_EVENT_IDS);
    var start := NewFlow(settings, 0.0, 0.0);
    var (f, _) := Run(start, recognize, Noises(MAX_EVENT_IDS));
    StartIsCoherent(settings, 0.0, 0.0);
    RunAdvances(start, recognize, Noises(MAX_EVENT_IDS));
    assert |"late"| == 4;
    FullThenHungUpTwice(f, recognize);
    TwoSteps(f, recognize, SHUTDOWN, LATE_HANGUP);
    RunSplits(start, recognize, Noises(MAX_EVENT_IDS), [SHUTDOWN, LATE_HANGUP]);
    var (g, one) := Step(f, recognize, SHUTDOWN);
    var (h, two) := Step(g, recognize, LATE_HANGUP);
    assert Hangups([]) == 0;
    HangupsRecorded([], g, one);
    HangupsRecorded(Record([], g, one), h, two);
    assert [] + Record(Record([], g, one), h, two) == Record(Record([], g, one), h, two);
  }

  // --------------------------------------------------------------------- termination

  /** All clock readings of a run are at most `limit`. */
  predicate NoLaterThan(inputs: seq<Input>, limit: real) {
    forall i :: 0 <= i < |inputs| ==> inputs[i].now <= limit
  }

  lemma {:induction false} HangupStartsOnTheClock(start: Flow, recognize: Recognizer, inputs: seq<Input>, limit: real)
    requires Coherent(start) && Active(start.stage) && NoLaterThan(inputs, limit)
    ensures var (f, _) := Run(start, recognize, inputs);
            Coherent(f) && (f.stage == HangingUp ==> f.hangupStartedAt.value <= limit)
  {
    hide Coherent;
    if inputs != [] {
      var last := |inputs| - 1;
      var (f, _) := Run(start, recognize, inputs[..last]);
      HangupStartsOnTheClock(start, recognize, inputs[..last], limit);
      StepAdvances(f, recognize, inputs[last]);
      HangupIsTimed(f, recognize, inputs[last]);
    }
    hide Step;
    assert Coherent(Run(start, recognize, inputs).0);
  }

  lemma HangupIsTimed(f: Flow, recognize: Recognizer, input: Input)
    requires Coherent(f)
    ensures var (g, _) := Step(f, recognize, input);
            g.stage == HangingUp ==>
              || g.hangupStartedAt == Some(input.now)
              || (f.stage == HangingUp && g.hangupStartedAt == f.hangupStartedAt)
  {
    if f.stage == HangingUp {
      hide Step, Coherent;
      HangsUpAgainIff(f, recognize, input);
    } else {
      hide Fail, OnDeadline, OnKind, Coherent;
    }
  }

  /** A tick past the call timeout takes any call that has not begun to hang up out of its stages. */
  lemma FirstTick(f: Flow, recognize: Recognizer, now: real)
    requires Coherent(f) && now >= f.startedAt + f.settings.callTimeout
    ensures var (g, _) := Step(f, recognize, Tick(now));
            && Coherent(g)
            && (g.stage == Ended || g.stage == HangingUp)
            && (f.stage == Ended ==> g.stage == Ended)
            && (Active(f.stage) && g.stage == HangingUp ==> g.hangupStartedAt == Some(now))
            && (f.stage == HangingUp && g.stage == HangingUp ==> g.hangupStartedAt == f.hangupStartedAt)
  {
    StepAdvances(f, recognize, Tick(now));
  }

  /** A tick ends a call that is hanging up exactly when 15 seconds have passed since its last hangup. */
  lemma SecondTick(f: Flow, recognize: Recognizer, now: real)
    requires Coherent(f) && f.stage == HangingUp
    ensures Step(f, recognize, Tick(now)).0.stage == Ended <==> now - f.hangupStartedAt.value >= CLEANUP_SECONDS
  {
  }

  /** The last saturating input of a run is its i-th, and it comes after `limit`. */
  ghost predicate RestartsAfter(start: Flow, recognize: Recognizer, inputs: seq<Input>, i: nat, limit: real) {
    && i < |inputs| && inputs[i].now > limit
    && Saturated(Run(start, recognize, inputs[..i]).0, inputs[i])
    && forall j :: i < j < |inputs| ==> !Saturated(Run(start, recognize, inputs[..j]).0, inputs[j])
  }

  /** The last saturating input of a run, if there is one, comes after `limit`. */
  ghost predicate Restarted(start: Flow, recognize: Recognizer, inputs: seq<Input>, limit: real) {
    exists i: nat :: RestartsAfter(start, recognize, inputs, i, limit)
  }

  lemma RestartsEarlier(start: Flow, recognize: Recognizer, inputs: seq<Input>, i: nat, limit: real)
    requires i + 1 < |inputs|
    requires !Saturated(Run(start, recognize, inputs[..|inputs| - 1]).0, inputs[|inputs| - 1])
    ensures RestartsAfter(start, recognize, inputs, i, limit)
       <==> RestartsAfter(start, recognize, inputs[..|inputs| - 1], i, limit)
  {
    hide Run, Saturated;
    var earlier := inputs[..|inputs| - 1];
    assert forall j :: 0 <= j < |earlier| ==> earlier[..j] == inputs[..j] && earlier[j] == inputs[j];
  }

  /** While hanging up, the clean-up clock reads past `limit` exactly when the last saturating input set it there. */
  lemma {:induction false} CleanupClock(start: Flow, recognize: Recognizer, inputs: seq<Input>, limit: real)
    requires Coherent(start) && start.stage == HangingUp && start.hangupStartedAt.value <= limit
    requires Run(start, recognize, inputs).0.stage == HangingUp
    ensures var (f, _) := Run(start, recognize, inputs);
            && Coherent(f)
            && (f.hangupStartedAt.value > limit <==> Restarted(start, recognize, inputs, limit))
  {
    hide Step, Saturated, Coherent, Restarted;
    if inputs == [] {
      NothingRestarts(start, recognize, limit);
    } else {
      var last := |inputs| - 1;
      var (f, _) := Run(start, recognize, inputs[..last]);
      StillHangingUp(start, recognize, inputs[..last], inputs[last]);
      CleanupClock(start, recognize, inputs[..last], limit);
      HangsUpAgainIff(f, recognize, inputs[last]);
      StepAdvances(f, recognize, inputs[last]);
      LastRestart(start, recognize, inputs, limit);
    }
  }

  lemma NothingRestarts(start: Flow, recognize: Recognizer, limit: real)
    ensures !Restarted(start, recognize, [], limit)
  {
  }

  /** A saturating last input is the last one; any other leaves it to the earlier ones. */
  lemma LastRestart(start: Flow, recognize: Recognizer, inputs: seq<Input>, limit: real)
    requires inputs != []
    ensures var last := |inputs| - 1;
            var f := Run(start, recognize, inputs[..last]).0;
            Restarted(start, recognize, inputs, limit) <==>
              if Saturated(f, inputs[last]) then inputs[last].now > limit
              else Restarted(start, recognize, inputs[..last], limit)
  {
    hide Run, Saturated;
    var last := |inputs| - 1;
    var f := Run(start, recognize, inputs[..last]).0;
    if Saturated(f, inputs[last]) {
      if inputs[last].now > limit { assert RestartsAfter(start, recognize, inputs, last, limit); }
    } else {
      forall i: nat | i < last
        ensures RestartsAfter(start, recognize, inputs, i, limit)
           <==> RestartsAfter(start, recognize, inputs[..last], i, limit)
      {
        RestartsEarlier(start, recognize, inputs, i, limit);
      }
    }
  }

  lemma StillHangingUp(start: Flow, recognize: Recognizer, before: seq<Input>, last: Input)
    requires Coherent(start) && start.stage == HangingUp
    requires Step(Run(start, recognize, before).0, recognize, last).0.stage == HangingUp
    ensures var f := Run(start, recognize, before).0; Coherent(f) && f.stage == HangingUp
  {
    hide Step, Coherent, Run;
    var f := Run(start, recognize, before).0;
    RunAdvances(start, recognize, before);
    if f.stage == Ended { EndedIsSilent(f, recognize, last); }
  }

  /**
   * After a tick at or past the call timeout and another 15 seconds or more later, whatever
   * happens around them, a call is over unless it was still hanging up before the second one
   * and the last saturating input in between came less than 15 seconds before it: exactly then
   * it is not.
   */
  lemma TwoTicksEndIff(settings: Settings, startedAt: real, now: real, recognize: Recognizer,
                       before: seq<Input>, t1: real, between: seq<Input>, t2: real)
    requires t1 >= startedAt + settings.callTimeout && t2 >= t1 + CLEANUP_SECONDS
    requires NoLaterThan(before, t1)
    ensures var start := NewFlow(settings, startedAt, now);
            var (g, _) := Run(start, recognize, before + [Tick(t1)]);
            var (h, _) := Run(g, recognize, between);
            Run(start, recognize, before + [Tick(t1)] + between + [Tick(t2)]).0.stage != Ended <==>
              && h.stage == HangingUp
              && Restarted(g, recognize, between, t2 - CLEANUP_SECONDS)
  {
    hide *;
    var start := NewFlow(settings, startedAt, now);
    AfterTheFirstTick(settings, startedAt, now, recognize, before, t1);
    var (g, _) := Run(start, recognize, before + [Tick(t1)]);
    RunSplits(start, recognize, before + [Tick(t1)], between);
    RunEndsWith(start, recognize, before + [Tick(t1)] + between, Tick(t2));
    LastTickEndsIff(g, recognize, between, t2);
  }

  lemma LastTickEndsIff(g: Flow, recognize: Recognizer, between: seq<Input>, t2: real)
    requires Coherent(g) && !Active(g.stage)
    requires g.stage == HangingUp ==> g.hangupStartedAt.value <= t2 - CLEANUP_SECONDS
    ensures var (h, _) := Run(g, recognize, between);
            Step(h, recognize, Tick(t2)).0.stage != Ended <==>
              && h.stage == HangingUp
              && Restarted(g, recognize, between, t2 - CLEANUP_SECONDS)
  {
    hide Step, Run, Restarted, BufferOk;
    var (h, _) := Run(g, recognize, between);
    RunAdvances(g, recognize, between);
    if h.stage == HangingUp {
      CleanupClock(g, recognize, between, t2 - CLEANUP_SECONDS);
      SecondTick(h, recognize, t2);
    } else {
      EndedIsSilent(h, recognize, Tick(t2));
    }
  }

  /** In particular it is over when no saturating input in between is less than 15 seconds before the second tick. */
  lemma TwoTicksEndTheCall(settings: Settings, startedAt: real, now: real, recognize: Recognizer,
                           before: seq<Input>, t1: real, between: seq<Input>, t2: real)
    requires t1 >= startedAt + settings.callTimeout && t2 >= t1 + CLEANUP_SECONDS
    requires NoLaterThan(before, t1)
    requires var (g, _) := Run(NewFlow(settings, startedAt, now), recognize, before + [Tick(t1)]);
             forall i :: 0 <= i < |between| && Saturated(Run(g, recognize, between[..i]).0, between[i])
               ==> between[i].now <= t2 - CLEANUP_SECONDS
    ensures Run(NewFlow(settings, startedAt, now), recognize,
                before + [Tick(t1)] + between + [Tick(t2)]).0.stage == Ended
  {
    hide Run, Saturated, NewFlow;
    TwoTicksEndIff(settings, startedAt, now, recognize, before, t1, between, t2);
  }

  // -- a call that two ticks do not end: its ids are full and a call.hangup falls between them

  lemma LateHangupRestarts(f: Flow, recognize: Recognizer, now: real)
    requires Coherent(f) && f.stage == Dialing && f.resultHangupAt.None?
    requires |f.seen| == MAX_EVENT_IDS && "late" !in f.seen && now >= f.startedAt + f.settings.callTimeout
    ensures var (g, _) := Step(f, recognize, Tick(now));
            var (h, _) := Step(g, recognize, LateHangup(now + 10.0));
            && Coherent(h) && h.stage == HangingUp && h.hangupStartedAt == Some(now + 10.0)
  {
    hide BufferOk;
    StepAdvances(f, recognize, Tick(now));
    var (g, _) := Step(f, recognize, Tick(now));
    assert g.stage == HangingUp && g.seen == f.seen;
    StepAdvances(g, recognize, LateHangup(now + 10.0));
    HangsUpAgainIff(g, recognize, LateHangup(now + 10.0));
  }

  /** Two ticks may leave a call hanging up: 4096 ignored events, the first tick, and a call.hangup 10 seconds later. */
  lemma TwoTicksMayNotEndIt(settings: Settings, recognize: Recognizer)
    requires settings.stageTimeout > 0.0 && settings.callTimeout > 0.0
    ensures var t1 := settings.callTimeout;
            Run(NewFlow(settings, 0.0, 0.0), recognize,
                Noises(MAX_EVENT_IDS) + [Tick(t1)] + [LateHangup(t1 + 10.0)] + [Tick(t1 + CLEANUP_SECONDS)]).0.stage
            == HangingUp
  {
    hide Step, Coherent, Noises;
    var start, t1 := NewFlow(settings, 0.0, 0.0), settings.callTimeout;
    NoiseFillsTheSeenIds(settings, recognize, MAX_EVENT_IDS);
    var (f, _) := Run(start, recognize, Noises(MAX_EVENT_IDS));
    StartIsCoherent(settings, 0.0, 0.0);
    RunAdvances(start, recognize, Noises(MAX_EVENT_IDS));
    assert |"late"| == 4;
    LateHangupRestarts(f, recognize, t1);
    RunEndsWith(start, recognize, Noises(MAX_EVENT_IDS), Tick(t1));
    RunEndsWith(start, recognize, Noises(MAX_EVENT_IDS) + [Tick(t1)], LateHangup(t1 + 10.0));
    RunEndsWith(start, recognize, Noises(MAX_EVENT_IDS) + [Tick(t1)] + [LateHangup(t1 + 10.0)],
                Tick(t1 + CLEANUP_SECONDS));
    var (h, _) := Run(start, recognize, Noises(MAX_EVENT_IDS) + [Tick(t1)] + [LateHangup(t1 + 10.0)]);
    hide Run;
    SecondTick(h, recognize, t1 + CLEANUP_SECONDS);
    StepAdvances(h, recognize, Tick(t1 + CLEANUP_SECONDS));
  }

  lemma AfterTheFirstTick(settings: Settings, startedAt: real, now: real, recognize: Recognizer, before: seq<Input>,
                          t1: real)
    requires t1 >= startedAt + settings.callTimeout && NoLaterThan(before, t1)
    ensures var (g, _) := Run(NewFlow(settings, startedAt, now), recognize, before + [Tick(t1)]);
            && Coherent(g) && !Active(g.stage)
            && (g.stage == HangingUp ==> g.hangupStartedAt.value <= t1)
  {
    hide Step, Run, BufferOk;
    var start := NewFlow(settings, startedAt, now);
    StartIsCoherent(settings, startedAt, now);
    var (f, _) := Run(start, recognize, before);
    RunAdvances(start, recognize, before);
    HangupStartsOnTheClock(start, recognize, before, t1);
    FirstTick(f, recognize, t1);
    RunEndsWith(start, recognize, before, Tick(t1));
  }

  lemma StartIsCoherent(settings: Settings, startedAt: real, now: real)
    ensures Coherent(NewFlow(settings, startedAt, now))
  {
  }

  lemma RunEndsWith(start: Flow, recognize: Recognizer, inputs: seq<Input>, last: Input)
    ensures Run(start, recognize, inputs + [last]).0 == Step(Run(start, recognize, inputs).0, recognize, last).0
  {
    hide *;
    RunExtends(start, recognize, inputs, last);
  }

  // ---------------------------------------------------------- the machine, in place

  /** The same machine as the program holds it: fields that every call updates in place. */
  class ClientCall {
    const settings: Settings
    const startedAt: real
    const recognize: Recognizer
    var stage: Stage
    var stageStartedAt: real
    var pending: Option<Command>
    var checkpoint: bool
    var decision: Option<Decision>
    var cleanup: Option<string>
    var answered: bool
    var segments: seq<string>
    var chars: nat
    var seen: set<string>
    var lastTime: Option<real>
    var consumedAt: Option<real>
    var hangupStartedAt: Option<real>
    var resultHangupAt: Option<real>
    var nextId: nat

    function Value(): Flow
      reads this
    {
      Flow(settings, startedAt, stage, stageStartedAt, pending, checkpoint, decision, cleanup, answered, segments,
           chars, seen, lastTime, consumedAt, hangupStartedAt, resultHangupAt, nextId)
    }

    constructor (settings: Settings, startedAt: real, now: real, recognize: Recognizer)
      ensures Value() == NewFlow(settings, startedAt, now) && this.recognize == recognize
    {
      this.settings, this.startedAt, this.recognize := settings, startedAt, recognize;
      stage, stageStartedAt, pending, checkpoint, decision, cleanup := Dialing, now, None, false, None, None;
      answered, segments, chars, seen, lastTime, consumedAt := false, [], 0, {}, None, None;
      hangupStartedAt, resultHangupAt, nextId := None, None, 0;
    }

    method DecideOnce(reason: string, value: Option<string>)
      modifies this
      ensures Value() == Decide(old(Value()), reason, value)
    {
      if decision.Some? { return; }
      match value {
        case Some(heard) => decision := Some(Success(heard));
        case None => decision := Some(Failure(reason, stage));
      }
    }

    method Finish()
      modifies this
      ensures Value() == End(old(Value()))
    {
      stage, pending, segments, chars := Ended, None, [], 0;
    }

    method ReserveHangup(reason: string, now: real) returns (command: Option<Command>)
      modifies this
      ensures (Value(), command) == HangUp(old(Value()), reason, now)
    {
      DecideOnce(reason, None);
      command := Some(Hangup(nextId));
      nextId := nextId + 1;
      pending, stage, hangupStartedAt := command, HangingUp, Some(now);
      segments, chars := [], 0;
    }

    method FailCall(reason: string, now: real) returns (command: Option<Command>)
      modifies this
      ensures (Value(), command) == Fail(old(Value()), reason, now)
    {
      if stage == Ended { return None; }
      DecideOnce(reason, None);
      if resultHangupAt.Some? {
        Finish();
        return None;
      }
      command := ReserveHangup(reason, now);
    }

    method Deadline(reason: string, now: real) returns (command: Option<Command>)
      modifies this
      ensures (Value(), command) == OnDeadline(old(Value()), recognize, reason, now)
    {
      hide Fail;
      if stage == ResultStage {
        var heard := recognize(ResultStage, Join(segments));
        if heard.Complete? {
          DecideOnce("completed", Some(heard.value));
          if resultHangupAt.Some? {
            Finish();
            return None;
          }
          command := ReserveHangup("completed", now);
          return;
        }
      }
      command := FailCall(reason, now);
    }

    /** A DTMF command under the next number. */
    method MakeDtmf(logical: string) returns (command: Command)
      modifies this
      ensures command == Dtmf(old(nextId), Wire(logical, settings.pauseUnits))
      ensures Value() == old(Value()).(nextId := old(nextId) + 1)
    {
      hide Wire;
      command := Dtmf(nextId, Wire(logical, settings.pauseUnits));
      nextId := nextId + 1;
    }

    /** The buffer starts anew after the segment heard at `occurred`. */
    method ForgetHeard(occurred: Option<real>)
      modifies this
      ensures Value() == old(Value()).(segments := [], chars := 0, lastTime := None, consumedAt := occurred)
    {
      segments, chars, lastTime, consumedAt := [], 0, None, occurred;
    }

    method Reserve(logical: string, now: real, occurred: Option<real>) returns (command: Option<Command>)
      modifies this
      ensures (Value(), command) == ReserveDtmf(old(Value()), logical, now, occurred)
    {
      hide Wire, NextStage;
      var dtmf := MakeDtmf(logical);
      ForgetHeard(occurred);
      pending, stage, stageStartedAt := Some(dtmf), NextStage(stage), now;
      command := Some(dtmf);
    }

    method Recognise(now: real, occurred: Option<real>) returns (command: Option<Command>)
      modifies this
      ensures (Value(), command) == Evaluate(old(Value()), recognize, now, occurred)
    {
      hide Fail, ReserveDtmf;
      match recognize(stage, Join(segments)) {
        case Undecided => command := None;
        case Invalid(reason) => command := FailCall(reason, now);
        case Complete(value) =>
          if stage == ResultStage {
            checkpoint, command := true, None;
          } else {
            command := Reserve(value, now, occurred);
          }
      }
    }

    method Buffer(text: string, occurred: real)
      modifies this
      ensures Value() == old(Value()).(segments := old(segments) + [text], chars := old(chars) + |text|,
                                       lastTime := Some(occurred))
    {
      segments, chars, lastTime := segments + [text], chars + |text|, Some(occurred);
    }

    method HearSegment(event: Event, now: real) returns (command: Option<Command>)
      requires event.Event?
      modifies this
      ensures (Value(), command) == OnTranscript(old(Value()), recognize, event, now)
    {
      hide Fail, Evaluate;
      if event.speech.None? || !Usable(event.speech.value) || event.occurred.None? { return None; }
      var text, occurred := event.speech.value.transcript.value, event.occurred.value;
      if lastTime.Some? && occurred < lastTime.value {
        command := FailCall("transcript_order", now);
        return;
      }
      if consumedAt.Some? && occurred < consumedAt.value { return None; }
      if |segments| >= MAX_SEGMENTS || chars + |text| > MAX_CHARS {
        command := FailCall("buffer_overflow", now);
        return;
      }
      Buffer(text, occurred);
      if stage == Dialing { return None; }
      command := Recognise(now, Some(occurred));
    }

    method HandleKind(event: Event, now: real) returns (command: Option<Command>)
      requires event.Event?
      modifies this
      ensures (Value(), command) == OnKind(old(Value()), recognize, event, now)
    {
      hide Evaluate, OnTranscript;
      command := None;
      match event.kind {
        case Answered =>
          if stage != Dialing || answered { return; }
          answered, stage, stageStartedAt := true, Welcome, now;
          if segments != [] { command := Recognise(now, lastTime); }
        case Transcription => command := HearSegment(event, now);
        case HungUp =>
          if stage == ResultStage {
            if resultHangupAt.None? { resultHangupAt := Some(now); }
            pending := None;
            return;
          }
          DecideOnce("early_hangup", None);
          Finish();
        case _ =>
      }
    }

    method HandleEvent(event: Event, now: real) returns (command: Option<Command>)
      modifies this
      ensures (Value(), command) == Handle(old(Value()), recognize, event, now)
    {
      hide Fail, OnDeadline, OnKind, Expired;
      if stage == Ended || event.NotADict? { return None; }
      if stage == HangingUp {
        if event.kind != HungUp { return None; }
      } else {
        var expired := Expired(Value(), now);
        if expired.Some? {
          command := Deadline(expired.value, now);
          return;
        }
      }
      if !ValidId(event.id) || event.id.value in seen { return None; }
      if |seen| >= MAX_EVENT_IDS {
        command := FailCall("event_overflow", now);
        return;
      }
      if event.kind == NotAString { return None; }
      seen := seen + {event.id.value};
      command := HandleKind(event, now);
    }

    method ExpireAt(now: real) returns (command: Option<Command>)
      modifies this
      ensures (Value(), command) == Expire(old(Value()), recognize, now)
    {
      hide Fail, OnDeadline, Expired;
      command := None;
      if stage == Ended { return; }
      if stage == HangingUp {
        if hangupStartedAt.Some? && now - hangupStartedAt.value >= CLEANUP_SECONDS {
          cleanup := Some("hangup_unconfirmed");
          Finish();
        }
        return;
      }
      var expired := Expired(Value(), now);
      if expired.Some? { command := Deadline(expired.value, now); }
    }

    method NoteCommandFailed(id: nat, now: real) returns (command: Option<Command>)
      modifies this
      ensures (Value(), command) == CommandFailed(old(Value()), id, now)
    {
      hide Fail;
      if stage == Ended || pending.None? || pending.value.id != id { return None; }
      if pending.value.Hangup? {
        cleanup := Some("hangup_unconfirmed");
        Finish();
        return None;
      }
      command := FailCall("provider_failure", now);
    }

    method StopCall(reason: string, now: real) returns (command: Option<Command>)
      modifies this
      ensures (Value(), command) == Stop(old(Value()), reason, now)
    {
      hide Fail;
      if stage == Ended || stage == HangingUp { return None; }
      command := FailCall(reason, now);
    }
  }
}
