/**
 * The test IVR's side of a call: it answers, gathers digits through five stages with a
 * bounded number of attempts each, speaks a result or a failure, and hangs up. Every
 * command is reserved in the state before it is sent.
 */
module FixtureFlow {
  import opened Prelude

  datatype Stage =
    | Answering | Welcome | Challenge | Menu | Identifier | Confirmation
    | Silent | ResultStage | FailureStage | HangingUp | Ended

  datatype Scenario = Normal | LeadingZero | RejectedId | SilentStage | UnsupportedResult | EarlyHangup

  datatype Announcement =
    | Amount | UnsupportedAmount | Unavailable | BusinessUnsupported | NotVerified

  /** What a command asks of the provider: `length` digits for a gather, with the retry prompt or not. */
  datatype Action =
    | Answer
    | Gather(stage: Stage, retry: bool, length: nat)
    | Speak(text: Announcement)
    | Hangup

  datatype Command = Command(id: nat, action: Action)

  datatype Settings = Settings(
    gatherTimeoutMs: nat,
    speechGrace: nat,
    callTimeout: nat,
    maxAttempts: nat,
    syntheticId: string,
    scenario: Scenario
  )

  predicate ValidSettings(s: Settings) {
    && 1000 <= s.gatherTimeoutMs <= 60000
    && 10 <= s.speechGrace <= 60
    && 60 <= s.callTimeout <= 600
    && 1 <= s.maxAttempts <= 3
    && NineDigits(s.syntheticId)
  }

  predicate NineDigits(text: string) {
    |text| == 9 && forall c :: c in text ==> '0' <= c <= '9'
  }

  datatype Flow = Flow(
    settings: Settings,
    challenge: string,
    callDeadline: real,
    stage: Stage,
    deadline: real,
    pending: Option<Command>,
    attempt: nat,
    outcome: Option<string>,
    answered: bool,
    nextId: nat
  )

  datatype EventType = CallAnswered | CallHangup | GatherEnded | SpeakEnded | OtherEvent

  datatype Status = Valid | Invalid | Timeout | Hungup | Completed | OtherStatus

  /** `client` is the echoed client state; `digits` is None when not a string, "" when missing. */
  datatype Payload = Payload(client: Option<nat>, status: Status, digits: Option<string>)

  const CLEANUP_SECONDS := 15.0

  type Reply = (Flow, Option<Command>)

  // --------------------------------------------------------------- transitions

  function Reserve(f: Flow, stage: Stage, action: Action, now: real, duration: real): Reply {
    var command := Command(f.nextId, action);
    (f.(stage := stage, deadline := now + duration, pending := Some(command), nextId := f.nextId + 1), Some(command))
  }

  predicate FourDigits(text: string) {
    |text| == 4 && forall c :: c in text ==> '0' <= c <= '9'
  }

  /** A new call, already holding the command that answers it; None when the challenge is malformed. */
  function NewCall(settings: Settings, challenge: string, now: real): Option<Reply> {
    if !FourDigits(challenge) then None
    else
      var deadline := now + settings.callTimeout as real;
      var blank := Flow(settings, challenge, deadline, Answering, now, None, 1, None, false, 0);
      Some(Reserve(blank, Answering, Answer, now, 20.0))
  }

  function GatherSeconds(s: Settings): real {
    s.gatherTimeoutMs as real / 1000.0 + s.speechGrace as real
  }

  function GatherLength(stage: Stage): nat {
    match stage
    case Challenge => 5
    case Identifier => 10
    case _ => 1
  }

  function StartGather(f: Flow, stage: Stage, now: real, retry: bool): Reply {
    Reserve(f.(attempt := if retry then f.attempt + 1 else 1), stage,
            Gather(stage, retry, GatherLength(stage)), now, GatherSeconds(f.settings))
  }

  function HangUp(f: Flow, now: real): Reply {
    if f.stage == HangingUp || f.stage == Ended then (f, None)
    else Reserve(f, HangingUp, Hangup, now, CLEANUP_SECONDS)
  }

  function Fail(f: Flow, reason: string, now: real, text: Announcement): Reply {
    if f.stage == Ended || f.stage == HangingUp then (f, None)
    else
      var g := f.(outcome := Some(reason));
      if !f.answered || f.stage == FailureStage then HangUp(g, now)
      else Reserve(g, FailureStage, Speak(text), now, f.settings.speechGrace as real)
  }

  function End(f: Flow, reason: string): Flow {
    f.(outcome := Some(reason), stage := Ended, pending := None, challenge := "")
  }

  function RemoteEnd(f: Flow): Flow {
    End(f, if f.outcome.Some? then f.outcome.value else "remote_hangup")
  }

  function Expire(f: Flow, now: real): Reply {
    if f.stage == Ended then (f, None)
    else if f.stage == HangingUp then (if now >= f.deadline then End(f, "hangup_unconfirmed") else f, None)
    else if now >= f.callDeadline then HangUp(f.(outcome := Some("call_timeout")), now)
    else if now < f.deadline then (f, None)
    else if f.stage == ResultStage || f.stage == FailureStage then HangUp(f.(outcome := Some("speech_timeout")), now)
    else Fail(f, "completion_timeout", now, Unavailable)
  }

  predicate Gathers(stage: Stage) {
    stage in {Welcome, Challenge, Menu, Identifier, Confirmation}
  }

  function NextStage(stage: Stage): Stage
    requires Gathers(stage)
  {
    match stage
    case Welcome => Challenge
    case Challenge => Menu
    case Menu => Identifier
    case Identifier => Confirmation
    case _ => ResultStage
  }

  function Expected(f: Flow): string {
    match f.stage
    case Challenge => f.challenge + "#"
    case Identifier => f.settings.syntheticId + "#"
    case _ => "1"
  }

  /** The digits were accepted: move on, or where the scenario says so, go another way. */
  function Accepted(f: Flow, now: real): Reply
    requires Gathers(f.stage)
  {
    var next, scenario := NextStage(f.stage), f.settings.scenario;
    if next == Challenge && scenario == EarlyHangup then HangUp(f, now)
    else if next == Challenge && scenario == SilentStage then
      (f.(stage := Silent, pending := None, deadline := f.callDeadline), None)
    else if next == Confirmation && scenario == RejectedId then Fail(f, "input_rejected", now, NotVerified)
    else if next == ResultStage then
      Reserve(f.(attempt := 1), ResultStage, Speak(if scenario == UnsupportedResult then UnsupportedAmount else Amount),
              now, f.settings.speechGrace as real)
    else StartGather(f, next, now, false)
  }

  function Gathered(f: Flow, payload: Payload, now: real): Reply
    requires Gathers(f.stage)
  {
    if payload.status !in {Valid, Invalid, Timeout} then Fail(f, "provider_failure", now, Unavailable)
    else if f.stage == Menu && payload.status == Valid && payload.digits == Some("2") then
      Fail(f, "unsupported_business", now, BusinessUnsupported)
    else if payload.status != Valid || payload.digits != Some(Expected(f)) then
      if f.attempt < f.settings.maxAttempts then StartGather(f, f.stage, now, true)
      else Fail(f, "input_rejected", now, NotVerified)
    else Accepted(f, now)
  }

  /** A matching, timely event. */
  function Progress(f: Flow, kind: EventType, payload: Payload, now: real): Reply
    requires f.pending.Some? && (f.pending.value.action.Gather? ==> Gathers(f.stage))
  {
    if f.stage == Answering && kind == CallAnswered then StartGather(f.(answered := true), Welcome, now, false)
    else if f.pending.value.action.Gather? && kind == GatherEnded then Gathered(f, payload, now)
    else if (f.stage == ResultStage || f.stage == FailureStage) && kind == SpeakEnded then
      HangUp(if f.stage == ResultStage
             then f.(outcome := Some(if payload.status == Completed then "result_spoken" else "speech_failed"))
             else f, now)
    else (f, None)
  }

  function Handle(f: Flow, kind: EventType, payload: Payload, now: real): Reply
    requires f.pending.Some? && f.pending.value.action.Gather? ==> Gathers(f.stage)
  {
    if f.stage == Ended then (f, None)
    else if kind == CallHangup then (RemoteEnd(f), None)
    else if f.pending.None? then Expire(f, now)
    else if payload.client != Some(f.pending.value.id) then (f, None)
    else if (kind == GatherEnded || kind == SpeakEnded) && payload.status == Hungup then (RemoteEnd(f), None)
    else
      var (g, command) := Expire(f, now);
      if command.Some? || g.stage == Ended then (g, command) else Progress(g, kind, payload, now)
  }

  function CommandFailed(f: Flow, id: nat, now: real): Reply {
    if f.pending.None? || f.pending.value.id != id then (f, None)
    else Fail(f, "command_failed", now, Unavailable)
  }

  // ---------------------------------------------------------------------- runs

  datatype Input =
    | Deliver(kind: EventType, payload: Payload, now: real)
    | Tick(now: real)
    | CommandFailure(id: nat, now: real)

  /** A pending command fits the stage it was reserved for. */
  predicate Coherent(f: Flow) {
    && ValidSettings(f.settings)
    && (f.pending.None? <==> f.stage == Silent || f.stage == Ended)
    && (f.pending.Some? ==> (f.pending.value.action.Gather? <==> Gathers(f.stage)))
    && (Gathers(f.stage) ==> 1 <= f.attempt <= f.settings.maxAttempts)
    && (f.stage == Answering ==> !f.answered)
    && (f.stage != Answering && f.stage != HangingUp && f.stage != Ended ==> f.answered)
  }

  function Step(f: Flow, input: Input): Reply
    requires Coherent(f)
  {
    match input
    case Deliver(kind, payload, now) => Handle(f, kind, payload, now)
    case Tick(now) => Expire(f, now)
    case CommandFailure(id, now) => CommandFailed(f, id, now)
  }

  function Rank(stage: Stage): nat {
    match stage
    case Answering => 0
    case Welcome => 1
    case Challenge => 2
    case Menu => 3
    case Identifier => 4
    case Confirmation => 5
    case Silent => 6
    case ResultStage => 7
    case FailureStage => 8
    case HangingUp => 9
    case Ended => 10
  }

  /** The measure: commands the call can still issue, by stage first and attempts left second. */
  function Budget(f: Flow): nat
    requires Coherent(f)
  {
    var most := f.settings.maxAttempts;
    match f.stage
    case Answering => 5 * most + 3
    case Welcome => 5 * most - f.attempt + 3
    case Challenge => 4 * most - f.attempt + 3
    case Menu => 3 * most - f.attempt + 3
    case Identifier => 2 * most - f.attempt + 3
    case Confirmation => most - f.attempt + 3
    case Silent => 2
    case ResultStage => 2
    case FailureStage => 1
    case _ => 0
  }

  /** Any step keeps the machine coherent, never moves back, and pays for each command out of the budget. */
  ghost predicate Advances(f: Flow, g: Flow, command: Option<Command>)
    requires Coherent(f)
  {
    && Coherent(g) && g.settings == f.settings && g.callDeadline == f.callDeadline
    && Rank(f.stage) <= Rank(g.stage)
    && Budget(g) + (if command.Some? then 1 else 0) <= Budget(f)
    && (command.Some? && command.value.action.Hangup? <==> g.stage == HangingUp && f.stage != HangingUp)
    && (command.Some? && command.value.action.Gather? ==>
          && g.stage == command.value.action.stage && Gathers(g.stage)
          && g.attempt == if g.stage == f.stage then f.attempt + 1 else 1)
    && (Gathers(g.stage) && !(command.Some? && command.value.action.Gather?) ==>
          g.stage == f.stage && g.attempt == f.attempt)
    && (Gathers(g.stage) && g.stage != f.stage ==> Rank(g.stage) == Rank(f.stage) + 1)
    && (g.stage == ResultStage ==> f.stage == Confirmation || f.stage == ResultStage)
  }

  lemma FailAdvances(f: Flow, reason: string, now: real, text: Announcement)
    requires Coherent(f)
    ensures var (g, command) := Fail(f, reason, now, text); Advances(f, g, command)
  {
  }

  lemma ExpireAdvances(f: Flow, now: real)
    requires Coherent(f)
    ensures var (g, command) := Expire(f, now);
            Advances(f, g, command) && (command.None? && g.stage != Ended ==> g == f)
  {
    hide Advances, HangUp, End, Fail;
    NothingAdvances(f);
    EndAdvances(f, "hangup_unconfirmed");
    HangUpAdvances(f, Some("call_timeout"), now);
    HangUpAdvances(f, Some("speech_timeout"), now);
    FailAdvances(f, "completion_timeout", now, Unavailable);
    FailCommands(f, "completion_timeout", now, Unavailable);
  }

  lemma EndAdvances(f: Flow, reason: string)
    requires Coherent(f)
    ensures Advances(f, End(f, reason), None) && End(f, reason).stage == Ended
  {
  }

  lemma HangUpAdvances(f: Flow, outcome: Option<string>, now: real)
    requires Coherent(f)
    ensures var (g, command) := HangUp(f.(outcome := outcome), now);
            Advances(f, g, command) && (f.stage != HangingUp && f.stage != Ended ==> command.Some?)
  {
  }

  lemma FailCommands(f: Flow, reason: string, now: real, text: Announcement)
    ensures f.stage != HangingUp && f.stage != Ended ==> Fail(f, reason, now, text).1.Some?
  {
  }

  lemma AcceptedAdvances(f: Flow, now: real)
    requires Coherent(f) && Gathers(f.stage)
    ensures var (g, command) := Accepted(f, now); Advances(f, g, command)
  {
    FailAdvances(f, "input_rejected", now, NotVerified);
  }

  lemma GatheredAdvances(f: Flow, payload: Payload, now: real)
    requires Coherent(f) && Gathers(f.stage)
    ensures var (g, command) := Gathered(f, payload, now); Advances(f, g, command)
  {
    hide Accepted, Fail;
    FailAdvances(f, "provider_failure", now, Unavailable);
    FailAdvances(f, "unsupported_business", now, BusinessUnsupported);
    FailAdvances(f, "input_rejected", now, NotVerified);
    AcceptedAdvances(f, now);
  }

  lemma ProgressAdvances(f: Flow, kind: EventType, payload: Payload, now: real)
    requires Coherent(f) && f.pending.Some?
    ensures var (g, command) := Progress(f, kind, payload, now); Advances(f, g, command)
  {
    hide Gathered;
    if Gathers(f.stage) { GatheredAdvances(f, payload, now); }
  }

  lemma NothingAdvances(f: Flow)
    requires Coherent(f)
    ensures Advances(f, f, None)
  {
  }

  lemma RemoteEndAdvances(f: Flow)
    requires Coherent(f)
    ensures Advances(f, RemoteEnd(f), None)
  {
  }

  lemma HandleAdvances(f: Flow, kind: EventType, payload: Payload, now: real)
    requires Coherent(f)
    ensures var (g, command) := Handle(f, kind, payload, now); Advances(f, g, command)
  {
    hide Expire, Progress, RemoteEnd, Advances;
    NothingAdvances(f);
    RemoteEndAdvances(f);
    ExpireAdvances(f, now);
    if f.pending.Some? { ProgressAdvances(f, kind, payload, now); }
    if f.pending.Some? && Expire(f, now) == (f, None) {
      assert Handle(f, kind, payload, now) in {(f, None), (RemoteEnd(f), None), Progress(f, kind, payload, now)};
    }
  }

  lemma StepAdvances(f: Flow, input: Input)
    requires Coherent(f)
    ensures var (g, command) := Step(f, input); Advances(f, g, command)
  {
    hide Fail, Expire, Handle, Advances;
    NothingAdvances(f);
    match input {
      case Deliver(kind, payload, now) =>
        HandleAdvances(f, kind, payload, now);
      case Tick(now) => ExpireAdvances(f, now);
      case CommandFailure(id, now) => FailAdvances(f, "command_failed", now, Unavailable);
    }
  }

  // ------------------------------------------------------------------- over whole runs

  function Record(sent: seq<Action>, command: Option<Command>): seq<Action> {
    if command.Some? then sent + [command.value.action] else sent
  }

  ghost function Run(start: Flow, inputs: seq<Input>): (r: (Flow, seq<Action>))
    requires Coherent(start)
    ensures Coherent(r.0)
  {
    if inputs == [] then (start, [])
    else
      var (f, sent) := Run(start, inputs[..|inputs| - 1]);
      StepAdvances(f, inputs[|inputs| - 1]);
      var (g, command) := Step(f, inputs[|inputs| - 1]);
      (g, Record(sent, command))
  }

  function IsHangup(): Action -> bool {
    (a: Action) => a.Hangup?
  }

  function IsGatherOf(stage: Stage): Action -> bool {
    (a: Action) => a.Gather? && a.stage == stage
  }

  ghost function GathersOf(sent: seq<Action>, stage: Stage): nat {
    Count(sent, IsGatherOf(stage))
  }

  ghost function Hangups(sent: seq<Action>): nat {
    Count(sent, IsHangup())
  }

  /** What the commands reserved so far say about where the machine is. */
  ghost predicate Accounts(f: Flow, sent: seq<Action>)
    requires Coherent(f)
  {
    && Hangups(sent) <= (if f.stage == HangingUp || f.stage == Ended then 1 else 0)
    && (forall stage | Gathers(stage) ::
          && GathersOf(sent, stage) <= f.settings.maxAttempts
          && (Rank(f.stage) < Rank(stage) ==> GathersOf(sent, stage) == 0)
          && (Rank(stage) < Rank(f.stage) && (Gathers(f.stage) || f.stage == ResultStage) ==>
                GathersOf(sent, stage) >= 1)
          && (f.stage == stage ==> GathersOf(sent, stage) == f.attempt))
  }

  lemma RecordAccounts(f: Flow, sent: seq<Action>, g: Flow, command: Option<Command>)
    requires Coherent(f) && Accounts(f, sent) && Advances(f, g, command)
    ensures Accounts(g, Record(sent, command))
  {
    hide Budget, Hangups, GathersOf;
    HangupRecorded(sent, command);
    forall stage | Gathers(stage)
      ensures GathersOf(Record(sent, command), stage)
           == GathersOf(sent, stage) + if IsGather(command, stage) then 1 else 0
    {
      GatherRecorded(sent, command, stage);
    }
  }

  predicate IsGather(command: Option<Command>, stage: Stage) {
    command.Some? && command.value.action.Gather? && command.value.action.stage == stage
  }

  lemma HangupRecorded(sent: seq<Action>, command: Option<Command>)
    ensures Hangups(Record(sent, command))
         == Hangups(sent) + if command.Some? && command.value.action.Hangup? then 1 else 0
  {
    hide Count;
    if command.Some? { CountAppend(sent, command.value.action, IsHangup()); }
  }

  lemma GatherRecorded(sent: seq<Action>, command: Option<Command>, stage: Stage)
    ensures GathersOf(Record(sent, command), stage)
         == GathersOf(sent, stage) + if IsGather(command, stage) then 1 else 0
  {
    hide Count;
    if command.Some? { CountAppend(sent, command.value.action, IsGatherOf(stage)); }
  }

  lemma {:induction false} RunSpends(start: Flow, inputs: seq<Input>, before: seq<Action>)
    requires Coherent(start) && Accounts(start, before)
    ensures var (f, sent) := Run(start, inputs);
            && Accounts(f, before + sent) && f.settings == start.settings && f.callDeadline == start.callDeadline
            && |sent| + Budget(f) <= Budget(start)
            && Rank(start.stage) <= Rank(f.stage)
  {
    hide Accounts, Coherent, Budget, Step;
    if inputs == [] {
      assert before + [] == before;
    } else {
      var last := |inputs| - 1;
      RunSpends(start, inputs[..last], before);
      var (f, sent) := Run(start, inputs[..last]);
      StepAdvances(f, inputs[last]);
      var (g, command) := Step(f, inputs[last]);
      RecordAccounts(f, before + sent, g, command);
      assert Record(before + sent, command) == before + Record(sent, command);
    }
  }

  /**
   * Whatever events, ticks and failures a call meets, it issues at most 5 * maxAttempts + 4
   * commands (the answer included), at most one of them a hangup, and gathers at most
   * maxAttempts times in each stage.
   */
  lemma EveryCallIsBounded(settings: Settings, challenge: string, now: real, inputs: seq<Input>)
    requires ValidSettings(settings) && FourDigits(challenge)
    ensures var (start, answer) := NewCall(settings, challenge, now).value;
            && Coherent(start) && answer.Some?
            && var (f, sent) := Run(start, inputs);
            var all := [answer.value.action] + sent;
            && |all| + Budget(f) <= 5 * settings.maxAttempts + 4
            && Hangups(all) <= 1
            && (forall stage | Gathers(stage) :: GathersOf(all, stage) <= settings.maxAttempts)
  {
    var (start, answer) := NewCall(settings, challenge, now).value;
    var first := [answer.value.action];
    assert Accounts(start, first) by {
      assert first == [] + [Answer];
      CountAppend([], Answer, IsHangup());
      forall stage | Gathers(stage) ensures GathersOf(first, stage) == 0 {
        CountAppend([], Answer, IsGatherOf(stage));
      }
    }
    RunSpends(start, inputs, first);
  }

  // --------------------------------------------------------------- the bound is exact

  /** A call in an ordinary scenario, with time left at `t0`. */
  predicate Unhurried(f: Flow, t0: real) {
    && Coherent(f) && f.settings.scenario == Normal
    && t0 < f.callDeadline && (f.pending.Some? && f.stage != HangingUp ==> t0 < f.deadline)
    && f.stage != Silent
  }

  /** The input that spends one command and no more: retry while attempts last, then pass. */
  function Spender(f: Flow, t0: real): Input
    requires Unhurried(f, t0) && Budget(f) > 0
  {
    var id := f.pending.value.id;
    if f.stage == Answering then Deliver(CallAnswered, Payload(Some(id), OtherStatus, None), t0)
    else if Gathers(f.stage) then
      if f.attempt < f.settings.maxAttempts then Deliver(GatherEnded, Payload(Some(id), Timeout, None), t0)
      else Deliver(GatherEnded, Payload(Some(id), Valid, Some(Expected(f))), t0)
    else if f.stage == ResultStage then CommandFailure(id, t0)
    else Deliver(SpeakEnded, Payload(Some(id), Completed, None), t0)
  }

  lemma AdvancedIsCoherent(f: Flow, g: Flow, command: Option<Command>)
    requires Coherent(f) && Advances(f, g, command)
    ensures Coherent(g)
  {
  }

  lemma SomeGrace(settings: Settings)
    requires ValidSettings(settings)
    ensures GatherSeconds(settings) > 0.0 && settings.speechGrace > 0 && settings.maxAttempts >= 1
  {
  }

  lemma SpendsOnARetry(f: Flow, t0: real)
    requires Unhurried(f, t0) && Budget(f) > 0 && Gathers(f.stage) && f.attempt < f.settings.maxAttempts
    ensures var (g, command) := Step(f, Spender(f, t0));
            command.Some? && Unhurried(g, t0) && Budget(g) == Budget(f) - 1
  {
    hide GatherLength, GatherSeconds, Advances, ValidSettings;
    StepAdvances(f, Spender(f, t0));
    var (g, command) := Step(f, Spender(f, t0));
    AdvancedIsCoherent(f, g, command);
    SomeGrace(f.settings);
    assert Expire(f, t0) == (f, None);
  }

  lemma SpendsOnAnEntry(f: Flow, t0: real)
    requires Unhurried(f, t0) && Budget(f) > 0 && Gathers(f.stage) && f.attempt >= f.settings.maxAttempts
    ensures var (g, command) := Step(f, Spender(f, t0));
            command.Some? && Unhurried(g, t0) && Budget(g) == Budget(f) - 1
  {
    hide GatherLength, GatherSeconds, Advances, ValidSettings;
    StepAdvances(f, Spender(f, t0));
    var (g, command) := Step(f, Spender(f, t0));
    AdvancedIsCoherent(f, g, command);
    SomeGrace(f.settings);
    assert Expire(f, t0) == (f, None);
    if f.stage == Menu { assert Expected(f) != "2"; }
  }

  lemma SpendsElsewhere(f: Flow, t0: real)
    requires Unhurried(f, t0) && Budget(f) > 0 && !Gathers(f.stage)
    ensures var (g, command) := Step(f, Spender(f, t0));
            command.Some? && Unhurried(g, t0) && Budget(g) == Budget(f) - 1
  {
    hide GatherLength, GatherSeconds, Advances, ValidSettings;
    StepAdvances(f, Spender(f, t0));
    var (g, command) := Step(f, Spender(f, t0));
    AdvancedIsCoherent(f, g, command);
    SomeGrace(f.settings);
    assert Expire(f, t0) == (f, None);
  }

  lemma SpendsExactlyOne(f: Flow, t0: real)
    requires Unhurried(f, t0) && Budget(f) > 0
    ensures var (g, command) := Step(f, Spender(f, t0));
            command.Some? && Unhurried(g, t0) && Budget(g) == Budget(f) - 1
  {
    hide Step, Spender, Budget, Unhurried, Coherent;
    if !Gathers(f.stage) { SpendsElsewhere(f, t0); }
    else if f.attempt < f.settings.maxAttempts { SpendsOnARetry(f, t0); }
    else { SpendsOnAnEntry(f, t0); }
  }

  lemma {:induction false} Spends(start: Flow, t0: real, n: nat) returns (inputs: seq<Input>)
    requires Unhurried(start, t0) && n <= Budget(start)
    ensures var (f, sent) := Run(start, inputs);
            Unhurried(f, t0) && |sent| == n && Budget(f) == Budget(start) - n
  {
    hide Step, Budget, Coherent;
    inputs := [];
    if n > 0 {
      var earlier := Spends(start, t0, n - 1);
      var (f, sent) := Run(start, earlier);
      SpendsExactlyOne(f, t0);
      inputs := earlier + [Spender(f, t0)];
      assert inputs[..|inputs| - 1] == earlier;
    }
  }

  /** Some call does issue all of its 5 * maxAttempts + 4 commands. */
  lemma TheBoundIsMet(settings: Settings, challenge: string, now: real)
    requires ValidSettings(settings) && FourDigits(challenge) && settings.scenario == Normal
    ensures var (start, answer) := NewCall(settings, challenge, now).value;
            exists inputs :: Coherent(start) && |Run(start, inputs).1| + 1 == 5 * settings.maxAttempts + 4
  {
    var (start, _) := NewCall(settings, challenge, now).value;
    var inputs := Spends(start, now, Budget(start));
    assert |Run(start, inputs).1| == 5 * settings.maxAttempts + 3;
  }

  // --------------------------------------------------------------------- termination

  predicate NoLaterThan(inputs: seq<Input>, limit: real) {
    forall i :: 0 <= i < |inputs| ==> inputs[i].now <= limit
  }

  lemma HangupIsFinal(f: Flow, input: Input)
    requires Coherent(f)
    ensures var (g, _) := Step(f, input);
            && (f.stage == Ended ==> g.stage == Ended)
            && (f.stage == HangingUp ==> g == f || g.stage == Ended)
            && (f.stage != HangingUp && g.stage == HangingUp ==> g.deadline == input.now + CLEANUP_SECONDS)
  {
    if f.stage == Ended || f.stage == HangingUp {
    } else {
      StampedByHangUp(f, input);
    }
  }

  lemma StampedByHangUp(f: Flow, input: Input)
    requires Coherent(f) && f.stage != HangingUp && f.stage != Ended
    ensures var (g, _) := Step(f, input); g.stage == HangingUp ==> g.deadline == input.now + CLEANUP_SECONDS
  {
    ExpireAdvances(f, input.now);
    hide GatherLength, GatherSeconds, Advances;
  }

  lemma {:induction false} HangupDeadline(start: Flow, inputs: seq<Input>, limit: real)
    requires Coherent(start)
    requires start.stage == HangingUp ==> start.deadline <= limit + CLEANUP_SECONDS
    requires !(start.stage == HangingUp || start.stage == Ended) ==> NoLaterThan(inputs, limit)
    ensures var (f, _) := Run(start, inputs);
            && f.callDeadline == start.callDeadline
            && (f.stage == HangingUp ==> f.deadline <= limit + CLEANUP_SECONDS)
            && (start.stage == HangingUp || start.stage == Ended ==> f.stage == HangingUp || f.stage == Ended)
  {
    hide Step, Coherent;
    if inputs != [] {
      var last := |inputs| - 1;
      HangupDeadline(start, inputs[..last], limit);
      HangupIsFinal(Run(start, inputs[..last]).0, inputs[last]);
      StepAdvances(Run(start, inputs[..last]).0, inputs[last]);
    }
  }

  /** Every call is over after a tick at its deadline and another 15 seconds later, whatever else happens. */
  lemma TwoTicksEndTheCall(start: Flow, before: seq<Input>, t1: real, between: seq<Input>, t2: real)
    requires Coherent(start) && start.stage == Answering
    requires t1 >= start.callDeadline && t2 >= t1 + CLEANUP_SECONDS && NoLaterThan(before, t1)
    ensures Run(start, before + [Tick(t1)] + between + [Tick(t2)]).0.stage == Ended
  {
    hide Coherent, Run;
    var (f, _) := Run(start, before);
    HangupDeadline(start, before, t1);
    RunEndsWith(start, before, Tick(t1));
    var (g, _) := Run(start, before + [Tick(t1)]);
    FirstTick(f, t1);
    HangupDeadline(g, between, t1);
    RunSplits(start, before + [Tick(t1)], between);
    RunEndsWith(start, before + [Tick(t1)] + between, Tick(t2));
  }

  lemma FirstTick(f: Flow, now: real)
    requires Coherent(f) && now >= f.callDeadline
    requires f.stage == HangingUp ==> f.deadline <= now + CLEANUP_SECONDS
    ensures var (g, _) := Step(f, Tick(now));
            g.stage == Ended || (g.stage == HangingUp && g.deadline <= now + CLEANUP_SECONDS)
  {
  }

  lemma RunEndsWith(start: Flow, inputs: seq<Input>, last: Input)
    requires Coherent(start)
    ensures Run(start, inputs + [last]).0 == Step(Run(start, inputs).0, last).0
  {
    hide Step;
    assert (inputs + [last])[..|inputs|] == inputs;
  }

  lemma {:induction false} RunSplits(start: Flow, inputs: seq<Input>, more: seq<Input>)
    requires Coherent(start)
    ensures Run(start, inputs + more).0 == Run(Run(start, inputs).0, more).0
  {
    hide Step;
    if more == [] {
      assert inputs + more == inputs;
    } else {
      var last := |more| - 1;
      RunSplits(start, inputs, more[..last]);
      RunEndsWith(start, inputs + more[..last], more[last]);
      assert inputs + more == inputs + more[..last] + [more[last]];
    }
  }

  // ---------------------------------------------------------- the machine, in place

  /** The call as the program holds it: fields that every transition updates in place. */
  class FixtureCall {
    const settings: Settings
    const callDeadline: real
    var challenge: string
    var stage: Stage
    var deadline: real
    var pending: Option<Command>
    var attempt: nat
    var outcome: Option<string>
    var answered: bool
    var nextId: nat

    function Value(): Flow
      reads this
    {
      Flow(settings, challenge, callDeadline, stage, deadline, pending, attempt, outcome, answered, nextId)
    }

    /** A call with a malformed challenge is never made. */
    constructor (settings: Settings, challenge: string, now: real)
      requires FourDigits(challenge)
      ensures (Value(), pending) == NewCall(settings, challenge, now).value
    {
      this.settings, this.challenge, callDeadline := settings, challenge, now + settings.callTimeout as real;
      attempt, outcome, answered := 1, None, false;
      stage, deadline, pending, nextId := Answering, now + 20.0, Some(Command(0, Answer)), 1;
    }

    method ReserveCommand(stage: Stage, action: Action, now: real, duration: real) returns (command: Option<Command>)
      modifies this
      ensures (Value(), command) == Reserve(old(Value()), stage, action, now, duration)
    {
      command := Some(Command(nextId, action));
      nextId := nextId + 1;
      this.stage, deadline, pending := stage, now + duration, command;
    }

    method GatherStage(stage: Stage, now: real, retry: bool) returns (command: Option<Command>)
      modifies this
      ensures (Value(), command) == StartGather(old(Value()), stage, now, retry)
    {
      attempt := if retry then attempt + 1 else 1;
      command := ReserveCommand(stage, Gather(stage, retry, GatherLength(stage)), now, GatherSeconds(settings));
    }

    method Disconnect(now: real) returns (command: Option<Command>)
      modifies this
      ensures (Value(), command) == HangUp(old(Value()), now)
    {
      if stage == HangingUp || stage == Ended { return None; }
      command := ReserveCommand(HangingUp, Hangup, now, CLEANUP_SECONDS);
    }

    method FailCall(reason: string, now: real, text: Announcement) returns (command: Option<Command>)
      modifies this
      ensures (Value(), command) == Fail(old(Value()), reason, now, text)
    {
      if stage == Ended || stage == HangingUp { return None; }
      outcome := Some(reason);
      if !answered || stage == FailureStage {
        command := Disconnect(now);
      } else {
        command := ReserveCommand(FailureStage, Speak(text), now, settings.speechGrace as real);
      }
    }

    method Finish(reason: string)
      modifies this
      ensures Value() == End(old(Value()), reason)
    {
      outcome, stage, pending, challenge := Some(reason), Ended, None, "";
    }

    method ExpireAt(now: real) returns (command: Option<Command>)
      modifies this
      ensures (Value(), command) == Expire(old(Value()), now)
    {
      if stage == Ended { return None; }
      if stage == HangingUp {
        if now >= deadline { Finish("hangup_unconfirmed"); }
        return None;
      }
      if now >= callDeadline {
        outcome := Some("call_timeout");
        command := Disconnect(now);
        return;
      }
      if now < deadline { return None; }
      if stage == ResultStage || stage == FailureStage {
        outcome := Some("speech_timeout");
        command := Disconnect(now);
        return;
      }
      command := FailCall("completion_timeout", now, Unavailable);
    }

    method Accept(now: real) returns (command: Option<Command>)
      requires Gathers(stage)
      modifies this
      ensures (Value(), command) == Accepted(old(Value()), now)
    {
      hide HangUp, Fail;
      var next := NextStage(stage);
      if next == Challenge {
        if settings.scenario == EarlyHangup {
          command := Disconnect(now);
          return;
        }
        if settings.scenario == SilentStage {
          stage, pending, deadline := Silent, None, callDeadline;
          return None;
        }
      }
      if next == Confirmation && settings.scenario == RejectedId {
        command := FailCall("input_rejected", now, NotVerified);
        return;
      }
      if next == ResultStage {
        attempt := 1;
        var text := if settings.scenario == UnsupportedResult then UnsupportedAmount else Amount;
        command := ReserveCommand(ResultStage, Speak(text), now, settings.speechGrace as real);
        return;
      }
      command := GatherStage(next, now, false);
    }

    method TakeDigits(payload: Payload, now: real) returns (command: Option<Command>)
      requires Gathers(stage)
      modifies this
      ensures (Value(), command) == Gathered(old(Value()), payload, now)
    {
      hide Fail, Accepted, StartGather;
      if payload.status !in {Valid, Invalid, Timeout} {
        command := FailCall("provider_failure", now, Unavailable);
        return;
      }
      if stage == Menu && payload.status == Valid && payload.digits == Some("2") {
        command := FailCall("unsupported_business", now, BusinessUnsupported);
        return;
      }
      if payload.status != Valid || payload.digits != Some(Expected(Value())) {
        if attempt < settings.maxAttempts {
          command := GatherStage(stage, now, true);
        } else {
          command := FailCall("input_rejected", now, NotVerified);
        }
        return;
      }
      command := Accept(now);
    }

    method HandleEvent(kind: EventType, payload: Payload, now: real) returns (command: Option<Command>)
      requires Coherent(Value())
      modifies this
      ensures (Value(), command) == Handle(old(Value()), kind, payload, now)
    {
      ExpireAdvances(Value(), now);
      hide Expire, Gathered, StartGather, HangUp, Advances, Coherent;
      if stage == Ended { return None; }
      if kind == CallHangup {
        Finish(if outcome.Some? then outcome.value else "remote_hangup");
        return None;
      }
      if pending.None? {
        command := ExpireAt(now);
        return;
      }
      if payload.client != Some(pending.value.id) { return None; }
      if (kind == GatherEnded || kind == SpeakEnded) && payload.status == Hungup {
        Finish(if outcome.Some? then outcome.value else "remote_hangup");
        return None;
      }
      command := ExpireAt(now);
      if command.Some? || stage == Ended { return; }
      if stage == Answering && kind == CallAnswered {
        answered := true;
        command := GatherStage(Welcome, now, false);
      } else if pending.value.action.Gather? && kind == GatherEnded {
        command := TakeDigits(payload, now);
      } else if (stage == ResultStage || stage == FailureStage) && kind == SpeakEnded {
        if stage == ResultStage {
          outcome := Some(if payload.status == Completed then "result_spoken" else "speech_failed");
        }
        command := Disconnect(now);
      }
    }

    method NoteCommandFailed(id: nat, now: real) returns (command: Option<Command>)
      modifies this
      ensures (Value(), command) == CommandFailed(old(Value()), id, now)
    {
      if pending.None? || pending.value.id != id { return None; }
      command := FailCall("command_failed", now, Unavailable);
    }
  }
}
