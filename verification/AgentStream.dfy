/**
 * The agent run as the generator it is: events are yielded one by one, every call may
 * raise, the consumer may go away at any yield and the provider call may be cancelled.
 * A schedule says what becomes of each of these; the theorems hold for every schedule.
 */
module AgentStream {
  import opened Prelude
  import opened WorkflowDomain
  import opened Tables
  import opened SuggestionService
  import opened Agent

  /** The calls of a run, in the order in which a run can reach them. */
  datatype Point =
    | ValidateInput | ReadWorkflow | ParseMessages | ReadLatest | ReadReady | EndRead | BuildCall | BuildFinished
    | HandlerRollback

  /** What a call raises: AgentValidationError, a database outage, another ValueError, or anything else. */
  datatype Exc = Validation | Database | Value | Unexpected

  datatype CallFate = Returns | Raises(exc: Exc)

  /** A yielded event reaches the consumer or not, and the generator is resumed or closed there. */
  datatype YieldFate = Taken | TakenThenClosed | Dropped

  /**
   * What becomes of each call, of the provider call, and of each yield: 0 is RUN_STARTED,
   * 1 to 3 the tool call, 4 RUN_FINISHED, 5 RUN_ERROR.
   */
  datatype Schedule = Schedule(calls: Point -> CallFate, choiceCancelled: bool, consumer: nat -> YieldFate)

  datatype Stop = AtCall(point: Point) | AtChoice | AtYield(n: nat)

  /** How the generator goes on: with the next statement, to a handler, or not at all. */
  datatype Signal = Going | Raising(fault: Fault) | Gone

  /** The events the consumer got and the stops the run came to, both in order. */
  datatype Stream = Stream(log: seq<AgentEvent>, reached: seq<Stop>, signal: Signal)

  const EMPTY := Stream([], [], Going)

  /** The handler an exception from this call ends in. */
  function Caught(point: Point, exc: Exc): Fault {
    match exc
    case Validation => InvalidRequest
    case Database => InvalidRequest
    case Value => if point == ReadWorkflow || point == ReadReady then InvalidRequest else AgentFailed
    case Unexpected => AgentFailed
  }

  function Visit(s: Stream, stop: Stop): Stream {
    s.(reached := s.reached + [stop])
  }

  function Call(s: Stream, schedule: Schedule, point: Point): Stream {
    if !s.signal.Going? then s
    else
      var t := Visit(s, AtCall(point));
      match schedule.calls(point)
      case Returns => t
      case Raises(exc) => t.(signal := Raising(Caught(point, exc)))
  }

  /** The run's own checks raise AgentValidationError. */
  function Refuse(s: Stream): Stream {
    if s.signal.Going? then s.(signal := Raising(InvalidRequest)) else s
  }

  function Yield(s: Stream, schedule: Schedule, n: nat, event: AgentEvent): Stream {
    if !s.signal.Going? then s
    else
      var t := Visit(s, AtYield(n));
      match schedule.consumer(n)
      case Taken => t.(log := t.log + [event])
      case TakenThenClosed => t.(log := t.log + [event], signal := Gone)
      case Dropped => t.(signal := Gone)
  }

  /** Awaiting the provider; whatever it raises comes out as AgentValidationError. */
  function Choose(s: Stream, schedule: Schedule, choice: Option<Field>): Stream {
    if !s.signal.Going? then s
    else
      var t := Visit(s, AtChoice);
      if schedule.choiceCancelled then t.(signal := Gone)
      else if choice.None? || choice.value.OutsideCatalog? then Refuse(t)
      else t
  }

  function Finishing(s: Stream, schedule: Schedule): Stream {
    Yield(Call(s, schedule, BuildFinished), schedule, 4, RunFinished)
  }

  /** A tool call is built as a whole and yielded in three events; the finish follows. */
  function Calling(s: Stream, schedule: Schedule, events: seq<AgentEvent>): Stream
    requires |events| == 3
  {
    var built := Call(s, schedule, BuildCall);
    var start := Yield(built, schedule, 1, events[0]);
    var arguments := Yield(start, schedule, 2, events[1]);
    Finishing(Yield(arguments, schedule, 3, events[2]), schedule)
  }

  function Review(s: Stream, schedule: Schedule, db: Db, owner: int, id: Uuid, revision: int,
                  messages: seq<Message>): Stream
  {
    var parsed := Call(s, schedule, ParseMessages);
    var history := ParseHistory(messages);
    if || !history.Reviewed? || history.acceptedRevision != revision || history.workflow != id
       || history.revision != revision - 1 || history.step != StepOf(id, CollectTasks) then Refuse(parsed)
    else
      var read := Call(Call(parsed, schedule, ReadLatest), schedule, EndRead);
      if ReviewAnswer(db, owner, id, revision, messages).Finish? then Finishing(read, schedule) else Refuse(read)
  }

  function Card(s: Stream, schedule: Schedule, db: Db, owner: int, run: string, id: Uuid, revision: int, step: StepId,
                request: Uuid): Stream
  {
    var looked := Call(s, schedule, ReadReady);
    if CurrentSuggestion(db, owner, id).Err? then Refuse(looked)
    else
      var read := Call(looked, schedule, EndRead);
      match CardAnswer(db, owner, run, id, revision, step, request)
      case Fail => Refuse(read)
      case Finish(events) => Calling(read, schedule, events)
  }

  function Collect(s: Stream, schedule: Schedule, db: Db, owner: int, input: RunInput, state: ClientState,
                   revision: int, choice: Option<Field>): Stream
  {
    if state.suggestion.Some? then
      Card(s, schedule, db, owner, input.run, input.workflow, revision, state.step, state.suggestion.value)
    else
      var parsed := Call(s, schedule, ParseMessages);
      match ParseHistory(input.messages)
      case Refusal => Refuse(parsed)
      case Reviewed(_, _, _, _, _, _) => Refuse(parsed)
      case Clarified(workflow, expected, step, request) =>
        if workflow != input.workflow || expected != revision || step != state.step then Refuse(parsed)
        else Card(parsed, schedule, db, owner, input.run, input.workflow, revision, state.step, request)
      case Fresh =>
        var chosen := Choose(Call(parsed, schedule, EndRead), schedule, choice);
        if choice.None? || choice.value.OutsideCatalog? then chosen
        else
          Calling(chosen, schedule,
                  ToolEvents(input.run, ClarifyPlan, ClarifyArgs(input.workflow, revision, state.step, choice.value)))
  }

  /** The guarded part of the generator. */
  function Body(s: Stream, schedule: Schedule, seen: Reads, owner: int, input: RunInput,
                choice: Option<Field>): Stream
  {
    var validated := Call(s, schedule, ValidateInput);
    if input.state.None? then Refuse(validated)
    else
      var found := Call(validated, schedule, ReadWorkflow);
      if !Owned(seen.workflow, owner, input.workflow) then Refuse(found)
      else
        var state, w := input.state.value, seen.workflow.workflows[input.workflow].snapshot;
        if w.definition != CURRENT_DEFINITION then Refuse(found)
        else if w.revision != state.revision || state.step != StepOf(input.workflow, w.state) then Refuse(found)
        else if w.state == WorkflowState.Review then
          Review(found, schedule, seen.suggestions, owner, input.workflow, w.revision, input.messages)
        else if w.state != CollectTasks then Refuse(found)
        else Collect(found, schedule, Lookup(seen), owner, input, state, w.revision, choice)
  }

  /** The handlers: roll back, which may raise in turn, and report the fault. */
  function Handle(s: Stream, schedule: Schedule): Stream {
    if !s.signal.Raising? then s
    else
      var t := Visit(s, AtCall(HandlerRollback));
      if schedule.calls(HandlerRollback).Raises? then t.(signal := Gone)
      else Yield(t.(signal := Going), schedule, 5, RunError(s.signal.fault))
  }

  function AgentEvents(schedule: Schedule, seen: Reads, owner: int, input: RunInput, choice: Option<Field>): Stream {
    var started := Yield(EMPTY, schedule, 0, RunStarted);
    if !started.signal.Going? then started
    else Handle(Body(started, schedule, seen, owner, input, choice), schedule)
  }

  // ------------------------------------------------------------- what is promised

  /** RUN_STARTED, at most one balanced tool call, and one terminal event. */
  ghost predicate Complete(log: seq<AgentEvent>) {
    && |log| >= 2 && log[0] == RunStarted && Terminates(log[|log| - 1]) && Balanced(log[1..|log| - 1])
  }

  /** What cuts a run off: a closed or refused yield, a cancelled provider call, a handler that raises. */
  predicate Cuts(schedule: Schedule, stop: Stop) {
    match stop
    case AtCall(point) => point == HandlerRollback && schedule.calls(point).Raises?
    case AtChoice => schedule.choiceCancelled
    case AtYield(n) => schedule.consumer(n) == Dropped || (n < 4 && schedule.consumer(n) == TakenThenClosed)
  }

  ghost predicate Uncut(schedule: Schedule, reached: seq<Stop>) {
    forall i :: 0 <= i < |reached| ==> !Cuts(schedule, reached[i])
  }

  /** None of the calls that were made raised. */
  ghost predicate Smooth(schedule: Schedule, reached: seq<Stop>) {
    forall i :: 0 <= i < |reached| && reached[i].AtCall? ==> schedule.calls(reached[i].point).Returns?
  }

  // ------------------------------------------------------------- how a run proceeds

  /** Not cut off, with `log` emitted; an exception on its way out was raised by a call or by a failing answer. */
  ghost predicate Open(s: Stream, schedule: Schedule, log: seq<AgentEvent>, answer: Answer) {
    && s.log == log && !s.signal.Gone? && Uncut(schedule, s.reached)
    && (s.signal.Going? ==> Smooth(schedule, s.reached))
    && (s.signal.Raising? ==> !Smooth(schedule, s.reached) || answer == Fail)
    && (s.signal.Raising? && Smooth(schedule, s.reached) ==> s.signal.fault == InvalidRequest)
  }

  /** Cut off somewhere inside `log`. */
  ghost predicate Lost(s: Stream, schedule: Schedule, log: seq<AgentEvent>) {
    s.log <= log && s.signal.Gone? && !Uncut(schedule, s.reached)
  }

  /** The end of the guarded part: finished as answered, an exception between two whole parts, or cut off. */
  ghost predicate Settled(s: Stream, schedule: Schedule, events: seq<AgentEvent>, answer: Answer) {
    || (answer == Finish(events) && s.log == [RunStarted] + events + [RunFinished] && !s.signal.Raising?
        && Uncut(schedule, s.reached) && Smooth(schedule, s.reached))
    || (s.signal.Raising?
        && (Open(s, schedule, [RunStarted], answer) || Open(s, schedule, [RunStarted] + events, answer)))
    || Lost(s, schedule, [RunStarted] + events)
  }

  lemma CallOpen(s: Stream, schedule: Schedule, point: Point, log: seq<AgentEvent>, answer: Answer)
    requires Open(s, schedule, log, answer) && point != HandlerRollback
    ensures Open(Call(s, schedule, point), schedule, log, answer)
  {
    var t := Call(s, schedule, point);
    if t != s {
      assert t.reached[|s.reached|] == AtCall(point);
      assert forall i :: 0 <= i < |s.reached| ==> t.reached[i] == s.reached[i];
    }
  }

  lemma YieldOpen(s: Stream, schedule: Schedule, n: nat, event: AgentEvent, log: seq<AgentEvent>, answer: Answer)
    requires Open(s, schedule, log, answer) && n < 4
    ensures var t := Yield(s, schedule, n, event);
            || (t == s && s.signal.Raising?)
            || (t.signal.Going? && Open(t, schedule, log + [event], answer))
            || Lost(t, schedule, log + [event])
  {
    var t := Yield(s, schedule, n, event);
    if t != s {
      assert t.reached[|s.reached|] == AtYield(n);
      assert forall i :: 0 <= i < |s.reached| ==> t.reached[i] == s.reached[i];
    }
  }

  lemma FinishingSettles(s: Stream, schedule: Schedule, events: seq<AgentEvent>)
    requires (s.signal.Going? && Open(s, schedule, [RunStarted] + events, Finish(events)))
          || (!s.signal.Going? && Settled(s, schedule, events, Finish(events)))
    ensures Settled(Finishing(s, schedule), schedule, events, Finish(events))
  {
    if s.signal.Going? {
      var log := [RunStarted] + events;
      CallOpen(s, schedule, BuildFinished, log, Finish(events));
      var t := Call(s, schedule, BuildFinished);
      if t.signal.Going? {
        var u := Yield(t, schedule, 4, RunFinished);
        assert u.reached[|t.reached|] == AtYield(4);
        assert forall i :: 0 <= i < |t.reached| ==> u.reached[i] == t.reached[i];
      }
    }
  }

  function ToolCallYields(s: Stream, schedule: Schedule, events: seq<AgentEvent>): Stream
    requires |events| == 3
  {
    Yield(Yield(Yield(s, schedule, 1, events[0]), schedule, 2, events[1]), schedule, 3, events[2])
  }

  lemma LostLonger(s: Stream, schedule: Schedule, log: seq<AgentEvent>, more: seq<AgentEvent>)
    requires Lost(s, schedule, log)
    ensures Lost(s, schedule, log + more)
  {
    assert log <= log + more;
  }

  lemma ToolCallSettles(s: Stream, schedule: Schedule, events: seq<AgentEvent>)
    requires |events| == 3 && Open(s, schedule, [RunStarted], Finish(events))
    ensures var t := ToolCallYields(s, schedule, events);
            if t.signal.Going? then Open(t, schedule, [RunStarted] + events, Finish(events))
            else Settled(t, schedule, events, Finish(events))
  {
    var answer, e0, e1, e2 := Finish(events), [events[0]], [events[1]], [events[2]];
    assert [RunStarted] + events == [RunStarted] + e0 + e1 + e2 == [RunStarted] + e0 + (e1 + e2);
    hide Open, Lost, Yield;
    YieldOpen(s, schedule, 1, events[0], [RunStarted], answer);
    var s1 := Yield(s, schedule, 1, events[0]);
    OnlyGoingYields(s1, schedule, 2, events[1]);
    var s2 := Yield(s1, schedule, 2, events[1]);
    OnlyGoingYields(s2, schedule, 3, events[2]);
    if s1.signal.Going? {
      YieldOpen(s1, schedule, 2, events[1], [RunStarted] + e0, answer);
      if s2.signal.Going? {
        YieldOpen(s2, schedule, 3, events[2], [RunStarted] + e0 + e1, answer);
        OpenOrLost(Yield(s2, schedule, 3, events[2]), schedule, [RunStarted] + events, answer);
      } else {
        OpenOrLost(s2, schedule, [RunStarted] + e0 + e1, answer);
        LostLonger(s2, schedule, [RunStarted] + e0 + e1, e2);
      }
    } else if s1 != s {
      OpenOrLost(s1, schedule, [RunStarted] + e0, answer);
      LostLonger(s1, schedule, [RunStarted] + e0, e1 + e2);
    }
  }

  lemma OnlyGoingYields(s: Stream, schedule: Schedule, n: nat, event: AgentEvent)
    ensures !s.signal.Going? ==> Yield(s, schedule, n, event) == s
  {
  }

  lemma OpenOrLost(s: Stream, schedule: Schedule, log: seq<AgentEvent>, answer: Answer)
    ensures Open(s, schedule, log, answer) ==> !s.signal.Gone?
    ensures Lost(s, schedule, log) ==> s.signal.Gone?
  {
  }

  lemma CallingSettles(s: Stream, schedule: Schedule, events: seq<AgentEvent>)
    requires |events| == 3 && Open(s, schedule, [RunStarted], Finish(events))
    ensures Settled(Calling(s, schedule, events), schedule, events, Finish(events))
  {
    var built := Call(s, schedule, BuildCall);
    CallOpen(s, schedule, BuildCall, [RunStarted], Finish(events));
    ToolCallSettles(built, schedule, events);
    FinishingSettles(ToolCallYields(built, schedule, events), schedule, events);
  }

  lemma RefusedSettles(s: Stream, schedule: Schedule, events: seq<AgentEvent>)
    requires Open(s, schedule, [RunStarted], Fail)
    ensures Settled(Refuse(s), schedule, events, Fail)
  {
  }

  /** A card is refused or shown; either way the guarded part ends settled. */
  lemma CardSettles(s: Stream, schedule: Schedule, db: Db, owner: int, run: string, id: Uuid, revision: int,
                    step: StepId, request: Uuid)
    returns (events: seq<AgentEvent>)
    requires Open(s, schedule, [RunStarted], CardAnswer(db, owner, run, id, revision, step, request))
    ensures Balanced(events) && (CardAnswer(db, owner, run, id, revision, step, request) == Fail ==> events == [])
    ensures Settled(Card(s, schedule, db, owner, run, id, revision, step, request), schedule, events,
                    CardAnswer(db, owner, run, id, revision, step, request))
  {
    hide Open, Settled, CurrentSuggestion, Calling;
    var answer := CardAnswer(db, owner, run, id, revision, step, request);
    events := if answer.Finish? then answer.events else [];
    CallOpen(s, schedule, ReadReady, [RunStarted], answer);
    var looked := Call(s, schedule, ReadReady);
    CallOpen(looked, schedule, EndRead, [RunStarted], answer);
    if CurrentSuggestion(db, owner, id).Err? {
      RefusedSettles(looked, schedule, events);
    } else if answer.Finish? {
      CallingSettles(Call(looked, schedule, EndRead), schedule, events);
    } else {
      RefusedSettles(Call(looked, schedule, EndRead), schedule, events);
    }
  }

  lemma ReviewSettles(s: Stream, schedule: Schedule, db: Db, owner: int, id: Uuid, revision: int,
                      messages: seq<Message>)
    requires Open(s, schedule, [RunStarted], ReviewAnswer(db, owner, id, revision, messages))
    ensures Settled(Review(s, schedule, db, owner, id, revision, messages), schedule, [],
                    ReviewAnswer(db, owner, id, revision, messages))
  {
    hide Open, Settled, ParseHistory, LatestSnapshot, Finishing;
    var answer := ReviewAnswer(db, owner, id, revision, messages);
    CallOpen(s, schedule, ParseMessages, [RunStarted], answer);
    var parsed := Call(s, schedule, ParseMessages);
    CallOpen(parsed, schedule, ReadLatest, [RunStarted], answer);
    var read := Call(parsed, schedule, ReadLatest);
    CallOpen(read, schedule, EndRead, [RunStarted], answer);
    var ended := Call(read, schedule, EndRead);
    if answer.Finish? {
      OpenSettles(ended, schedule);
      FinishingSettles(ended, schedule, []);
    } else {
      RefusedSettles(parsed, schedule, []);
      RefusedSettles(ended, schedule, []);
    }
  }

  lemma OpenSettles(s: Stream, schedule: Schedule)
    requires Open(s, schedule, [RunStarted], Finish([]))
    ensures if s.signal.Going? then Open(s, schedule, [RunStarted] + [], Finish([]))
            else Settled(s, schedule, [], Finish([]))
  {
    assert [RunStarted] + [] == [RunStarted];
  }

  lemma ChooseOpen(s: Stream, schedule: Schedule, choice: Option<Field>, answer: Answer)
    requires Open(s, schedule, [RunStarted], answer)
    requires choice.None? || choice.value.OutsideCatalog? ==> answer == Fail
    ensures var t := Choose(s, schedule, choice);
            Open(t, schedule, [RunStarted], answer) || Lost(t, schedule, [RunStarted])
    ensures answer == Fail && (choice.None? || choice.value.OutsideCatalog?) ==>
        !Choose(s, schedule, choice).signal.Going?
  {
    var t := Choose(s, schedule, choice);
    if s.signal.Going? {
      assert t.reached[|s.reached|] == AtChoice;
      assert forall i :: 0 <= i < |s.reached| ==> t.reached[i] == s.reached[i];
    }
  }

  lemma FreshSettles(s: Stream, schedule: Schedule, input: RunInput, revision: int, step: StepId, choice: Option<Field>)
    returns (events: seq<AgentEvent>)
    requires Open(s, schedule, [RunStarted],
                  if choice.None? || choice.value.OutsideCatalog? then Fail
                  else Finish(ToolEvents(input.run, ClarifyPlan,
                                         ClarifyArgs(input.workflow, revision, step, choice.value))))
    ensures Balanced(events)
    ensures
      var chosen := Choose(s, schedule, choice);
      if choice.None? || choice.value.OutsideCatalog? then events == [] && Settled(chosen, schedule, events, Fail)
      else
        && events == ToolEvents(input.run, ClarifyPlan, ClarifyArgs(input.workflow, revision, step, choice.value))
        && Settled(Calling(chosen, schedule, events), schedule, events, Finish(events))
  {
    var none := choice.None? || choice.value.OutsideCatalog?;
    events := if none then []
      else ToolEvents(input.run, ClarifyPlan, ClarifyArgs(input.workflow, revision, step, choice.value));
    var answer := if none then Fail else Finish(events);
    ChooseOpen(s, schedule, choice, answer);
    var chosen := Choose(s, schedule, choice);
    if !none {
      if Lost(chosen, schedule, [RunStarted]) {
        LostLonger(chosen, schedule, [RunStarted], events);
        GoneStays(chosen, schedule, events);
      } else {
        CallingSettles(chosen, schedule, events);
      }
    } else {
      assert [RunStarted] + [] == [RunStarted];
    }
  }

  lemma GoneStays(s: Stream, schedule: Schedule, events: seq<AgentEvent>)
    requires !s.signal.Going? && |events| == 3
    ensures Calling(s, schedule, events) == s
  {
  }

  lemma CollectSettles(s: Stream, schedule: Schedule, db: Db, owner: int, input: RunInput, state: ClientState,
                       revision: int, choice: Option<Field>)
    returns (events: seq<AgentEvent>)
    requires Open(s, schedule, [RunStarted], CollectAnswer(db, owner, input, state, revision, choice))
    ensures Balanced(events) && (CollectAnswer(db, owner, input, state, revision, choice) == Fail ==> events == [])
    ensures Settled(Collect(s, schedule, db, owner, input, state, revision, choice), schedule, events,
                    CollectAnswer(db, owner, input, state, revision, choice))
  {
    hide Open, Settled, ParseHistory, Card, CardAnswer, Calling, Choose, Balanced;
    var answer := CollectAnswer(db, owner, input, state, revision, choice);
    if state.suggestion.Some? {
      events := CardSettles(s, schedule, db, owner, input.run, input.workflow, revision, state.step,
                            state.suggestion.value);
    } else {
      CallOpen(s, schedule, ParseMessages, [RunStarted], answer);
      var parsed := Call(s, schedule, ParseMessages);
      NothingIsBalanced();
      events := [];
      match ParseHistory(input.messages) {
        case Refusal => RefusedSettles(parsed, schedule, events);
        case Reviewed(_, _, _, _, _, _) => RefusedSettles(parsed, schedule, events);
        case Clarified(workflow, expected, step, request) =>
          if workflow != input.workflow || expected != revision || step != state.step {
            RefusedSettles(parsed, schedule, events);
          } else {
            events := CardSettles(parsed, schedule, db, owner, input.run, input.workflow, revision, state.step,
                                  request);
          }
        case Fresh =>
          CallOpen(parsed, schedule, EndRead, [RunStarted], answer);
          events := FreshSettles(Call(parsed, schedule, EndRead), schedule, input, revision, state.step, choice);
      }
    }
  }

  lemma NothingIsBalanced()
    ensures Balanced([])
  {
  }

  lemma BodySettles(s: Stream, schedule: Schedule, seen: Reads, owner: int, input: RunInput, choice: Option<Field>)
    returns (events: seq<AgentEvent>)
    requires Open(s, schedule, [RunStarted], AgentAnswer(seen, owner, input, choice))
    ensures Balanced(events) && (AgentAnswer(seen, owner, input, choice) == Fail ==> events == [])
    ensures Settled(Body(s, schedule, seen, owner, input, choice), schedule, events,
                    AgentAnswer(seen, owner, input, choice))
  {
    hide Open, Settled, Balanced, Review, ReviewAnswer, Collect, CollectAnswer, Lookup;
    var answer := AgentAnswer(seen, owner, input, choice);
    NothingIsBalanced();
    events := [];
    CallOpen(s, schedule, ValidateInput, [RunStarted], answer);
    var validated := Call(s, schedule, ValidateInput);
    CallOpen(validated, schedule, ReadWorkflow, [RunStarted], answer);
    var found := Call(validated, schedule, ReadWorkflow);
    if input.state.None? {
      RefusedSettles(validated, schedule, events);
    } else if !Owned(seen.workflow, owner, input.workflow) {
      RefusedSettles(found, schedule, events);
    } else {
      var state, w := input.state.value, seen.workflow.workflows[input.workflow].snapshot;
      var current := w.definition == CURRENT_DEFINITION && w.revision == state.revision
                     && state.step == StepOf(input.workflow, w.state);
      if current && w.state == WorkflowState.Review {
        ReviewSettles(found, schedule, seen.suggestions, owner, input.workflow, w.revision, input.messages);
      } else if current && w.state == CollectTasks {
        events := CollectSettles(found, schedule, Lookup(seen), owner, input, state, w.revision, choice);
      } else {
        RefusedSettles(found, schedule, events);
      }
    }
  }

  // --------------------------------------------------------------------- the theorems

  /** A log of a run so far: part of a complete one. */
  ghost predicate Prefix(log: seq<AgentEvent>) {
    exists whole :: Complete(whole) && log <= whole
  }

  /** In a complete log the terminal event is the last one and the only one. */
  lemma OneTerminal(log: seq<AgentEvent>)
    requires Complete(log)
    ensures forall i :: 0 <= i < |log| ==> (Terminates(log[i]) <==> i == |log| - 1)
  {
    forall i | 0 < i < |log| - 1 ensures !Terminates(log[i]) {
      assert log[i] == log[1..|log| - 1][i - 1];
    }
  }

  lemma WholeIsComplete(events: seq<AgentEvent>, last: AgentEvent)
    requires Balanced(events) && Terminates(last)
    ensures Complete([RunStarted] + events + [last])
  {
    assert ([RunStarted] + events + [last])[1..|events| + 1] == events;
  }

  /** A balanced call without its terminal event is a prefix and not complete. */
  lemma PartIsPrefix(log: seq<AgentEvent>, events: seq<AgentEvent>)
    requires Balanced(events) && log <= [RunStarted] + events
    ensures Prefix(log) && !Complete(log)
  {
    WholeIsComplete(events, RunFinished);
    assert log <= [RunStarted] + events + [RunFinished];
    assert forall k :: 0 < k < |log| ==> log[k] == events[k - 1];
  }

  /** What a settled body leads to once the handlers are through with it. */
  ghost predicate Concluded(s: Stream, schedule: Schedule, answer: Answer) {
    && Prefix(s.log)
    && (Complete(s.log) <==> Uncut(schedule, s.reached))
    && (Complete(s.log) ==>
          if Smooth(schedule, s.reached) then s.log == Quiet(answer) else s.log[|s.log| - 1].RunError?)
  }

  lemma RaisedConcludes(s: Stream, schedule: Schedule, part: seq<AgentEvent>, answer: Answer)
    requires Balanced(part) && (answer == Fail ==> part == [])
    requires s.signal.Raising? && Open(s, schedule, [RunStarted] + part, answer)
    ensures Concluded(Handle(s, schedule), schedule, answer)
  {
    var t := Handle(s, schedule);
    var event := RunError(s.signal.fault);
    assert t.reached[|s.reached|] == AtCall(HandlerRollback);
    assert forall i :: 0 <= i < |s.reached| ==> t.reached[i] == s.reached[i];
    PartIsPrefix(s.log, part);
    WholeIsComplete(part, event);
    if schedule.calls(HandlerRollback).Returns? {
      assert t.reached[|s.reached| + 1] == AtYield(5);
      if t.log != s.log { assert t.log <= [RunStarted] + part + [event]; }
      RaisedIsRough(s, t, schedule, part, answer);
    }
    hide Complete, Balanced;
  }

  lemma RaisedIsRough(s: Stream, t: Stream, schedule: Schedule, part: seq<AgentEvent>, answer: Answer)
    requires s.signal.Raising? && Open(s, schedule, [RunStarted] + part, answer) && s.reached <= t.reached
    requires answer == Fail ==> part == []
    ensures Smooth(schedule, t.reached) ==> [RunStarted] + part + [RunError(s.signal.fault)] == Quiet(answer)
  {
    if Smooth(schedule, t.reached) {
      assert forall i :: 0 <= i < |s.reached| ==> s.reached[i] == t.reached[i];
      assert Smooth(schedule, s.reached);
    }
  }

  lemma SettledConcludes(s: Stream, schedule: Schedule, events: seq<AgentEvent>, answer: Answer)
    requires Balanced(events) && (answer == Fail ==> events == []) && Settled(s, schedule, events, answer)
    ensures Concluded(Handle(s, schedule), schedule, answer)
  {
    if s.signal.Raising? {
      assert [RunStarted] + [] == [RunStarted];
      if Open(s, schedule, [RunStarted], answer) {
        RaisedConcludes(s, schedule, [], answer);
      } else {
        RaisedConcludes(s, schedule, events, answer);
      }
    } else {
      WholeIsComplete(events, RunFinished);
      if s.log <= [RunStarted] + events { PartIsPrefix(s.log, events); }
      hide Complete, Balanced;
    }
  }

  lemma StartedOpens(schedule: Schedule, answer: Answer)
    ensures var s := Yield(EMPTY, schedule, 0, RunStarted);
            if s.signal.Going? then Open(s, schedule, [RunStarted], answer)
            else Concluded(s, schedule, answer)
  {
    var s := Yield(EMPTY, schedule, 0, RunStarted);
    assert s.reached == [AtYield(0)] && s.reached[0] == AtYield(0);
    if s.signal.Gone? {
      NothingIsBalanced();
      PartIsPrefix(s.log, []);
      hide Complete;
    }
  }

  /**
   * Every run, under every schedule of raised calls, cancellations and closed yields:
   * what was emitted is part of a complete log; it is complete if and only if nothing cut
   * the run off and no handler raised; and a complete run emits exactly its answer if no
   * call raised, and otherwise ends in an error.
   */
  lemma EveryRunIsWellFormed(schedule: Schedule, seen: Reads, owner: int, input: RunInput, choice: Option<Field>)
    ensures
      var s := AgentEvents(schedule, seen, owner, input, choice);
      && Prefix(s.log)
      && (Complete(s.log) <==> Uncut(schedule, s.reached))
      && (Complete(s.log) ==>
            if Smooth(schedule, s.reached) then s.log == QuietRun(seen, owner, input, choice)
            else s.log[|s.log| - 1].RunError?)
  {
    hide Body, Handle, AgentAnswer, Open, Settled, Prefix, Complete, Uncut, Smooth, Balanced;
    var answer := AgentAnswer(seen, owner, input, choice);
    StartedOpens(schedule, answer);
    var started := Yield(EMPTY, schedule, 0, RunStarted);
    if started.signal.Going? {
      var events := BodySettles(started, schedule, seen, owner, input, choice);
      SettledConcludes(Body(started, schedule, seen, owner, input, choice), schedule, events, answer);
    }
  }

  /** Whatever moment a run is looked at, a terminal event is the last one so far and the only one. */
  lemma TerminalIsLast(schedule: Schedule, seen: Reads, owner: int, input: RunInput, choice: Option<Field>, i: nat)
    requires i < |AgentEvents(schedule, seen, owner, input, choice).log|
    requires Terminates(AgentEvents(schedule, seen, owner, input, choice).log[i])
    ensures i == |AgentEvents(schedule, seen, owner, input, choice).log| - 1
    ensures Complete(AgentEvents(schedule, seen, owner, input, choice).log)
  {
    hide AgentEvents, QuietRun, Uncut, Smooth;
    EveryRunIsWellFormed(schedule, seen, owner, input, choice);
    var log := AgentEvents(schedule, seen, owner, input, choice).log;
    var whole :| Complete(whole) && log <= whole;
    assert log[i] == whole[i];
    OneTerminal(whole);
    hide Complete;
    assert i == |whole| - 1;
    assert log == whole;
  }

  // ------------------------------------------------------- the two ways to end early

  /** Everything returns and is taken, except as `calls` and `consumer` say. */
  function Mostly(calls: map<Point, Exc>, consumer: map<nat, YieldFate>): Schedule {
    Schedule(p => if p in calls then Raises(calls[p]) else Returns, false,
             n => if n in consumer then consumer[n] else Taken)
  }

  /** A database outage that also strikes the handler's rollback: the stream just ends after RUN_STARTED. */
  lemma FailingRollbackEndsSilently(seen: Reads, owner: int, input: RunInput, choice: Option<Field>)
    requires input.state.Some?
    ensures
      var outage := Mostly(map[ReadWorkflow := Database, HandlerRollback := Database], map[]);
      var s := AgentEvents(outage, seen, owner, input, choice);
      s.log == [RunStarted] && !Complete(s.log)
  {
    var outage := Mostly(map[ReadWorkflow := Database, HandlerRollback := Database], map[]);
    hide Review, Collect;
    var started := Yield(EMPTY, outage, 0, RunStarted);
    assert started.log == [RunStarted] && started.signal.Going?;
    var found := Call(Call(started, outage, ValidateInput), outage, ReadWorkflow);
    assert found.log == [RunStarted] && found.signal == Raising(InvalidRequest);
    RaisedBody(outage, seen, owner, input, choice, started);
  }

  lemma RaisedBody(schedule: Schedule, seen: Reads, owner: int, input: RunInput, choice: Option<Field>, s: Stream)
    requires input.state.Some?
    requires Call(Call(s, schedule, ValidateInput), schedule, ReadWorkflow).signal.Raising?
    ensures Body(s, schedule, seen, owner, input, choice) ==
        Call(Call(s, schedule, ValidateInput), schedule, ReadWorkflow)
  {
    hide ParseHistory, ReviewAnswer, CardAnswer, CurrentSuggestion;
  }

  /** A collecting workflow without messages or suggestions. */
  function Collecting(owner: int, id: Uuid): Db {
    var s := Snapshot(id, CollectTasks, [65], Some(true), [], None, 2, CURRENT_DEFINITION);
    EmptyDb.(workflows := map[id := WorkflowRow(owner, s)])
  }

  /** A consumer that goes away inside a tool call: the call is left open and the run has no terminal event. */
  lemma DisconnectLeavesHalfACall(owner: int, id: Uuid)
    ensures
      var db := Collecting(owner, id);
      var input := RunInput("r", id, Some(ClientState(2, StepOf(id, CollectTasks), None)), []);
      var s := AgentEvents(Mostly(map[], map[2 := TakenThenClosed]), Reads(db, db, db), owner, input, Some(Date));
      && |s.log| == 3 && s.log[1].ToolStart? && s.log[2].ToolArgs?
      && !Complete(s.log) && forall i :: 0 <= i < |s.log| ==> !Terminates(s.log[i])
  {
    hide ParseHistory, CurrentSuggestion, CardAnswer, ReviewAnswer, LatestSnapshot, Complete;
    NoHistory();
    var db := Collecting(owner, id);
    var input := RunInput("r", id, Some(ClientState(2, StepOf(id, CollectTasks), None)), []);
    var s := AgentEvents(Mostly(map[], map[2 := TakenThenClosed]), Reads(db, db, db), owner, input, Some(Date));
    assert |s.log| == 3;
    ThreeAreIncomplete(s.log);
  }

  lemma NoHistory()
    ensures ParseHistory([]) == History.Fresh
  {
    assert CallIds([]) == [];
  }

  lemma ThreeAreIncomplete(log: seq<AgentEvent>)
    requires |log| == 3 && !Terminates(log[2])
    ensures !Complete(log)
  {
  }
}
