/**
 * What an agent run answers, in terms of the messages it is given and the rows it reads, and
 * what it has done by the time it asks the provider, shows something or reports a fault.
 */
module AgentDecisions {
  import opened Prelude
  import opened Titles
  import opened WorkflowDomain
  import opened Tables
  import opened SuggestionService
  import opened SuggestionInvariant
  import opened SuggestionTheorems
  import opened Agent
  import opened AgentStream

  // ------------------------------------------------------------------ the messages

  /** The messages hold no tool result, and no call id twice. */
  ghost predicate NothingAnswered(messages: seq<Message>) {
    !HasRepeats(CallIds(messages)) && forall k :: 0 <= k < |messages| ==> !messages[k].ToolResult?
  }

  /** The k-th message is the last tool result, and with the message before it the answer to a question. */
  ghost predicate ClarifiesAt(messages: seq<Message>, k: nat, id: Uuid, revision: int, step: StepId, request: Uuid) {
    && 1 <= k < |messages|
    && messages[k].ToolResult? && messages[k].content == ClarifyResult(request)
    && (forall j :: k < j < |messages| ==> !messages[j].ToolResult?)
    && messages[k - 1].Assistant? && |messages[k - 1].calls| == 1
    && var call := messages[k - 1].calls[0];
    && call.id == messages[k].callId && call.tool == ClarifyPlan && call.arguments.ClarifyArgs?
    && call.arguments == ClarifyArgs(id, revision, step, call.arguments.field) && !call.arguments.field.OutsideCatalog?
  }

  /** The agent's question and the client's answer to it come last, whatever else the messages hold. */
  ghost predicate Clarifies(messages: seq<Message>, id: Uuid, revision: int, step: StepId, request: Uuid) {
    && !HasRepeats(CallIds(messages))
    && exists k: nat :: ClarifiesAt(messages, k, id, revision, step, request)
  }

  /** Messages are read as the answer to a question exactly when they are one. */
  lemma ClarificationIsParsed(messages: seq<Message>, id: Uuid, revision: int, step: StepId, request: Uuid)
    ensures ParseHistory(messages) == Clarified(id, revision, step, request)
       <==> Clarifies(messages, id, revision, step, request)
  {
    hide CallIds, HasRepeats, SubmittedTitles;
    if Clarifies(messages, id, revision, step, request) {
      var k: nat :| ClarifiesAt(messages, k, id, revision, step, request);
      assert LastTool(messages) == Some(k);
    }
    if ParseHistory(messages) == Clarified(id, revision, step, request) {
      assert ClarifiesAt(messages, LastTool(messages).value, id, revision, step, request);
    }
  }

  lemma FreshIff(messages: seq<Message>)
    ensures ParseHistory(messages) == Fresh <==> NothingAnswered(messages)
  {
    hide CallIds, HasRepeats, SubmittedTitles;
  }

  /** The suggestion the client asks to see: the one it names, or else the one its last answer led to. */
  ghost predicate Wants(input: RunInput, revision: int, request: Uuid) {
    && input.state.Some?
    && (|| input.state.value.suggestion == Some(request)
        || (input.state.value.suggestion.None?
            && Clarifies(input.messages, input.workflow, revision, StepOf(input.workflow, CollectTasks), request)))
  }

  // --------------------------------------------------------------------- the answer

  /** The workflow was read in this state, and the client knows it. */
  predicate Stands(seen: Reads, owner: int, input: RunInput, state: WorkflowState) {
    && input.state.Some? && Owned(seen.workflow, owner, input.workflow)
    && var s := seen.workflow.workflows[input.workflow].snapshot;
    && s.state == state && input.state.value.revision == s.revision
    && input.state.value.step == StepOf(input.workflow, state)
  }

  const REFUSED: seq<AgentEvent> := [RunStarted, RunError(InvalidRequest)]

  /** Everywhere but where tasks are collected or reviewed, at the step the client knows, a run is refused. */
  lemma OnlyTheseStepsAnswer(seen: Reads, owner: int, input: RunInput, choice: Option<Field>)
    requires !Stands(seen, owner, input, CollectTasks) && !Stands(seen, owner, input, WorkflowState.Review)
    ensures QuietRun(seen, owner, input, choice) == REFUSED
  {
    hide ParseHistory, CollectAnswer, ReviewAnswer;
  }

  /**
   * In review, a run acknowledges the card whose answer comes last in the messages if that
   * card shows the latest suggestion, ready and based on the revision before; else it is refused.
   */
  lemma ReviewRun(seen: Reads, owner: int, input: RunInput, choice: Option<Field>)
    requires SuggestionInv(seen.suggestions) && WorkflowsCoherent(seen.workflow)
    requires Stands(seen, owner, input, WorkflowState.Review)
    ensures
      var id, revision := input.workflow, input.state.value.revision;
      var rows := seen.suggestions.suggestions;
      var latest := Latest(rows, owner, id);
      QuietRun(seen, owner, input, choice) ==
        if && latest.Some?
           && rows[latest.value].status == Ready && rows[latest.value].baseRevision == revision - 1
           && AnswersCard(input.messages, id, revision - 1, rows[latest.value].request, rows[latest.value].titles,
                          revision)
        then [RunStarted, RunFinished] else REFUSED
  {
    hide SuggestionInv, ParseHistory, AnswersCard, Coherent, SnapshotOfRow, Latest, CollectAnswer;
    var id, revision := input.workflow, input.state.value.revision;
    var db := seen.suggestions;
    var latest := Latest(db.suggestions, owner, id);
    CoherentIsCurrent(seen.workflow.workflows[id].snapshot);
    ReviewsAreSilent(db, owner, id, revision, input.messages);
    if latest.Some? {
      var row := db.suggestions[latest.value];
      LatestIsRead(db, owner, id);
      CardIsParsed(input.messages, id, revision - 1, row.request, row.titles, revision);
    }
  }

  lemma LatestIsRead(db: Db, owner: int, id: Uuid)
    requires SuggestionInv(db) && Latest(db.suggestions, owner, id).Some?
    ensures
      var row := db.suggestions[Latest(db.suggestions, owner, id).value];
      && LatestSnapshot(db, owner, id) == SnapshotOfRow(row) == Some(AsRead(row))
      && row.step == StepOf(id, CollectTasks) && row.workflow == id
  {
    hide SuggestionInv, SnapshotOfRow, ProgressOk, InputsOk, Latest;
    var i := Latest(db.suggestions, owner, id).value;
    InvOfRow(db, i);
    RowsAreStorable(db, db.suggestions[i]);
    StepOfRow(db, db.suggestions[i]);
  }

  lemma StepOfRow(db: Db, row: SuggestionRow)
    requires InputsOk(db, row)
    ensures row.step == StepOf(row.workflow, CollectTasks)
  {
  }

  /** The suggestion is the latest one, ready, and still where the workflow stands when looked up. */
  predicate OnShow(seen: Reads, owner: int, id: Uuid, revision: int, request: Uuid) {
    && Owned(seen.again, owner, id)
    && seen.again.workflows[id].snapshot.state == CollectTasks
    && seen.again.workflows[id].snapshot.revision == revision
    && var rows := seen.suggestions.suggestions;
    && Latest(rows, owner, id).Some?
    && var row := rows[Latest(rows, owner, id).value];
    && row.status == Ready && row.request == request && row.baseRevision == revision
  }

  /** The events of a run that shows this suggestion's card. */
  function CardShown(input: RunInput, revision: int, request: Uuid, titles: seq<Text>): seq<AgentEvent> {
    var card := input.run + ":review_todo_suggestions:0";
    [RunStarted, ToolStart(card, ReviewTodoSuggestions),
     ToolArgs(card, ReviewArgs(input.workflow, revision, StepOf(input.workflow, CollectTasks), request, titles)),
     ToolEnd(card), RunFinished]
  }

  function QuestionAsked(input: RunInput, revision: int, field: Field): seq<AgentEvent> {
    var card := input.run + ":clarify_plan:0";
    [RunStarted, ToolStart(card, ClarifyPlan),
     ToolArgs(card, ClarifyArgs(input.workflow, revision, StepOf(input.workflow, CollectTasks), field)),
     ToolEnd(card), RunFinished]
  }

  /**
   * Where tasks are collected, a run shows the suggestion the client wants if it is on show,
   * asks a question with the field the model chose if nothing was answered or named before,
   * and is refused otherwise.
   */
  lemma CollectingRun(seen: Reads, owner: int, input: RunInput, choice: Option<Field>)
    requires SuggestionInv(seen.suggestions) && WorkflowsCoherent(seen.workflow) && WorkflowsCoherent(seen.again)
    requires Stands(seen, owner, input, CollectTasks)
    ensures
      var revision := input.state.value.revision;
      var events := QuietRun(seen, owner, input, choice);
      var rows := seen.suggestions.suggestions;
      var unanswered := input.state.value.suggestion.None? && NothingAnswered(input.messages);
      && (forall request :: Wants(input, revision, request) ==>
            events == if OnShow(seen, owner, input.workflow, revision, request) then
                        CardShown(input, revision, request,
                                  rows[Latest(rows, owner, input.workflow).value].titles)
                      else REFUSED)
      && (unanswered ==>
            events == if choice.Some? && !choice.value.OutsideCatalog? then
                        QuestionAsked(input, revision, choice.value)
                      else REFUSED)
      && ((forall request :: !Wants(input, revision, request)) && !unanswered ==> events == REFUSED)
  {
    hide SuggestionInv, ParseHistory, Clarifies, NothingAnswered, Coherent, CardAnswer, Latest, ReviewAnswer;
    var id, revision := input.workflow, input.state.value.revision;
    var step := StepOf(id, CollectTasks);
    CoherentIsCurrent(seen.workflow.workflows[id].snapshot);
    FreshIff(input.messages);
    forall request
      ensures CardAnswer(Lookup(seen), owner, input.run, id, revision, step, request) == ShownOrNot(seen, owner, input,
                                                                                                   revision, request)
      ensures Clarifies(input.messages, id, revision, step, request) <==>
              ParseHistory(input.messages) == Clarified(id, revision, step, request)
    {
      CardDecides(seen, owner, input, revision, request);
      ClarificationIsParsed(input.messages, id, revision, step, request);
    }
    var named := input.state.value.suggestion;
    assert named.Some? ==> Wants(input, revision, named.value);
    if ParseHistory(input.messages).Clarified? {
      var history := ParseHistory(input.messages);
      ClarificationIsParsed(input.messages, history.workflow, history.revision, history.step, history.request);
      assert named.None? && history == Clarified(id, revision, step, history.request) ==>
          Wants(input, revision, history.request);
    }
  }

  function ShownOrNot(seen: Reads, owner: int, input: RunInput, revision: int, request: Uuid): Answer {
    var rows := seen.suggestions.suggestions;
    if OnShow(seen, owner, input.workflow, revision, request) then
      Finish(CardShown(input, revision, request, rows[Latest(rows, owner, input.workflow).value].titles)[1..4])
    else Fail
  }

  /** A card is answered exactly when its suggestion is on show. */
  lemma CardDecides(seen: Reads, owner: int, input: RunInput, revision: int, request: Uuid)
    requires SuggestionInv(seen.suggestions) && WorkflowsCoherent(seen.again)
    ensures CardAnswer(Lookup(seen), owner, input.run, input.workflow, revision, StepOf(input.workflow, CollectTasks),
                       request)
         == ShownOrNot(seen, owner, input, revision, request)
  {
    hide SuggestionInv, Coherent, SnapshotOfRow, Latest;
    var id := input.workflow;
    var rows := seen.suggestions.suggestions;
    if Owned(seen.again, owner, id) { CoherentIsCurrent(seen.again.workflows[id].snapshot); }
    if Latest(rows, owner, id).Some? { LatestIsRead(seen.suggestions, owner, id); }
  }

  // ------------------------------------------------------- what comes before what

  /** The provider is asked, or something of the answer is yielded. */
  predicate Public(stop: Stop) {
    match stop
    case AtChoice => true
    case AtYield(n) => 1 <= n <= 4
    case AtCall(_) => false
  }

  /** Whatever is public comes after the read transaction was ended. */
  ghost predicate ReadsEndFirst(reached: seq<Stop>) {
    forall i :: 0 <= i < |reached| && Public(reached[i]) ==> AtCall(EndRead) in reached[..i]
  }

  /** What went wrong unexpectedly: an unforeseen exception, or a ValueError outside the two lookups. */
  ghost predicate Odd(schedule: Schedule, reached: seq<Stop>) {
    exists i :: 0 <= i < |reached| && reached[i].AtCall? && schedule.calls(reached[i].point).Raises?
                && var exc := schedule.calls(reached[i].point).exc;
                   exc.Unexpected? || (exc.Value? && reached[i].point !in {ReadWorkflow, ReadReady})
  }

  /** Reads end first, a fault on its way out tells what was raised, and none has been reported yet. */
  ghost predicate Orderly(s: Stream, schedule: Schedule) {
    && ReadsEndFirst(s.reached)
    && (s.signal.Going? ==> !Odd(schedule, s.reached))
    && (s.signal.Raising? ==> (s.signal.fault == AgentFailed <==> Odd(schedule, s.reached)))
    && forall k :: 0 <= k < |s.log| ==> !s.log[k].RunError?
  }

  lemma VisitIsOrderly(reached: seq<Stop>, stop: Stop, schedule: Schedule)
    requires ReadsEndFirst(reached) && (Public(stop) ==> AtCall(EndRead) in reached)
    ensures ReadsEndFirst(reached + [stop])
    ensures Odd(schedule, reached + [stop]) <==> Odd(schedule, reached) || Odd(schedule, [stop])
  {
    var more := reached + [stop];
    forall i | 0 <= i < |more| && Public(more[i]) ensures AtCall(EndRead) in more[..i] {
      assert more[..i] == reached[..i];
    }
    assert more[|reached|] == stop && [stop][0] == stop;
    assert forall i :: 0 <= i < |reached| ==> more[i] == reached[i];
  }

  lemma CallIsOrderly(s: Stream, schedule: Schedule, point: Point)
    requires Orderly(s, schedule)
    ensures
      var t := Call(s, schedule, point);
      && Orderly(t, schedule) && s.reached <= t.reached && t.log == s.log
      && (t.signal.Going? ==> s.signal.Going? && AtCall(point) in t.reached)
  {
    hide ReadsEndFirst;
    if s.signal.Going? {
      VisitIsOrderly(s.reached, AtCall(point), schedule);
      var t := Call(s, schedule, point);
      assert t.reached[|s.reached|] == AtCall(point);
      assert [AtCall(point)][0] == AtCall(point);
    }
  }

  lemma YieldIsOrderly(s: Stream, schedule: Schedule, n: nat, event: AgentEvent)
    requires Orderly(s, schedule) && !event.RunError?
    requires s.signal.Going? && 1 <= n <= 4 ==> AtCall(EndRead) in s.reached
    ensures var t := Yield(s, schedule, n, event); Orderly(t, schedule) && s.reached <= t.reached
    ensures Yield(s, schedule, n, event).signal.Going? ==> s.signal.Going?
  {
    hide ReadsEndFirst;
    if s.signal.Going? { VisitIsOrderly(s.reached, AtYield(n), schedule); }
  }

  lemma RefuseIsOrderly(s: Stream, schedule: Schedule)
    requires Orderly(s, schedule)
    ensures Orderly(Refuse(s), schedule) && Refuse(s).reached == s.reached
  {
    hide ReadsEndFirst, Odd;
  }

  lemma FinishingIsOrderly(s: Stream, schedule: Schedule)
    requires Orderly(s, schedule) && (s.signal.Going? ==> AtCall(EndRead) in s.reached)
    ensures Orderly(Finishing(s, schedule), schedule)
  {
    hide Orderly;
    CallIsOrderly(s, schedule, BuildFinished);
    YieldIsOrderly(Call(s, schedule, BuildFinished), schedule, 4, RunFinished);
  }

  lemma CallingIsOrderly(s: Stream, schedule: Schedule, events: seq<AgentEvent>)
    requires |events| == 3 && forall k :: 0 <= k < 3 ==> !events[k].RunError?
    requires Orderly(s, schedule) && (s.signal.Going? ==> AtCall(EndRead) in s.reached)
    ensures Orderly(Calling(s, schedule, events), schedule)
  {
    hide Orderly, Yield, Call, Finishing;
    CallIsOrderly(s, schedule, BuildCall);
    var built := Call(s, schedule, BuildCall);
    YieldIsOrderly(built, schedule, 1, events[0]);
    var start := Yield(built, schedule, 1, events[0]);
    YieldIsOrderly(start, schedule, 2, events[1]);
    var arguments := Yield(start, schedule, 2, events[1]);
    YieldIsOrderly(arguments, schedule, 3, events[2]);
    FinishingIsOrderly(Yield(arguments, schedule, 3, events[2]), schedule);
  }

  lemma ChooseIsOrderly(s: Stream, schedule: Schedule, choice: Option<Field>)
    requires Orderly(s, schedule) && (s.signal.Going? ==> AtCall(EndRead) in s.reached)
    ensures
      var t := Choose(s, schedule, choice);
      Orderly(t, schedule) && s.reached <= t.reached && (t.signal.Going? ==> s.signal.Going?)
  {
    hide ReadsEndFirst, Odd;
    if s.signal.Going? {
      VisitIsOrderly(s.reached, AtChoice, schedule);
      ChoiceIsNotOdd(schedule);
    }
  }

  lemma ChoiceIsNotOdd(schedule: Schedule)
    ensures !Odd(schedule, [AtChoice])
  {
  }

  lemma CardIsOrderly(s: Stream, schedule: Schedule, db: Db, owner: int, run: string, id: Uuid, revision: int,
                      step: StepId, request: Uuid)
    requires Orderly(s, schedule)
    ensures Orderly(Card(s, schedule, db, owner, run, id, revision, step, request), schedule)
  {
    hide Orderly, Call, Calling, Refuse, CurrentSuggestion;
    CallIsOrderly(s, schedule, ReadReady);
    var looked := Call(s, schedule, ReadReady);
    RefuseIsOrderly(looked, schedule);
    CallIsOrderly(looked, schedule, EndRead);
    var read := Call(looked, schedule, EndRead);
    RefuseIsOrderly(read, schedule);
    var answer := CardAnswer(db, owner, run, id, revision, step, request);
    if answer.Finish? { CallingIsOrderly(read, schedule, answer.events); }
  }

  lemma ReviewIsOrderly(s: Stream, schedule: Schedule, db: Db, owner: int, id: Uuid, revision: int,
                        messages: seq<Message>)
    requires Orderly(s, schedule)
    ensures Orderly(AgentStream.Review(s, schedule, db, owner, id, revision, messages), schedule)
  {
    hide Orderly, Call, Finishing, Refuse, ReviewAnswer, ParseHistory;
    CallIsOrderly(s, schedule, ParseMessages);
    var parsed := Call(s, schedule, ParseMessages);
    RefuseIsOrderly(parsed, schedule);
    CallIsOrderly(parsed, schedule, ReadLatest);
    CallIsOrderly(Call(parsed, schedule, ReadLatest), schedule, EndRead);
    var read := Call(Call(parsed, schedule, ReadLatest), schedule, EndRead);
    RefuseIsOrderly(read, schedule);
    FinishingIsOrderly(read, schedule);
  }

  lemma CollectIsOrderly(s: Stream, schedule: Schedule, db: Db, owner: int, input: RunInput, state: ClientState,
                         revision: int, choice: Option<Field>)
    requires Orderly(s, schedule)
    ensures Orderly(Collect(s, schedule, db, owner, input, state, revision, choice), schedule)
  {
    hide Orderly, Call, Calling, Choose, Refuse, Card, ParseHistory;
    if state.suggestion.Some? {
      CardIsOrderly(s, schedule, db, owner, input.run, input.workflow, revision, state.step, state.suggestion.value);
    } else {
      CallIsOrderly(s, schedule, ParseMessages);
      var parsed := Call(s, schedule, ParseMessages);
      RefuseIsOrderly(parsed, schedule);
      CallIsOrderly(parsed, schedule, EndRead);
      var read := Call(parsed, schedule, EndRead);
      ChooseIsOrderly(read, schedule, choice);
      var history := ParseHistory(input.messages);
      if history.Clarified? {
        CardIsOrderly(parsed, schedule, db, owner, input.run, input.workflow, revision, state.step, history.request);
      } else if choice.Some? {
        CallingIsOrderly(Choose(read, schedule, choice), schedule,
                         ToolEvents(input.run, ClarifyPlan,
                                    ClarifyArgs(input.workflow, revision, state.step, choice.value)));
      }
    }
  }

  lemma BodyIsOrderly(s: Stream, schedule: Schedule, seen: Reads, owner: int, input: RunInput, choice: Option<Field>)
    requires Orderly(s, schedule)
    ensures Orderly(Body(s, schedule, seen, owner, input, choice), schedule)
  {
    hide Orderly, Call, Collect, AgentStream.Review, Refuse, Lookup;
    CallIsOrderly(s, schedule, ValidateInput);
    var validated := Call(s, schedule, ValidateInput);
    RefuseIsOrderly(validated, schedule);
    CallIsOrderly(validated, schedule, ReadWorkflow);
    var found := Call(validated, schedule, ReadWorkflow);
    RefuseIsOrderly(found, schedule);
    if input.state.Some? && Owned(seen.workflow, owner, input.workflow) {
      var w := seen.workflow.workflows[input.workflow].snapshot;
      ReviewIsOrderly(found, schedule, seen.suggestions, owner, input.workflow, w.revision, input.messages);
      CollectIsOrderly(found, schedule, Lookup(seen), owner, input, input.state.value, w.revision, choice);
    }
  }

  lemma StartIsOrderly(schedule: Schedule)
    ensures Orderly(Yield(EMPTY, schedule, 0, RunStarted), schedule)
  {
    YieldIsOrderly(EMPTY, schedule, 0, RunStarted);
  }

  /** Reporting the fault adds nothing public and nothing odd. */
  lemma HandleReports(s: Stream, schedule: Schedule)
    requires Orderly(s, schedule)
    ensures
      var t := Handle(s, schedule);
      && ReadsEndFirst(t.reached)
      && forall k :: 0 <= k < |t.log| && t.log[k].RunError? ==>
           (t.log[k].fault == AgentFailed <==> Odd(schedule, t.reached))
  {
    hide ReadsEndFirst;
    if s.signal.Raising? {
      var point := AtCall(HandlerRollback);
      VisitIsOrderly(s.reached, point, schedule);
      VisitIsOrderly(s.reached + [point], AtYield(5), schedule);
      assert [point][0] == point;
    }
  }

  /**
   * In every run, under every schedule, the read transaction is over before the provider is
   * asked and before anything of the answer is yielded; and an error event says that the agent
   * failed exactly if an unforeseen exception, or a ValueError outside the two lookups, was raised.
   */
  lemma EveryRunIsOrderly(schedule: Schedule, seen: Reads, owner: int, input: RunInput, choice: Option<Field>)
    ensures
      var s := AgentEvents(schedule, seen, owner, input, choice);
      && ReadsEndFirst(s.reached)
      && forall k :: 0 <= k < |s.log| && s.log[k].RunError? ==>
           (s.log[k].fault == AgentFailed <==> Odd(schedule, s.reached))
  {
    hide Body, Handle, Yield, ReadsEndFirst, Odd;
    StartIsOrderly(schedule);
    var started := Yield(EMPTY, schedule, 0, RunStarted);
    if started.signal.Going? {
      BodyIsOrderly(started, schedule, seen, owner, input, choice);
      HandleReports(Body(started, schedule, seen, owner, input, choice), schedule);
    }
  }

  // ------------------------------------------------------------ when the provider is asked

  predicate Asked(s: Stream) { AtChoice in s.reached }

  lemma CallingAsksNobody(s: Stream, schedule: Schedule, events: seq<AgentEvent>)
    requires |events| == 3
    ensures Asked(Calling(s, schedule, events)) == Asked(s) == Asked(Finishing(s, schedule))
  {
    var built := Call(s, schedule, BuildCall);
    var start := Yield(built, schedule, 1, events[0]);
    assert Asked(start) == Asked(s);
    var arguments := Yield(start, schedule, 2, events[1]);
    assert Asked(arguments) == Asked(s);
  }

  lemma CardAsksNobody(s: Stream, schedule: Schedule, db: Db, owner: int, run: string, id: Uuid, revision: int,
                       step: StepId, request: Uuid)
    ensures Asked(Card(s, schedule, db, owner, run, id, revision, step, request)) == Asked(s)
  {
    hide CurrentSuggestion, Calling;
    var answer := CardAnswer(db, owner, run, id, revision, step, request);
    var read := Call(Call(s, schedule, ReadReady), schedule, EndRead);
    if answer.Finish? { CallingAsksNobody(read, schedule, answer.events); }
  }

  lemma ReviewAsksNobody(s: Stream, schedule: Schedule, db: Db, owner: int, id: Uuid, revision: int,
                         messages: seq<Message>)
    ensures Asked(AgentStream.Review(s, schedule, db, owner, id, revision, messages)) == Asked(s)
  {
    hide ParseHistory, ReviewAnswer;
  }

  lemma CollectAsks(s: Stream, schedule: Schedule, db: Db, owner: int, input: RunInput, state: ClientState,
                    revision: int, choice: Option<Field>)
    requires !Asked(s) && Asked(Collect(s, schedule, db, owner, input, state, revision, choice))
    ensures state.suggestion.None? && ParseHistory(input.messages) == Fresh
  {
    hide Card, ParseHistory, Choose, Calling;
    var parsed := Call(s, schedule, ParseMessages);
    if state.suggestion.Some? {
      CardAsksNobody(s, schedule, db, owner, input.run, input.workflow, revision, state.step, state.suggestion.value);
    } else if ParseHistory(input.messages).Clarified? {
      CardAsksNobody(parsed, schedule, db, owner, input.run, input.workflow, revision, state.step,
                     ParseHistory(input.messages).request);
    }
  }

  lemma BodyAsks(s: Stream, schedule: Schedule, seen: Reads, owner: int, input: RunInput, choice: Option<Field>)
    requires !Asked(s) && Asked(Body(s, schedule, seen, owner, input, choice))
    ensures Stands(seen, owner, input, CollectTasks)
    ensures input.state.value.suggestion.None? && ParseHistory(input.messages) == Fresh
  {
    hide Collect, AgentStream.Review, ParseHistory, Lookup;
    var found := Call(Call(s, schedule, ValidateInput), schedule, ReadWorkflow);
    assert !Asked(found);
    if input.state.Some? && Owned(seen.workflow, owner, input.workflow) {
      var w := seen.workflow.workflows[input.workflow].snapshot;
      ReviewAsksNobody(found, schedule, seen.suggestions, owner, input.workflow, w.revision, input.messages);
      if Asked(Collect(found, schedule, Lookup(seen), owner, input, input.state.value, w.revision, choice)) {
        CollectAsks(found, schedule, Lookup(seen), owner, input, input.state.value, w.revision, choice);
      }
    }
  }

  lemma HandleAsksNobody(s: Stream, schedule: Schedule)
    ensures Asked(Handle(s, schedule)) == Asked(s)
  {
  }

  /**
   * The provider is only ever asked where tasks are collected, at the step the client knows,
   * with no suggestion named and nothing answered before.
   */
  lemma AskedOnlyForQuestions(schedule: Schedule, seen: Reads, owner: int, input: RunInput, choice: Option<Field>)
    requires Asked(AgentEvents(schedule, seen, owner, input, choice))
    ensures Stands(seen, owner, input, CollectTasks)
    ensures input.state.value.suggestion.None? && NothingAnswered(input.messages)
  {
    hide Body, Handle, ParseHistory, CallIds, HasRepeats;
    FreshIff(input.messages);
    var started := Yield(EMPTY, schedule, 0, RunStarted);
    assert !Asked(started);
    HandleAsksNobody(Body(started, schedule, seen, owner, input, choice), schedule);
    if started.signal.Going? { BodyAsks(started, schedule, seen, owner, input, choice); }
  }

  /** An invalid input is refused before anything is read. */
  lemma InvalidInputReadsNothing(schedule: Schedule, seen: Reads, owner: int, input: RunInput, choice: Option<Field>)
    requires input.state.None?
    ensures forall stop :: stop in AgentEvents(schedule, seen, owner, input, choice).reached ==>
              stop in {AtYield(0), AtCall(ValidateInput), AtCall(HandlerRollback), AtYield(5)}
  {
    hide Collect, AgentStream.Review;
    var started := Yield(EMPTY, schedule, 0, RunStarted);
    assert started.reached == [AtYield(0)];
    var validated := Call(started, schedule, ValidateInput);
    assert validated.reached <= [AtYield(0), AtCall(ValidateInput)];
  }
}
