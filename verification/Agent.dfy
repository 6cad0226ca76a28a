/**
 * The agent stream: one run reads the workflow and its latest suggestion, and
 * answers with events. It writes nothing. The main theorem follows one review
 * card from the moment it is shown, through the submitted (possibly edited)
 * titles and any interleaved run of the system, to its acknowledgement.
 */
module Agent {
  import opened Prelude
  import opened Titles
  import opened WorkflowDomain
  import opened Tables
  import opened WorkflowService
  import opened SuggestionService
  import opened SuggestionInvariant
  import opened SuggestionTheorems
  import opened Runs

  datatype Arguments =
    | ClarifyArgs(workflow: Uuid, revision: int, step: StepId, field: Field)
    | ReviewArgs(workflow: Uuid, revision: int, step: StepId, request: Uuid, titles: seq<Text>)
    | MalformedArgs

  datatype Tool = ClarifyPlan | ReviewTodoSuggestions | UnknownTool

  datatype ToolCall = ToolCall(id: string, tool: Tool, arguments: Arguments)

  datatype ResultContent =
    | ClarifyResult(request: Uuid)
    | ReviewResult(request: Uuid, acceptedRevision: int)
    | MalformedResult

  datatype Message =
    | Assistant(calls: seq<ToolCall>)
    | ToolResult(callId: string, content: ResultContent)
    | OtherMessage

  /** The state a client sends with a run, once it has passed validation. */
  datatype ClientState = ClientState(revision: int, step: StepId, suggestion: Option<Uuid>)

  /** `state` is None when the input fails validation. */
  datatype RunInput = RunInput(run: string, workflow: Uuid, state: Option<ClientState>, messages: seq<Message>)

  datatype AgentEvent =
    | RunStarted
    | ToolStart(id: string, tool: Tool)
    | ToolArgs(id: string, arguments: Arguments)
    | ToolEnd(id: string)
    | RunFinished
    | RunError(fault: Fault)

  /** The code of an error event: a refused or unavailable request, or an unexpected failure. */
  datatype Fault = InvalidRequest | AgentFailed

  /**
   * What a run reads, statement by statement and hence possibly at different moments: the
   * workflow, the workflow once more together with the suggestion lookup, and the suggestions.
   */
  datatype Reads = Reads(workflow: Db, again: Db, suggestions: Db)

  /** What the lookup of the current suggestion sees. */
  function Lookup(seen: Reads): Db {
    seen.suggestions.(workflows := seen.again.workflows)
  }

  // ----------------------------------------------------------------- history

  datatype History =
    | Fresh
    | Clarified(workflow: Uuid, revision: int, step: StepId, request: Uuid)
    | Reviewed(workflow: Uuid, revision: int, step: StepId, request: Uuid, acceptedRevision: int, titles: seq<Text>)
    | Refusal

  function CallIds(messages: seq<Message>): seq<string> {
    if messages == [] then []
    else
      var last := messages[|messages| - 1];
      CallIds(messages[..|messages| - 1])
        + (if last.Assistant? then seq(|last.calls|, i requires 0 <= i < |last.calls| => last.calls[i].id) else [])
  }

  predicate HasRepeats(ids: seq<string>) {
    exists i, j :: 0 <= i < j < |ids| && ids[i] == ids[j]
  }

  function LastTool(messages: seq<Message>): (r: Option<nat>)
    ensures r.Some? ==> r.value < |messages| && messages[r.value].ToolResult?
    ensures r.Some? ==> forall j :: r.value < j < |messages| ==> !messages[j].ToolResult?
    ensures r.None? ==> forall j :: 0 <= j < |messages| ==> !messages[j].ToolResult?
  {
    if messages == [] then None
    else if messages[|messages| - 1].ToolResult? then Some(|messages| - 1)
    else LastTool(messages[..|messages| - 1])
  }

  function ParsePair(call: ToolCall, content: ResultContent): History {
    match call.tool
    case ClarifyPlan =>
      if call.arguments.ClarifyArgs? && !call.arguments.field.OutsideCatalog? && content.ClarifyResult? then
        Clarified(call.arguments.workflow, call.arguments.revision, call.arguments.step, content.request)
      else Refusal
    case ReviewTodoSuggestions =>
      if !call.arguments.ReviewArgs? || !content.ReviewResult? then Refusal
      else
        var titles := SubmittedTitles(call.arguments.titles);
        if titles.Err? || content.request != call.arguments.request then Refusal
        else Reviewed(call.arguments.workflow, call.arguments.revision, call.arguments.step,
                      call.arguments.request, content.acceptedRevision, titles.value)
    case UnknownTool => Refusal
  }

  /** Only the last tool result counts, and only right after the one call it answers. */
  function ParseHistory(messages: seq<Message>): History {
    if HasRepeats(CallIds(messages)) then Refusal
    else match LastTool(messages)
      case None => Fresh
      case Some(i) =>
        if i == 0 || !messages[i - 1].Assistant? || |messages[i - 1].calls| != 1
           || messages[i - 1].calls[0].id != messages[i].callId then Refusal
        else ParsePair(messages[i - 1].calls[0], messages[i].content)
  }

  // --------------------------------------------------------------------- runs

  /** The body of a run: the tool events it emits and how it ends. */
  datatype Answer = Finish(events: seq<AgentEvent>) | Fail

  function ToolEvents(run: string, tool: Tool, arguments: Arguments): seq<AgentEvent> {
    var id := run + (if tool == ClarifyPlan then ":clarify_plan:0" else ":review_todo_suggestions:0");
    [ToolStart(id, tool), ToolArgs(id, arguments), ToolEnd(id)]
  }

  /** _current_suggestion: the latest row whatever the workflow's state. */
  function LatestSnapshot(db: Db, owner: int, id: Uuid): Option<SuggestionSnapshot> {
    match Latest(db.suggestions, owner, id)
    case None => None
    case Some(i) => SnapshotOfRow(db.suggestions[i])
  }

  /** In REVIEW: acknowledge the card that was answered, if it is still the current proposal. */
  function ReviewAnswer(db: Db, owner: int, id: Uuid, revision: int, messages: seq<Message>): Answer {
    var history := ParseHistory(messages);
    var collect := StepOf(id, CollectTasks);
    if !history.Reviewed? then Fail
    else if history.acceptedRevision != revision || history.workflow != id then Fail
    else if history.revision != revision - 1 || history.step != collect then Fail
    else match LatestSnapshot(db, owner, id)
      case None => Fail
      case Some(current) =>
        if && current.status == Ready && current.request == history.request
           && current.baseRevision == revision - 1 && current.step == collect
           && history.titles == current.titles
        then Finish([])
        else Fail
  }

  /** The review card for the ready suggestion `request`, or a refusal. */
  function CardAnswer(db: Db, owner: int, run: string, id: Uuid, revision: int, step: StepId, request: Uuid): Answer {
    match CurrentSuggestion(db, owner, id)
    case Ok(Some(ready)) =>
      if ready.status == Ready && ready.request == request && ready.baseRevision == revision && ready.step == step then
        Finish(ToolEvents(run, ReviewTodoSuggestions, ReviewArgs(id, revision, step, request, ready.titles)))
      else Fail
    case _ => Fail
  }

  /** In COLLECT_TASKS; `choice` is the field the model picked, None when the call failed. */
  function CollectAnswer(db: Db, owner: int, input: RunInput, state: ClientState, revision: int,
                         choice: Option<Field>): Answer
  {
    if state.suggestion.Some? then
      CardAnswer(db, owner, input.run, input.workflow, revision, state.step, state.suggestion.value)
    else
      var history := ParseHistory(input.messages);
      match history
      case Refusal => Fail
      case Reviewed(_, _, _, _, _, _) => Fail
      case Clarified(workflow, expected, step, request) =>
        if workflow != input.workflow || expected != revision || step != state.step then Fail
        else CardAnswer(db, owner, input.run, input.workflow, revision, state.step, request)
      case Fresh =>
        if choice.None? || choice.value.OutsideCatalog? then Fail
        else Finish(ToolEvents(input.run, ClarifyPlan, ClarifyArgs(input.workflow, revision, state.step, choice.value)))
  }

  function AgentAnswer(seen: Reads, owner: int, input: RunInput, choice: Option<Field>): Answer {
    if input.state.None? || !Owned(seen.workflow, owner, input.workflow) then Fail
    else
      var state, s := input.state.value, seen.workflow.workflows[input.workflow].snapshot;
      if s.definition != CURRENT_DEFINITION then Fail
      else if s.revision != state.revision || state.step != StepOf(input.workflow, s.state) then Fail
      else if s.state == Review then ReviewAnswer(seen.suggestions, owner, input.workflow, s.revision, input.messages)
      else if s.state != CollectTasks then Fail
      else CollectAnswer(Lookup(seen), owner, input, state, s.revision, choice)
  }

  function Quiet(answer: Answer): seq<AgentEvent> {
    match answer
    case Finish(events) => [RunStarted] + events + [RunFinished]
    case Fail => [RunStarted, RunError(InvalidRequest)]
  }

  /** The events of a run in which no call raises and no yield is cut off. */
  function QuietRun(seen: Reads, owner: int, input: RunInput, choice: Option<Field>): seq<AgentEvent> {
    Quiet(AgentAnswer(seen, owner, input, choice))
  }

  ghost predicate Terminates(e: AgentEvent) { e.RunFinished? || e.RunError? }

  /** One balanced tool call, or none. */
  ghost predicate Balanced(events: seq<AgentEvent>) {
    events == [] ||
    (&& |events| == 3 && events[0].ToolStart? && events[1].ToolArgs? && events[2].ToolEnd?
     && events[0].id == events[1].id == events[2].id)
  }

  // ------------------------------------------------------ acknowledgements

  /** The k-th message is the last tool result, and with the message before it the answer to a card. */
  ghost predicate AnswersAt(messages: seq<Message>, k: nat, id: Uuid, revision: int, request: Uuid,
                            titles: seq<Text>, acceptedRevision: int)
  {
    && 1 <= k < |messages|
    && messages[k].ToolResult? && messages[k].content == ReviewResult(request, acceptedRevision)
    && (forall j :: k < j < |messages| ==> !messages[j].ToolResult?)
    && messages[k - 1].Assistant? && |messages[k - 1].calls| == 1
    && var call := messages[k - 1].calls[0];
    && call.id == messages[k].callId && call.tool == ReviewTodoSuggestions && call.arguments.ReviewArgs?
    && call.arguments == ReviewArgs(id, revision, StepOf(id, CollectTasks), request, call.arguments.titles)
    && SubmittedTitles(call.arguments.titles) == Ok(titles)
  }

  /** Among the messages, whatever else they hold, the agent's card and the client's result for it come last. */
  ghost predicate AnswersCard(messages: seq<Message>, id: Uuid, revision: int, request: Uuid,
                              titles: seq<Text>, acceptedRevision: int)
  {
    && !HasRepeats(CallIds(messages))
    && exists k: nat :: AnswersAt(messages, k, id, revision, request, titles, acceptedRevision)
  }

  /** An acknowledged review replays the latest proposal, which is ready and based on the revision before. */
  lemma AcknowledgedIsLatest(seen: Reads, owner: int, input: RunInput, choice: Option<Field>)
    requires Owned(seen.workflow, owner, input.workflow)
    requires seen.workflow.workflows[input.workflow].snapshot.state == Review
    requires AgentAnswer(seen, owner, input, choice).Finish?
    ensures
      var history := ParseHistory(input.messages);
      var rows := seen.suggestions.suggestions;
      && history.Reviewed?
      && Latest(rows, owner, input.workflow).Some?
      && var row := rows[Latest(rows, owner, input.workflow).value];
      && row.status == Ready && row.titles == history.titles && row.request == history.request
      && row.baseRevision == seen.workflow.workflows[input.workflow].snapshot.revision - 1
      && QuietRun(seen, owner, input, choice) == [RunStarted, RunFinished]
  {
    hide ParseHistory, CurrentSuggestion;
  }

  /**
   * A clarifying question is asked only at the current step of a collecting workflow,
   * when no suggestion is claimed and nothing was answered before, with the chosen field.
   */
  lemma QuestionsAreFresh(seen: Reads, owner: int, input: RunInput, choice: Option<Field>,
                          call: string, id: Uuid, revision: int, step: StepId, field: Field)
    requires ToolArgs(call, ClarifyArgs(id, revision, step, field)) in QuietRun(seen, owner, input, choice)
    ensures Owned(seen.workflow, owner, id) && id == input.workflow
    ensures
      var s := seen.workflow.workflows[id].snapshot;
      && s.state == CollectTasks && revision == s.revision && step == StepOf(id, CollectTasks)
      && ParseHistory(input.messages) == Fresh
      && input.state.Some? && input.state.value.suggestion.None?
      && choice == Some(field) && !field.OutsideCatalog?
  {
    hide ParseHistory, CurrentSuggestion, LatestSnapshot;
    var answer := AgentAnswer(seen, owner, input, choice);
    assert answer.Finish? && ToolArgs(call, ClarifyArgs(id, revision, step, field)) in answer.events;
  }

  /** The workflow has left the state in which suggestions can be reserved, for good. */
  predicate PastCollecting(state: WorkflowState) {
    state.Review? || state.Completed? || state.Cancelled?
  }

  /** Nothing that happens brings the workflow back to REVIEW. */
  ghost predicate StaysPast(db: Db, db': Db, id: Uuid) {
    && id in db.workflows && id in db'.workflows
    && PastCollecting(db'.workflows[id].snapshot.state)
    && (db'.workflows[id].snapshot.state == Review ==> db'.workflows[id].snapshot == db.workflows[id].snapshot)
  }

  lemma AppliedStaysPast(db: Db, db': Db, row: ActionRow, id: Uuid)
    requires Applied(db, db', row) && id in db.workflows && PastCollecting(db.workflows[id].snapshot.state)
    ensures StaysPast(db, db', id)
    ensures db'.suggestions == db.suggestions
  {
    hide FindAction, UsableIds, NewTodos;
  }

  lemma SameLength(rows: seq<SuggestionRow>, rows': seq<SuggestionRow>, owner: int, id: Uuid)
    requires |rows| == |rows'| && RowsEvolve(rows, rows')
    ensures Latest(rows', owner, id) == Latest(rows, owner, id)
  {
    assert forall i :: 0 <= i < |rows| ==> RowOf(rows'[i], owner, id) == RowOf(rows[i], owner, id);
    var a, b := Latest(rows, owner, id), Latest(rows', owner, id);
    hide Latest;
  }

  lemma LatestOfAppended(db: Db, db': Db, row: SuggestionRow, owner: int, id: Uuid)
    requires RowsOk(db) && Appended(db, db', row) && row.workflow != id
    ensures Latest(db'.suggestions, owner, id) == Latest(db.suggestions, owner, id)
  {
    AppendedKeepsRows(db, db', row);
    var kept := SupersedePending(db.suggestions, row.owner, row.workflow);
    assert db'.suggestions[..|kept|] == kept;
    hide InputsOk, ProgressOk, FindSuggestion, RowsOk;
    assert RowsEvolve(db.suggestions, kept) by {
      assert forall i :: 0 <= i < |kept| ==> db'.suggestions[i] == kept[i];
    }
    SameLength(db.suggestions, kept, owner, id);
  }

  lemma ReservationElsewhere(s: System, step: Step, owner: int, id: Uuid)
    requires Inv(s) && id in s.db.workflows && PastCollecting(s.db.workflows[id].snapshot.state)
    requires step.ReserveSuggestion?
    ensures
      var t := Next(s, step);
      && StaysPast(s.db, t.db, id)
      && Latest(t.db.suggestions, owner, id) == Latest(s.db.suggestions, owner, id)
  {
    hide GrantsOk, DeliveriesOk;
    WorkflowsAreCoherent(s.db);
    var row := ReserveCases(s.db, step.owner, step.workflow, step.request, step.revision, step.step,
                            step.clarification, step.queued, step.now);
    hide WorkflowInv, Reserve, InputsOk, ProgressOk, FindSuggestion;
    if Next(s, step).db != s.db { LatestOfAppended(s.db, Next(s, step).db, row, owner, id); }
  }

  /** Once a workflow has moved past collecting, no step gives it a newer suggestion. */
  lemma NoNewerSuggestion(s: System, step: Step, owner: int, id: Uuid)
    requires Inv(s) && id in s.db.workflows && PastCollecting(s.db.workflows[id].snapshot.state)
    ensures
      var t := Next(s, step);
      && StaysPast(s.db, t.db, id)
      && Latest(t.db.suggestions, owner, id) == Latest(s.db.suggestions, owner, id)
  {
    StepKeepsInv(s, step);
    if step.ReserveSuggestion? {
      ReservationElsewhere(s, step, owner, id);
    } else {
      hide WorkflowInv, SuggestionInv, GrantsOk, DeliveriesOk, RowsEvolve, Latest;
      OtherStepsKeepLength(s, step, id);
      SameLength(s.db.suggestions, Next(s, step).db.suggestions, owner, id);
    }
  }

  lemma StartStaysPast(db: Db, owner: int, title: Text, request: Uuid, minted: Uuid, id: Uuid)
    requires id in db.workflows && PastCollecting(db.workflows[id].snapshot.state)
    ensures
      var db' := StartWorkflow(db, owner, title, request, minted).0;
      StaysPast(db, db', id) && db'.suggestions == db.suggestions
  {
    StartCases(db, owner, title, request, minted);
    hide StartWorkflow, CanonicalizeTitle, CanonicalTitle;
  }

  lemma AdvanceStaysPast(db: Db, step: Step, id: Uuid)
    requires WorkflowsOk(db) && step.Advance? && WellFormedCommand(step.command)
    requires id in db.workflows && PastCollecting(db.workflows[id].snapshot.state)
    ensures
      var db' := AdvanceWorkflow(db, step.owner, step.workflow, step.command, step.request, step.revision, step.step,
                                 step.minted).0;
      StaysPast(db, db', id) && db'.suggestions == db.suggestions
  {
    var row := AdvanceCases(db, step.owner, step.workflow, step.command, step.request, step.revision, step.step,
                            step.minted);
    var db' := AdvanceWorkflow(db, step.owner, step.workflow, step.command, step.request, step.revision, step.step,
                               step.minted).0;
    hide AdvanceWorkflow, Applied, WorkflowsOk;
    if db' != db { AppliedStaysPast(db, db', row, id); }
  }

  lemma OtherStepsKeepLength(s: System, step: Step, id: Uuid)
    requires Inv(s) && !step.ReserveSuggestion?
    requires id in s.db.workflows && PastCollecting(s.db.workflows[id].snapshot.state)
    ensures
      var t := Next(s, step);
      && |t.db.suggestions| == |s.db.suggestions|
      && StaysPast(s.db, t.db, id)
  {
    hide SuggestionInv, GrantsOk, DeliveriesOk, FinishInline, ClaimSuggestion, FinishClaimed, ExpireRow;
    hide StartWorkflow, AdvanceWorkflow, WorkflowsOk, ActionsOk, TodosOk, StartsOk;
    match step
    case Start(owner, title, request, workflow) =>
      StartStaysPast(s.db, owner, title, request, workflow, id);
    case Advance(_, _, command, _, _, _, _) =>
      if WellFormedCommand(command) { AdvanceStaysPast(s.db, step, id); }
    case _ =>
  }

  lemma {:induction false} NoNewerSuggestionInRun(s: System, steps: seq<Step>, owner: int, id: Uuid)
    requires Inv(s) && id in s.db.workflows && PastCollecting(s.db.workflows[id].snapshot.state)
    ensures
      var t := Run(s, steps);
      && StaysPast(s.db, t.db, id)
      && Latest(t.db.suggestions, owner, id) == Latest(s.db.suggestions, owner, id)
    decreases |steps|
  {
    hide Inv, Next, Latest;
    if steps != [] {
      var init := steps[..|steps| - 1];
      NoNewerSuggestionInRun(s, init, owner, id);
      RunKeepsInv(s, init);
      NoNewerSuggestion(Run(s, init), steps[|steps| - 1], owner, id);
    }
  }

  /** A message history is parsed as a review of the collecting step exactly when it answers that card. */
  lemma CardIsParsed(messages: seq<Message>, id: Uuid, revision: int, request: Uuid, titles: seq<Text>,
                     acceptedRevision: int)
    ensures ParseHistory(messages) == Reviewed(id, revision, StepOf(id, CollectTasks), request, acceptedRevision,
                                               titles)
       <==> AnswersCard(messages, id, revision, request, titles, acceptedRevision)
  {
    hide CallIds, HasRepeats, SubmittedTitles;
    if AnswersCard(messages, id, revision, request, titles, acceptedRevision) {
      var k: nat :| AnswersAt(messages, k, id, revision, request, titles, acceptedRevision);
      assert LastTool(messages) == Some(k);
    }
    if ParseHistory(messages).Reviewed? {
      var history, k := ParseHistory(messages), LastTool(messages).value;
      assert history.step == StepOf(history.workflow, CollectTasks) ==>
          AnswersAt(messages, k, history.workflow, history.revision, history.request, history.titles,
                    history.acceptedRevision);
    }
  }

  /** The suggestion a card shows: the latest row, ready, based on the revision at which it was shown. */
  ghost predicate Shown(db: Db, owner: int, id: Uuid, revision: int, request: Uuid, titles: seq<Text>) {
    && Latest(db.suggestions, owner, id).Some?
    && var row := db.suggestions[Latest(db.suggestions, owner, id).value];
    && row.status == Ready && row.request == request && row.titles == titles && row.baseRevision == revision
  }

  /**
   * A run that shows a review card shows the latest ready suggestion at the moment it reads
   * the suggestions, based on the revision at which it saw the workflow collecting, twice.
   */
  lemma CardShowsCurrent(seen: Reads, owner: int, input: RunInput, choice: Option<Field>,
                         call: string, revision: int, step: StepId, request: Uuid, titles: seq<Text>)
    requires ToolArgs(call, ReviewArgs(input.workflow, revision, step, request, titles))
               in QuietRun(seen, owner, input, choice)
    ensures Shown(seen.suggestions, owner, input.workflow, revision, request, titles)
    ensures forall db | db in [seen.workflow, seen.again] ::
              && Owned(db, owner, input.workflow)
              && db.workflows[input.workflow].snapshot.state == CollectTasks
              && db.workflows[input.workflow].snapshot.revision == revision
  {
    hide ParseHistory, ReviewAnswer, CollectAnswer, Shown;
    var answer := AgentAnswer(seen, owner, input, choice);
    var args := ReviewArgs(input.workflow, revision, step, request, titles);
    assert answer.Finish? && ToolArgs(call, args) in answer.events;
    var s := seen.workflow.workflows[input.workflow].snapshot;
    ReviewsAreSilent(seen.suggestions, owner, input.workflow, s.revision, input.messages);
    CollectAnswerShows(Lookup(seen), owner, input, input.state.value, s.revision, choice, call, args);
    SameSuggestions(seen.suggestions, Lookup(seen), owner, input.workflow, revision, request, titles);
  }

  lemma SameSuggestions(db: Db, other: Db, owner: int, id: Uuid, revision: int, request: Uuid, titles: seq<Text>)
    requires db.suggestions == other.suggestions
    ensures Shown(db, owner, id, revision, request, titles) <==> Shown(other, owner, id, revision, request, titles)
  {
  }

  lemma ReviewsAreSilent(db: Db, owner: int, id: Uuid, revision: int, messages: seq<Message>)
    ensures var answer := ReviewAnswer(db, owner, id, revision, messages); answer.Finish? ==> answer.events == []
  {
    hide ParseHistory, LatestSnapshot;
  }

  /** The lookup finds the workflow collecting at `revision`, with this suggestion its latest. */
  ghost predicate CardShows(db: Db, owner: int, id: Uuid, revision: int, shown: int, request: Uuid, titles: seq<Text>) {
    && shown == revision && Owned(db, owner, id)
    && db.workflows[id].snapshot.state == CollectTasks && db.workflows[id].snapshot.revision == revision
    && Shown(db, owner, id, revision, request, titles)
  }

  lemma CollectAnswerShows(db: Db, owner: int, input: RunInput, state: ClientState, revision: int,
                           choice: Option<Field>, call: string, args: Arguments)
    requires args.ReviewArgs?
    requires var answer := CollectAnswer(db, owner, input, state, revision, choice);
             answer.Finish? && ToolArgs(call, args) in answer.events
    ensures CardShows(db, owner, input.workflow, revision, args.revision, args.request, args.titles)
  {
    hide CardAnswer, CardShows, ParseHistory;
    if state.suggestion.Some? {
      CardAnswerShows(db, owner, input.run, input.workflow, revision, state.step, state.suggestion.value, call, args);
    } else if ParseHistory(input.messages).Clarified? {
      CardAnswerShows(db, owner, input.run, input.workflow, revision, state.step, ParseHistory(input.messages).request,
                      call, args);
    }
  }

  lemma CardAnswerShows(db: Db, owner: int, run: string, id: Uuid, revision: int, step: StepId, wanted: Uuid,
                        call: string, args: Arguments)
    requires args.ReviewArgs?
    requires var answer := CardAnswer(db, owner, run, id, revision, step, wanted);
             answer.Finish? && ToolArgs(call, args) in answer.events
    ensures CardShows(db, owner, id, revision, args.revision, args.request, args.titles)
  {
    hide Latest;
  }

  /** What is shown stays shown while the row stays the latest and the run goes on. */
  lemma ShownStays(s: System, t: System, owner: int, id: Uuid, revision: int, request: Uuid, titles: seq<Text>)
    requires Onward(s, t) && Shown(s.db, owner, id, revision, request, titles)
    requires Latest(t.db.suggestions, owner, id) == Latest(s.db.suggestions, owner, id)
    ensures Shown(t.db, owner, id, revision, request, titles)
  {
    hide Latest, Extends;
  }

  /** With a ready suggestion on record, a review is acknowledged exactly when it repeats that suggestion. */
  lemma RepeatsTheProposal(db: Db, owner: int, id: Uuid, revision: int, messages: seq<Message>,
                           current: SuggestionSnapshot)
    requires LatestSnapshot(db, owner, id) == Some(current)
    requires current.status == Ready && current.baseRevision == revision - 1
    requires current.step == StepOf(id, CollectTasks)
    ensures ReviewAnswer(db, owner, id, revision, messages) == Finish([]) <==>
      ParseHistory(messages)
      == Reviewed(id, revision - 1, StepOf(id, CollectTasks), current.request, revision, current.titles)
  {
    hide ParseHistory, LatestSnapshot;
  }

  lemma ShownIsOnRecord(db: Db, owner: int, id: Uuid, revision: int, request: Uuid, titles: seq<Text>)
    requires SuggestionInv(db) && Shown(db, owner, id, revision, request, titles)
    ensures
      var current := LatestSnapshot(db, owner, id);
      && current.Some? && current.value.status == Ready && current.value.baseRevision == revision
      && current.value.step == StepOf(id, CollectTasks)
      && current.value.request == request && current.value.titles == titles
  {
    var row := db.suggestions[Latest(db.suggestions, owner, id).value];
    assert InputsOk(db, row) && ProgressOk(row);
    RowsAreStorable(db, row);
    hide SuggestionInv, InputsOk, SnapshotOfRow, ProgressOk, Latest;
  }

  /** In REVIEW one revision after the shown card, exactly the messages that answer it are acknowledged. */
  lemma ShownIsAcknowledged(db: Db, owner: int, id: Uuid, revision: int, messages: seq<Message>, request: Uuid,
                            titles: seq<Text>)
    requires SuggestionInv(db)
    requires Shown(db, owner, id, revision - 1, request, titles)
    ensures ReviewAnswer(db, owner, id, revision, messages) == Finish([])
       <==> AnswersCard(messages, id, revision - 1, request, titles, revision)
  {
    hide SuggestionInv, Shown, LatestSnapshot, ReviewAnswer, ParseHistory, AnswersCard;
    ShownIsOnRecord(db, owner, id, revision - 1, request, titles);
    RepeatsTheProposal(db, owner, id, revision, messages, LatestSnapshot(db, owner, id).value);
    CardIsParsed(messages, id, revision - 1, request, titles, revision);
  }

  /** With the shown suggestion still the latest, a REVIEW one revision later acknowledges its card and nothing else. */
  lemma ReviewAcknowledges(seen: Reads, owner: int, input: RunInput, choice: Option<Field>, request: Uuid,
                           titles: seq<Text>)
    requires SuggestionInv(seen.suggestions) && Owned(seen.workflow, owner, input.workflow)
    requires
      var s := seen.workflow.workflows[input.workflow].snapshot;
      && Coherent(s) && s.state == Review
      && Shown(seen.suggestions, owner, input.workflow, s.revision - 1, request, titles)
      && input.state.Some?
      && input.state.value.revision == s.revision && input.state.value.step == StepOf(input.workflow, Review)
    ensures
      var revision := seen.workflow.workflows[input.workflow].snapshot.revision;
      QuietRun(seen, owner, input, choice) == [RunStarted, RunFinished] <==>
        AnswersCard(input.messages, input.workflow, revision - 1, request, titles, revision)
  {
    hide Coherent, SuggestionInv, Shown, AnswersCard, ReviewAnswer, QuietRun;
    var s := seen.workflow.workflows[input.workflow].snapshot;
    CoherentIsCurrent(s);
    ShownIsAcknowledged(seen.suggestions, owner, input.workflow, s.revision, input.messages, request, titles);
    ReviewDecides(seen, owner, input, choice);
  }

  lemma CoherentIsCurrent(s: Snapshot)
    requires Coherent(s)
    ensures s.definition == CURRENT_DEFINITION
  {
  }

  /** In REVIEW the run finishes without a tool call or fails, as the review does. */
  lemma ReviewDecides(seen: Reads, owner: int, input: RunInput, choice: Option<Field>)
    requires Owned(seen.workflow, owner, input.workflow) && input.state.Some?
    requires
      var s := seen.workflow.workflows[input.workflow].snapshot;
      && s.definition == CURRENT_DEFINITION && s.state == Review
      && input.state.value.revision == s.revision && input.state.value.step == StepOf(input.workflow, Review)
    ensures
      var revision := seen.workflow.workflows[input.workflow].snapshot.revision;
      QuietRun(seen, owner, input, choice) == [RunStarted, RunFinished] <==>
        ReviewAnswer(seen.suggestions, owner, input.workflow, revision, input.messages) == Finish([])
  {
    hide ParseHistory, LatestSnapshot, CollectAnswer;
  }

  /** A shown proposal stays the latest from the accepted submit on, however the run goes on. */
  lemma ShownThroughout(steps: seq<Step>, submit: Step, more: seq<Step>, between: seq<Step>, id: Uuid, request: Uuid,
                        titles: seq<Text>)
    requires submit.Advance? && submit.command.SubmitTasks? && WellFormedCommand(submit.command)
    requires submit.workflow == id
    requires
      var db := Run(Initial, steps).db;
      && Shown(db, submit.owner, id, submit.revision, request, titles)
      && Next(Run(Initial, steps), submit).db != db
    ensures
      var u := Run(Next(Run(Initial, steps), submit), more);
      var v := Run(u, between);
      && Inv(u) && Inv(v) && Owned(u.db, submit.owner, id)
      && (u.db.workflows[id].snapshot.state == Review ==>
            u.db.workflows[id].snapshot.revision == submit.revision + 1)
      && Shown(v.db, submit.owner, id, submit.revision, request, titles)
  {
    hide Run, Next, Inv, Latest, Shown, RowsEvolve, WellFormedCommand, GrantsOk;
    InitialInv();
    RunKeepsInv(Initial, steps);
    var s := Run(Initial, steps);
    var t := Next(s, submit);
    var u := Run(t, more);
    var v := Run(u, between);
    StepKeepsInv(s, submit);
    RunKeepsInv(t, more);
    RunKeepsInv(u, between);
    SubmitMovesPast(s, submit);
    var owner := submit.owner;
    NoNewerSuggestionInRun(t, more, owner, id);
    NoNewerSuggestionInRun(u, between, owner, id);
    ShownStays(s, t, owner, id, submit.revision, request, titles);
    ShownStays(t, u, owner, id, submit.revision, request, titles);
    ShownStays(u, v, owner, id, submit.revision, request, titles);
  }

  /**
   * From card to acknowledgement. In any run of the system, if the shown ready
   * suggestion is still the workflow's latest when the user's titles (edited or
   * not) are accepted, then however the run goes on, also between the reads of the
   * agent, a later agent run that finds the workflow in REVIEW is acknowledged exactly
   * when the last tool result it carries answers that card.
   */
  lemma ReviewCardIsAcknowledged(steps: seq<Step>, submit: Step, more: seq<Step>, between: seq<Step>, again: Db,
                                 input: RunInput, choice: Option<Field>, request: Uuid, titles: seq<Text>)
    requires submit.Advance? && submit.command.SubmitTasks? && WellFormedCommand(submit.command)
    requires submit.workflow == input.workflow
    requires
      var db := Run(Initial, steps).db;
      && Shown(db, submit.owner, input.workflow, submit.revision, request, titles)
      && Next(Run(Initial, steps), submit).db != db
    requires
      var db := Run(Next(Run(Initial, steps), submit), more).db;
      && input.workflow in db.workflows && db.workflows[input.workflow].snapshot.state == Review
      && input.state.Some?
      && input.state.value.revision == submit.revision + 1 && input.state.value.step == StepOf(input.workflow, Review)
    ensures
      var first := Run(Next(Run(Initial, steps), submit), more);
      var seen := Reads(first.db, again, Run(first, between).db);
      QuietRun(seen, submit.owner, input, choice) == [RunStarted, RunFinished] <==>
        AnswersCard(input.messages, input.workflow, submit.revision, request, titles, submit.revision + 1)
  {
    hide Run, Next, Inv, Shown, AnswersCard, QuietRun, Coherent, SuggestionInv, WellFormedCommand;
    var id := input.workflow;
    var u := Run(Next(Run(Initial, steps), submit), more);
    var v := Run(u, between);
    ShownThroughout(steps, submit, more, between, id, request, titles);
    InvParts(u);
    InvParts(v);
    assert Coherent(u.db.workflows[id].snapshot);
    ReviewAcknowledges(Reads(u.db, again, v.db), submit.owner, input, choice, request, titles);
  }

  /** The proposal an acknowledged run replays was the latest one already when the run found the workflow in REVIEW. */
  lemma AcknowledgedThroughout(steps: seq<Step>, between: seq<Step>, again: Db, owner: int, input: RunInput,
                               choice: Option<Field>)
    requires
      var db := Run(Initial, steps).db;
      && Owned(db, owner, input.workflow) && db.workflows[input.workflow].snapshot.state == Review
    requires
      var first, last := Run(Initial, steps), Run(Run(Initial, steps), between);
      AgentAnswer(Reads(first.db, again, last.db), owner, input, choice).Finish?
    ensures
      var first, last := Run(Initial, steps).db, Run(Run(Initial, steps), between).db;
      var latest := Latest(last.suggestions, owner, input.workflow);
      && latest.Some? && latest == Latest(first.suggestions, owner, input.workflow)
      && last.suggestions[latest.value].status == Ready
      && last.suggestions[latest.value].baseRevision == first.workflows[input.workflow].snapshot.revision - 1
      && last.suggestions[latest.value].titles == ParseHistory(input.messages).titles
  {
    InitialInv();
    RunKeepsInv(Initial, steps);
    var first, last := Run(Initial, steps), Run(Run(Initial, steps), between);
    hide Run, Inv;
    NoNewerSuggestionInRun(first, between, owner, input.workflow);
    hide Latest, ParseHistory, AgentAnswer;
    AcknowledgedIsLatest(Reads(first.db, again, last.db), owner, input, choice);
  }

  lemma AppliedSubmit(db: Db, db': Db, row: ActionRow)
    requires Applied(db, db', row) && row.payload.AdvancePayload? && row.payload.command.SubmitTasks?
    requires db.workflows[row.workflow].snapshot.id == row.workflow
    ensures Owned(db', row.owner, row.workflow)
    ensures db'.workflows[row.workflow].snapshot.state == Review
    ensures db'.workflows[row.workflow].snapshot.revision == row.payload.expectedRevision + 1
    ensures db'.suggestions == db.suggestions
  {
    hide FindAction, UsableIds, NewTodos, CreatedIds, WellFormedCommand, Distinct, Todos;
  }

  /** An accepted submit puts the workflow in REVIEW, one revision on, and touches no suggestion. */
  lemma SubmitMovesPast(s: System, submit: Step)
    requires Inv(s) && submit.Advance? && submit.command.SubmitTasks? && WellFormedCommand(submit.command)
    requires Next(s, submit).db != s.db
    ensures
      var t := Next(s, submit);
      && Owned(t.db, submit.owner, submit.workflow)
      && t.db.workflows[submit.workflow].snapshot.state == Review
      && t.db.workflows[submit.workflow].snapshot.revision == submit.revision + 1
      && t.db.suggestions == s.db.suggestions
  {
    var row := AdvanceCases(s.db, submit.owner, submit.workflow, submit.command, submit.request,
                            submit.revision, submit.step, submit.minted);
    hide AdvanceWorkflow, ActionsOk, TodosOk, StartsOk, SuggestionInv, GrantsOk, DeliveriesOk, Coherent, Linear;
    assert s.db.workflows[row.workflow].snapshot.id == row.workflow by { assert Owned(s.db, row.owner, row.workflow); }
    hide WorkflowsOk, Applied;
    AppliedSubmit(s.db, Next(s, submit).db, row);
  }
}
