/**
 * What starting and advancing a workflow answer and write, in terms of what a user of the
 * workflow can see, and the events that tell of it over whole runs.
 */
module WorkflowDecisions {
  import opened Prelude
  import opened Titles
  import opened WorkflowDomain
  import opened Tables
  import opened WorkflowService
  import opened SuggestionService
  import opened SuggestionInvariant
  import opened Runs

  // ------------------------------------------------------------------- one action

  /** One open todo per proposal, in order, under the identifiers given. */
  ghost predicate OpenTodos(todos: seq<CreatedTodo>, proposals: seq<Text>, ids: seq<Uuid>) {
    && |todos| == |proposals| == |ids|
    && forall k :: 0 <= k < |todos| ==> todos[k] == CreatedTodo(ids[k], proposals[k], false)
  }

  /** `t` is what the command makes of a workflow that stands at `s`. */
  ghost predicate Leads(s: Snapshot, command: Command, ids: seq<Uuid>, t: Snapshot) {
    && t.id == s.id && t.title == s.title && t.definition == s.definition && t.revision == s.revision + 1
    && match command
       case AnswerMultipleSteps(answer) =>
         && t.created.None?
         && t.multipleSteps == (if s.state == AssessTask then Some(answer) else s.multipleSteps)
         && t.proposals == (if answer then [] else [s.title])
         && t.state == (if !answer then Review else if s.state == AssessTask then OfferBreakdown else CollectTasks)
       case SubmitTasks(titles) =>
         t.created.None? && t.multipleSteps == s.multipleSteps && t.proposals == titles && t.state == Review
       case Confirm =>
         && t.multipleSteps == s.multipleSteps && t.proposals == s.proposals && t.state == Completed
         && t.created.Some? && OpenTodos(t.created.value, s.proposals, ids)
       case Cancel =>
         t.created.None? && t.multipleSteps == s.multipleSteps && t.proposals == s.proposals && t.state == Cancelled
  }

  /** The identifiers the action will use: one per proposal when it confirms them, and none otherwise. */
  function IdsFor(s: Snapshot, command: Command, minted: nat -> Uuid): seq<Uuid> {
    if command.Confirm? then FirstIds(minted, |s.proposals|) else []
  }

  lemma ExpectedActionLeads(s: Snapshot, command: Command, minted: nat -> Uuid)
    requires Coherent(s) && Expects(s.state, command)
    ensures Transition(s, command).Ok?
    ensures
      var d := Transition(s, command).value;
      var ids := FirstIds(minted, |d.toCreate|);
      ids == IdsFor(s, command, minted) && Leads(s, command, ids, Advanced(s, d, ids))
  {
  }

  /** The tables after a new action was accepted. */
  ghost predicate Wrote(db: Db, db': Db, row: ActionRow, todos: seq<TodoRow>) {
    db' == db.(workflows := db.workflows[row.workflow := WorkflowRow(row.owner, row.accepted)],
               actions := db.actions + [row],
               todos := db.todos + todos,
               events := db.events
                 + if row.accepted.state == Completed then [WorkflowCompleted(row.owner, row.workflow)] else [])
  }

  /** The todo rows a confirmation adds to its owner's list. */
  ghost predicate Listed(rows: seq<TodoRow>, owner: int, s: Snapshot, command: Command, minted: nat -> Uuid) {
    && |rows| == (if command.Confirm? then |s.proposals| else 0)
    && forall k :: 0 <= k < |rows| ==> rows[k] == TodoRow(owner, minted(k), s.proposals[k], false)
  }

  lemma AcceptedWrites(db: Db, row: ActionRow, s: Snapshot, command: Command, minted: nat -> Uuid)
    requires Leads(s, command, IdsFor(s, command, minted), row.accepted)
    ensures Wrote(db, Accept(db, row), row, NewTodos(row)) && Listed(NewTodos(row), row.owner, s, command, minted)
  {
  }

  /**
   * The whole outcome of a new action: what is stale, over or out of place is refused, in that
   * order, and otherwise the workflow, the journal, the todos and the events are those of the
   * action, and the answer is what was written.
   */
  lemma AdvanceDecision(db: Db, owner: int, id: Uuid, command: Command, request: Uuid, revision: int, step: StepId,
                        minted: nat -> Uuid) returns (row: ActionRow, todos: seq<TodoRow>)
    requires WorkflowInv(db) && FindAction(db.actions, owner, id, request).None?
    ensures
      var (db', reply) := AdvanceWorkflow(db, owner, id, command, request, revision, step, minted);
      if !Owned(db, owner, id) then reply == NotFound && db' == db
      else
        var s := db.workflows[id].snapshot;
        if step != StepOf(id, s.state) || revision != s.revision then
          reply == Refused(StaleWorkflowStep) && db' == db
        else if s.state == Completed || s.state == Cancelled then
          reply == Refused(Domain(TerminalWorkflow)) && db' == db
        else if !Expects(s.state, command) then reply == Refused(Domain(InvalidAction)) && db' == db
        else if !UsableIds(db.todos, IdsFor(s, command, minted)) then
          reply == Refused(ConstraintViolation) && db' == db
        else
          && row == ActionRow(owner, id, request, AdvancePayload(id, revision, step, command), row.accepted)
          && Leads(s, command, IdsFor(s, command, minted), row.accepted)
          && Listed(todos, owner, s, command, minted)
          && reply == Accepted(row.accepted) && Wrote(db, db', row, todos)
  {
    hide Linear, Journal, Accept, ActionsOk, TodosOk, StartsOk, AdvanceRefusal, Coherent, Transition, Leads, Wrote,
         Listed, UsableIds, FirstIds, NewTodos, Advanced, IdsFor;
    var payload := AdvancePayload(id, revision, step, command);
    row, todos := ActionRow(owner, id, request, payload, StartOf(id, [])), [];
    if Owned(db, owner, id) {
      var s := db.workflows[id].snapshot;
      assert Coherent(s);
      CoherentRefusals(s, id, command, revision, step);
      if AdvanceRefusal(s, id, command, revision, step).None? {
        ExpectedActionLeads(s, command, minted);
        var d := Transition(s, command).value;
        row := row.(accepted := Advanced(s, d, FirstIds(minted, |d.toCreate|)));
        todos := NewTodos(row);
        AcceptedWrites(db, row, s, command, minted);
      }
    }
  }

  /** A request that is in the journal changes nothing: the same action gets its answer again, any other is refused. */
  lemma JournalledDecision(db: Db, row: ActionRow, command: Command, revision: int, step: StepId, minted: nat -> Uuid)
    requires WorkflowInv(db) && row in db.actions
    ensures AdvanceWorkflow(db, row.owner, row.workflow, command, row.request, revision, step, minted)
         == (db, if row.payload == AdvancePayload(row.workflow, revision, step, command) then Accepted(row.accepted)
                 else Refused(RequestIdReused))
  {
    hide WorkflowsOk, TodosOk, StartsOk, Coherent;
    JournalledRowIsFound(db, row);
    var i :| 0 <= i < |db.actions| && db.actions[i] == row;
    assert Owned(db, db.actions[i].owner, db.actions[i].workflow);
    hide ActionsOk, AdvanceRefusal, FindAction;
  }

  /**
   * The whole outcome of a start: a title that cannot be made canonical is refused; a request
   * sent before gets its answer again, or is refused if the title differs; and otherwise one
   * workflow is opened at its first question.
   */
  lemma StartDecision(db: Db, owner: int, title: Text, request: Uuid, minted: Uuid)
    ensures
      var (db', reply) := StartWorkflow(db, owner, title, request, minted);
      var key := (owner, request);
      match CanonicalizeTitle(title)
      case Err(_) => reply == Refused(Domain(InvalidInput)) && db' == db
      case Ok(canonical) =>
        if key in db.starts then
          && db' == db
          && reply == if db.starts[key].payload == StartPayload(canonical) then Accepted(db.starts[key].accepted)
                      else Refused(RequestIdReused)
        else if minted in db.workflows then reply == Refused(ConstraintViolation) && db' == db
        else
          var first := Snapshot(minted, AssessTask, canonical, None, [], None, 0, 1);
          && reply == Accepted(first)
          && db' == db.(workflows := db.workflows[minted := WorkflowRow(owner, first)],
                        starts := db.starts[key := StartRow(StartPayload(canonical), first)],
                        events := db.events + [WorkflowStarted(owner, minted)])
  {
    hide CanonicalizeTitle;
  }

  // ------------------------------------------------------------ events over runs

  function IsStart(id: Uuid): Event -> bool { (e: Event) => e.WorkflowStarted? && e.workflow == id }

  function IsCompletion(id: Uuid): Event -> bool { (e: Event) => e.WorkflowCompleted? && e.workflow == id }

  predicate Ended(db: Db, id: Uuid) { id in db.workflows && db.workflows[id].snapshot.state == Completed }

  /** One started event per workflow and one completed event per completed workflow, under its owner. */
  ghost predicate EventsTell(db: Db) {
    && (forall id: Uuid ::
          && Count(db.events, IsStart(id)) == (if id in db.workflows then 1 else 0)
          && Count(db.events, IsCompletion(id)) == (if Ended(db, id) then 1 else 0))
    && forall k :: 0 <= k < |db.events| && !db.events[k].SuggestionFinished? ==>
         Owned(db, db.events[k].owner, db.events[k].workflow)
  }

  /** Only suggestions were finished. */
  ghost predicate OnlyFinishes(db: Db, db': Db) {
    && db'.workflows == db.workflows && db.events <= db'.events
    && forall k :: |db.events| <= k < |db'.events| ==> db'.events[k].SuggestionFinished?
  }

  lemma {:induction false} NoneCounted(events: seq<Event>, more: seq<Event>, p: Event -> bool)
    requires forall k :: 0 <= k < |more| ==> !p(more[k])
    ensures Count(events + more, p) == Count(events, p)
  {
    if more == [] {
      assert events + more == events;
    } else {
      var last := |more| - 1;
      NoneCounted(events, more[..last], p);
      assert events + more == (events + more[..last]) + [more[last]];
      CountAppend(events + more[..last], more[last], p);
    }
  }

  lemma FinishesTell(db: Db, db': Db)
    requires EventsTell(db) && OnlyFinishes(db, db')
    ensures EventsTell(db')
  {
    hide Count;
    var more := db'.events[|db.events|..];
    assert db'.events == db.events + more;
    forall id: Uuid
      ensures Count(db'.events, IsStart(id)) == Count(db.events, IsStart(id))
      ensures Count(db'.events, IsCompletion(id)) == Count(db.events, IsCompletion(id))
    {
      NoneCounted(db.events, more, IsStart(id));
      NoneCounted(db.events, more, IsCompletion(id));
    }
  }

  lemma StartTells(db: Db, db': Db, owner: int, request: Uuid, s: Snapshot)
    requires EventsTell(db) && Opened(db, db', owner, request, s)
    ensures EventsTell(db')
  {
    hide Count, CanonicalTitle;
    var e := WorkflowStarted(owner, s.id);
    forall id: Uuid
      ensures Count(db'.events, IsStart(id)) == Count(db.events, IsStart(id)) + (if id == s.id then 1 else 0)
      ensures Count(db'.events, IsCompletion(id)) == Count(db.events, IsCompletion(id))
    {
      CountAppend(db.events, e, IsStart(id));
      CountAppend(db.events, e, IsCompletion(id));
    }
  }

  lemma ActionTells(db: Db, db': Db, row: ActionRow, todos: seq<TodoRow>)
    requires EventsTell(db) && Owned(db, row.owner, row.workflow)
    requires !Ended(db, row.workflow) && Wrote(db, db', row, todos)
    ensures EventsTell(db')
  {
    hide Count;
    var e := WorkflowCompleted(row.owner, row.workflow);
    if row.accepted.state == Completed {
      forall id: Uuid
        ensures Count(db'.events, IsStart(id)) == Count(db.events, IsStart(id))
        ensures Count(db'.events, IsCompletion(id))
             == Count(db.events, IsCompletion(id)) + (if id == row.workflow then 1 else 0)
      {
        CountAppend(db.events, e, IsStart(id));
        CountAppend(db.events, e, IsCompletion(id));
      }
    } else {
      assert db'.events == db.events;
    }
  }

  lemma AdvanceTells(db: Db, step: Step)
    requires WorkflowInv(db) && EventsTell(db) && step.Advance?
    ensures EventsTell(AdvanceWorkflow(db, step.owner, step.workflow, step.command, step.request, step.revision,
                                       step.step, step.minted).0)
  {
    var Advance(owner, id, command, request, revision, stepId, minted) := step;
    var db' := AdvanceWorkflow(db, owner, id, command, request, revision, stepId, minted).0;
    hide WorkflowInv, AdvanceWorkflow, EventsTell, Leads, Listed, UsableIds, IdsFor;
    var existing := FindAction(db.actions, owner, id, request);
    if existing.Some? {
      JournalledDecision(db, existing.value, command, revision, stepId, minted);
    } else {
      var row, todos := AdvanceDecision(db, owner, id, command, request, revision, stepId, minted);
      if db' != db { ActionTells(db, db', row, todos); }
    }
  }

  lemma OtherStepsFinish(s: System, step: Step)
    requires !step.Start? && !step.Advance?
    ensures OnlyFinishes(s.db, Next(s, step).db)
  {
    hide Latest, FindSuggestion, SnapshotOfRow, WorkflowStillCollects, Acceptable, NormalizeOptional, SetResult,
         Claimable, ConstraintsHold, CanonicalTitle, PastClaim, PastExpiry, ReplayReply, ActiveRefusal,
         SupersedePending;
  }

  lemma StepTells(s: System, step: Step)
    requires Inv(s) && EventsTell(s.db)
    ensures EventsTell(Next(s, step).db)
  {
    hide EventsTell, WorkflowInv, SuggestionInv, GrantsOk, AsksOk, DeliveriesOk, OnlyFinishes, StartWorkflow,
         AdvanceWorkflow, Opened;
    match step
    case Start(owner, title, request, id) =>
      StartCases(s.db, owner, title, request, id);
      var (db', reply) := StartWorkflow(s.db, owner, title, request, id);
      if db' != s.db { StartTells(s.db, db', owner, request, reply.snapshot); }
    case Advance(_, _, command, _, _, _, _) =>
      if WellFormedCommand(command) { AdvanceTells(s.db, step); }
    case _ =>
      OtherStepsFinish(s, step);
      FinishesTell(s.db, Next(s, step).db);
  }

  /**
   * In every run, the outbox holds one started event for each workflow and one completed
   * event for each completed one, under its owner, and no others of the kind.
   */
  lemma {:induction false} EventsTellTheRun(steps: seq<Step>)
    ensures EventsTell(Run(Initial, steps).db)
  {
    hide Next, Inv;
    if steps != [] {
      var init := steps[..|steps| - 1];
      EventsTellTheRun(init);
      InitialInv();
      RunKeepsInv(Initial, init);
      StepTells(Run(Initial, init), steps[|steps| - 1]);
    }
  }
}
