/**
 * The two services as they run: one mutable set of tables, and one method per
 * transaction. Every method is proved to do to the tables exactly what the
 * corresponding transaction function says.
 */
module Store {
  import opened Prelude
  import opened Titles
  import opened WorkflowDomain
  import opened Tables
  import WS = WorkflowService
  import opened SuggestionService
  import opened SuggestionTheorems

  lemma SweepBegins(db: Db, locked: set<Uuid>, now: int)
    ensures ExpireAll(db, [], locked, now) == db && Unlocked(db.suggestions, [], locked) == []
  {
  }

  lemma SweepGoesOn(db: Db, ids: seq<nat>, locked: set<Uuid>, now: int)
    requires ids != []
    ensures
      var init, id := ids[..|ids| - 1], ids[|ids| - 1];
      var skipped := id < |db.suggestions| && db.suggestions[id].workflow in locked;
      && ExpireAll(db, ids, locked, now)
         == (if skipped then ExpireAll(db, init, locked, now) else ExpireRow(ExpireAll(db, init, locked, now), id, now))
      && Unlocked(db.suggestions, ids, locked)
         == Unlocked(db.suggestions, init, locked) + (if skipped then [] else [id])
  {
    hide ExpireRow;
  }

  class TodoDatabase {
    var workflows: map<Uuid, WorkflowRow>
    var starts: map<(int, Uuid), StartRow>
    var actions: seq<ActionRow>
    var suggestions: seq<SuggestionRow>
    var todos: seq<TodoRow>
    var events: seq<Event>

    /** The tables as one value. */
    function Contents(): Db
      reads this
    {
      Db(workflows, starts, actions, suggestions, todos, events)
    }

    constructor ()
      ensures Contents() == EmptyDb
    {
      workflows, starts, actions, suggestions, todos, events := map[], map[], [], [], [], [];
    }

    // ------------------------------------------------------------ workflows

    method StartWorkflow(owner: int, title: Text, request: Uuid, minted: Uuid) returns (reply: WS.Reply)
      modifies this
      ensures (Contents(), reply) == WS.StartWorkflow(old(Contents()), owner, title, request, minted)
    {
      var initial := InitialSnapshot(minted, title);
      if initial.Err? { return WS.Refused(WS.Domain(initial.error)); }
      var snapshot := initial.value;
      var payload := StartPayload(snapshot.title);
      if (owner, request) !in starts {
        if minted in workflows { return WS.Refused(WS.ConstraintViolation); }
        starts := starts[(owner, request) := StartRow(payload, snapshot)];
        workflows := workflows[minted := WorkflowRow(owner, snapshot)];
        events := events + [WorkflowStarted(owner, minted)];
        return WS.Accepted(snapshot);
      }
      var existing := starts[(owner, request)];
      if existing.payload != payload { return WS.Refused(WS.RequestIdReused); }
      return WS.Accepted(existing.accepted);
    }

    /** The todos of an accepted confirmation, one insert at a time; the table refuses a repeated id. */
    method CreateTodos(owner: int, titles: seq<Text>, minted: nat -> Uuid)
      returns (created: seq<CreatedTodo>, rows: seq<TodoRow>, ok: bool)
      ensures ok <==> WS.UsableIds(todos, WS.FirstIds(minted, |titles|))
      ensures ok ==> created == Todos(titles, WS.FirstIds(minted, |titles|)) && rows == WS.TodoRows(owner, created)
    {
      created, rows := [], [];
      for i := 0 to |titles|
        invariant |created| == |rows| == i
        invariant forall k :: 0 <= k < i ==> created[k] == CreatedTodo(minted(k), titles[k], false)
        invariant forall k :: 0 <= k < i ==> rows[k] == TodoRow(owner, minted(k), titles[k], false)
        invariant WS.UsableIds(todos, WS.FirstIds(minted, i))
      {
        var id := minted(i);
        ghost var ids := WS.FirstIds(minted, |titles|);
        if exists k :: 0 <= k < |todos| && todos[k].id == id {
          assert ids[i] == id;
          return [], [], false;
        }
        if exists k :: 0 <= k < |created| && created[k].id == id {
          ghost var k :| 0 <= k < |created| && created[k].id == id;
          assert ids[k] == ids[i];
          return [], [], false;
        }
        assert WS.FirstIds(minted, i + 1) == WS.FirstIds(minted, i) + [id];
        created := created + [CreatedTodo(id, titles[i], false)];
        rows := rows + [TodoRow(owner, id, titles[i], false)];
      }
      ok := true;
    }

    method AdvanceWorkflow(owner: int, id: Uuid, command: Command, request: Uuid,
                           expectedRevision: int, step: StepId, minted: nat -> Uuid) returns (reply: WS.Reply)
      modifies this
      ensures (Contents(), reply)
           == WS.AdvanceWorkflow(old(Contents()), owner, id, command, request, expectedRevision, step, minted)
    {
      var payload := AdvancePayload(id, expectedRevision, step, command);
      if !(id in workflows && workflows[id].owner == owner) { return WS.NotFound; }
      var existing := FindAction(actions, owner, id, request);
      if existing.Some? {
        if existing.value.payload != payload { return WS.Refused(WS.RequestIdReused); }
        return WS.Accepted(existing.value.accepted);
      }
      var s := workflows[id].snapshot;
      if s.definition != CURRENT_DEFINITION { return WS.Refused(WS.Domain(UnsupportedDefinition)); }
      if step != StepOf(id, s.state) { return WS.Refused(WS.StaleWorkflowStep); }
      if expectedRevision != s.revision { return WS.Refused(WS.StaleWorkflowStep); }
      if s.state.Completed? || s.state.Cancelled? { return WS.Refused(WS.Domain(TerminalWorkflow)); }
      if s.revision >= MAX_WORKFLOW_REVISION { return WS.Refused(WS.RevisionExhausted); }
      var decision := Transition(s, command);
      if decision.Err? { return WS.Refused(WS.Domain(decision.error)); }
      var d := decision.value;
      var created, rows, ok := CreateTodos(owner, d.toCreate, minted);
      if !ok { return WS.Refused(WS.ConstraintViolation); }
      var accepted := s.(
        state := d.state, multipleSteps := d.multipleSteps, proposals := d.proposals,
        created := if d.toCreate == [] then None else Some(created), revision := s.revision + 1);
      workflows := workflows[id := WorkflowRow(owner, accepted)];
      actions := actions + [ActionRow(owner, id, request, payload, accepted)];
      todos := todos + rows;
      if d.state.Completed? { events := events + [WorkflowCompleted(owner, id)]; }
      assert accepted == Advanced(s, d, WS.FirstIds(minted, |d.toCreate|));
      assert rows == WS.NewTodos(ActionRow(owner, id, request, payload, accepted));
      assert old(events) + [] == old(events);
      return WS.Accepted(accepted);
    }

    // ---------------------------------------------------------- suggestions

    method ReserveSuggestion(owner: int, id: Uuid, request: Uuid, expectedRevision: int, step: StepId,
                             clarification: Option<Clarification>, queued: bool, now: int) returns (reply: ReserveReply)
      modifies this
      ensures (Contents(), reply)
           == Reserve(old(Contents()), owner, id, request, expectedRevision, step, clarification, queued, now)
    {
      var canonical := NormalizeOptional(clarification);
      if canonical.None? { return ReserveRefused(InvalidClarification); }
      if !(id in workflows && workflows[id].owner == owner) { return NoWorkflow; }
      var s := workflows[id].snapshot;
      var payload := SuggestPayload(id, expectedRevision, step, s.title, canonical.value);
      var existing := FindSuggestion(suggestions, owner, id, request);
      if existing.Some? {
        var row := suggestions[existing.value];
        if row.payload != payload { return ReserveRefused(RequestReused); }
        var snapshot := SnapshotOfRow(row);
        if snapshot.None? { return ReserveRefused(InvalidStoredSuggestion); }
        if row.status.Ready? || row.status.Failed? { return Replayed(snapshot.value); }
        var latest := Latest(suggestions, owner, id);
        if row.status.Pending? && latest == Some(existing.value) {
          if IsCloudRow(row) { return Replayed(snapshot.value); }
          return ReserveRefused(SuggestionInProgress);
        }
        return ReserveRefused(StaleSuggestion);
      }
      if s.definition != CURRENT_DEFINITION { return ReserveRefused(UnsupportedWorkflow); }
      if s.state != CollectTasks { return ReserveRefused(InvalidSuggestionState); }
      if step != StepOf(id, s.state) { return ReserveRefused(StaleStep); }
      if expectedRevision != s.revision { return ReserveRefused(StaleStep); }
      if queued && !CanonicalTitle(s.title) { return ReserveRefused(InvalidStoredSuggestion); }
      suggestions := SupersedePending(suggestions, owner, id);
      var row := NewRow(owner, id, request, payload, expectedRevision, step, s.title, canonical.value, queued, now);
      suggestions := suggestions + [row];
      return Reserved(|suggestions| - 1, s.title, canonical.value);
    }

    /** _set_result: the row ends with the provider's result and one event says so. */
    method SaveResult(i: nat, result: ProviderResult)
      requires i < |suggestions|
      modifies this`suggestions, this`events
      ensures Contents() == Rewrite(old(Contents()), i, SetResult(old(suggestions[i]), result),
                                    [Finished(old(suggestions[i]), OutcomeOf(result))])
    {
      var row := suggestions[i];
      match result {
        case Proposed(titles) =>
          suggestions := suggestions[i := row.(status := Ready, titles := titles, error := None)];
        case Failure(code) =>
          suggestions := suggestions[i := row.(status := Failed, titles := [], error := Some(code))];
      }
      var outcome := if result.Proposed? then ReadyOutcome else FailedOutcome;
      events := events + [SuggestionFinished(row.owner, row.workflow, outcome)];
    }

    /** _fail_row: a deadline passed, whoever noticed. */
    method TimeOut(i: nat)
      requires i < |suggestions|
      modifies this`suggestions, this`events
      ensures Contents() == Rewrite(old(Contents()), i, FailRow(old(suggestions[i])),
                                    [Finished(old(suggestions[i]), ExpiredOutcome)])
    {
      var row := suggestions[i];
      suggestions := suggestions[i := row.(status := Failed, titles := [], error := Some(Timeout))];
      events := events + [SuggestionFinished(row.owner, row.workflow, ExpiredOutcome)];
    }

    /** _supersede_row: no event, a newer request or state replaced this one. */
    method Supersede(i: nat)
      requires i < |suggestions|
      modifies this`suggestions
      ensures Contents() == Rewrite(old(Contents()), i, SupersedeRow(old(suggestions[i])), [])
    {
      suggestions := suggestions[i := suggestions[i].(status := Superseded, titles := [], error := None)];
      assert events + [] == events;
    }

    method FinishSuggestion(owner: int, id: Uuid, request: Uuid, result: ProviderResult) returns (reply: FinishReply)
      modifies this
      ensures (Contents(), reply) == FinishInline(old(Contents()), owner, id, request, result)
    {
      if !Acceptable(result) { return FinishRefused(InvalidResult); }
      if !(id in workflows && workflows[id].owner == owner) { return Discarded; }
      var found := FindSuggestion(suggestions, owner, id, request);
      if found.None? { return FinishRefused(StaleSuggestion); }
      var row := suggestions[found.value];
      var snapshot := SnapshotOfRow(row);
      if snapshot.None? { return FinishRefused(InvalidStoredSuggestion); }
      if row.status.Ready? || row.status.Failed? { return Saved(snapshot.value); }
      var latest := Latest(suggestions, owner, id);
      if !row.status.Pending? || latest != Some(found.value) { return FinishRefused(StaleSuggestion); }
      if !WorkflowStillCollects(Contents(), row) { return FinishRefused(StaleSuggestion); }
      SaveResult(found.value, result);
      return SavedRow(suggestions[found.value]);
    }

    method ClaimSuggestion(id: nat, now: int) returns (reply: ClaimReply)
      modifies this
      ensures (Contents(), reply) == SuggestionService.ClaimSuggestion(old(Contents()), id, now)
    {
      if id >= |suggestions| { return NoWork; }
      var row := suggestions[id];
      if row.status != Pending || !IsCloudRow(row) { return NoWork; }
      if row.goal.None? || !CanonicalTitle(row.goal.value) { return ClaimRefused(InvalidStoredSuggestion); }
      var clarification := NormalizeOptional(row.clarification);
      if clarification.None? { return ClaimRefused(InvalidStoredSuggestion); }
      if row.expiresAt.None? || now >= row.expiresAt.value {
        TimeOut(id);
        return CommittedRow(suggestions[id]);
      }
      if row.startedAt.Some? {
        if now < row.startedAt.value + CLAIM_TTL { return ClaimRefused(SuggestionInProgress); }
        TimeOut(id);
        return CommittedRow(suggestions[id]);
      }
      if !Claimable(Contents(), id) {
        Supersede(id);
        return CommittedRow(suggestions[id]);
      }
      var marked := row.(startedAt := Some(now));
      if !ConstraintsHold(marked) { return ClaimRefused(RejectedByConstraint); }
      suggestions := suggestions[id := marked];
      assert events + [] == events;
      return Granted(Claim(id, row.owner, now, row.goal.value, clarification.value));
    }

    method FinishClaimedSuggestion(claim: Claim, result: ProviderResult, now: int) returns (reply: FinishReply)
      modifies this
      ensures (Contents(), reply) == FinishClaimed(old(Contents()), claim, result, now)
    {
      if !Acceptable(result) { return FinishRefused(InvalidResult); }
      if claim.id >= |suggestions| { return Discarded; }
      var row := suggestions[claim.id];
      if row.owner != claim.owner || row.startedAt != Some(claim.startedAt)
         || row.status != Pending || !IsCloudRow(row) { return Discarded; }
      if NormalizeOptional(row.clarification).None? { return FinishRefused(InvalidStoredSuggestion); }
      if row.expiresAt.None? || now >= row.expiresAt.value || now >= row.startedAt.value + CLAIM_TTL {
        return Discarded;
      }
      var latest := Latest(suggestions, row.owner, row.workflow);
      if !WorkflowStillCollects(Contents(), row) || latest != Some(claim.id) {
        Supersede(claim.id);
        return SavedRow(suggestions[claim.id]);
      }
      SaveResult(claim.id, result);
      return SavedRow(suggestions[claim.id]);
    }

    /** One bounded sweep: the rows it reports are the first 100 overdue ones it could lock. */
    method ExpireSuggestions(locked: set<Uuid>, now: int) returns (expired: seq<nat>)
      modifies this`suggestions, this`events
      ensures Contents() == SuggestionService.ExpireSuggestions(old(Contents()), locked, now)
      ensures expired == Unlocked(old(suggestions), Candidates(old(suggestions), 0, now, EXPIRE_BATCH_LIMIT), locked)
    {
      hide Candidates, ExpireAll, Unlocked, Overdue;
      ghost var before := Contents();
      var ids := Candidates(suggestions, 0, now, EXPIRE_BATCH_LIMIT);
      expired := [];
      SweepBegins(before, locked, now);
      for k := 0 to |ids|
        invariant Contents() == ExpireAll(before, ids[..k], locked, now)
        invariant expired == Unlocked(before.suggestions, ids[..k], locked)
        invariant unchanged(`workflows) && unchanged(`starts) && unchanged(`actions) && unchanged(`todos)
      {
        assert ids[..k + 1][..k] == ids[..k];
        SweepReaches(before, ids, k, locked, now);
        SweepGoesOn(before, ids[..k + 1], locked, now);
        var id := ids[k];
        if suggestions[id].workflow !in locked {
          if Overdue(suggestions[id], now) {
            TimeOut(id);
            expired := expired + [id];
          }
        }
      }
      assert ids[..|ids|] == ids;
    }
  }
}
