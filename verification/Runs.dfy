/**
 * Runs of the whole system: workflow actions, reservations, inline finishes,
 * worker deliveries that may be duplicated or crash between their transactions,
 * and expiry, in any interleaving and with any clock readings.
 */
module Runs {
  import opened Prelude
  import opened Titles
  import opened WorkflowDomain
  import opened Tables
  import opened WorkflowService
  import opened SuggestionService
  import opened SuggestionInvariant
  import opened SuggestionTheorems

  /** One delivery of a task by the queue, between its transactions. */
  datatype Delivery =
    | Arrived(id: nat)
    | Calling(claim: Claim)
    | Answered(claim: Claim, result: ProviderResult)
    | Done

  /** One call of the provider: the row it is for, and the goal and clarification it is given. */
  datatype Ask = Ask(id: nat, goal: Text, clarification: Option<Clarification>)

  /** `grants` lists the calls of the provider, in order. */
  datatype System = System(db: Db, deliveries: seq<Delivery>, grants: seq<Ask>)

  const Initial := System(EmptyDb, [], [])

  datatype Step =
    | Start(owner: int, title: Text, request: Uuid, id: Uuid)
    | Advance(owner: int, workflow: Uuid, command: Command, request: Uuid, revision: int, step: StepId,
              minted: nat -> Uuid)
    | ReserveSuggestion(owner: int, workflow: Uuid, request: Uuid, revision: int, step: StepId,
                        clarification: Option<Clarification>, queued: bool, now: int)
    | FinishSuggestion(owner: int, workflow: Uuid, request: Uuid, result: ProviderResult)
    | Deliver(row: nat)
    | ClaimDelivery(delivery: nat, now: int)
    | AnswerDelivery(delivery: nat, result: ProviderResult)
    | SaveDelivery(delivery: nat, now: int)
    | CrashDelivery(delivery: nat)
    | Expire(row: nat, now: int)

  function AfterClaim(reply: ClaimReply): Delivery {
    if reply.Granted? then Calling(reply.claim) else Done
  }

  function AskOf(claim: Claim): Ask { Ask(claim.id, claim.goal, claim.clarification) }

  /** A proposal that cannot be stored is saved as invalid output instead. */
  function AfterSave(claim: Claim, result: ProviderResult, reply: FinishReply): Delivery {
    if reply.FinishRefused? && result.Proposed? then Answered(claim, Failure(InvalidOutput)) else Done
  }

  ghost function Next(s: System, step: Step): System {
    match step
    case Start(owner, title, request, id) =>
      s.(db := StartWorkflow(s.db, owner, title, request, id).0)
    case Advance(owner, workflow, command, request, revision, stepId, minted) =>
      if WellFormedCommand(command) then
        s.(db := AdvanceWorkflow(s.db, owner, workflow, command, request, revision, stepId, minted).0)
      else s
    case ReserveSuggestion(owner, workflow, request, revision, stepId, clarification, queued, now) =>
      var (db', reply) := Reserve(s.db, owner, workflow, request, revision, stepId, clarification, queued, now);
      var more := if reply.Reserved? && !queued then [Ask(reply.id, reply.goal, reply.clarification)] else [];
      s.(db := db', grants := s.grants + more)
    case FinishSuggestion(owner, workflow, request, result) =>
      s.(db := FinishInline(s.db, owner, workflow, request, result).0)
    case Deliver(row) => s.(deliveries := s.deliveries + [Arrived(row)])
    case ClaimDelivery(d, now) =>
      if d < |s.deliveries| && s.deliveries[d].Arrived? then
        var (db', reply) := ClaimSuggestion(s.db, s.deliveries[d].id, now);
        System(db', s.deliveries[d := AfterClaim(reply)],
               s.grants + (if reply.Granted? then [AskOf(reply.claim)] else []))
      else s
    case AnswerDelivery(d, result) =>
      if d < |s.deliveries| && s.deliveries[d].Calling? then
        s.(deliveries := s.deliveries[d := Answered(s.deliveries[d].claim, result)])
      else s
    case SaveDelivery(d, now) =>
      if d < |s.deliveries| && s.deliveries[d].Answered? then
        var claim, result := s.deliveries[d].claim, s.deliveries[d].result;
        var (db', reply) := FinishClaimed(s.db, claim, result, now);
        s.(db := db', deliveries := s.deliveries[d := AfterSave(claim, result, reply)])
      else s
    case CrashDelivery(d) =>
      if d < |s.deliveries| then s.(deliveries := s.deliveries[d := Done]) else s
    case Expire(row, now) => s.(db := ExpireRow(s.db, row, now))
  }

  ghost function Run(s: System, steps: seq<Step>): System {
    if steps == [] then s else Next(Run(s, steps[..|steps| - 1]), steps[|steps| - 1])
  }

  // ---------------------------------------------------------------- invariant

  function IsRow(i: nat): Ask -> bool { (g: Ask) => g.id == i }

  /** How often the provider has been called for row `i`, read off the row alone. */
  function TimesGranted(rows: seq<SuggestionRow>, i: nat): (n: nat)
    ensures n <= 1
  {
    if i < |rows| && (rows[i].queuedAt.None? || rows[i].startedAt.Some?) then 1 else 0
  }

  ghost predicate GrantsOk(rows: seq<SuggestionRow>, grants: seq<Ask>) {
    forall i: nat :: Count(grants, IsRow(i)) == TimesGranted(rows, i)
  }

  /** Row `id` was made from a request with this goal and clarification. */
  predicate MadeFor(rows: seq<SuggestionRow>, id: nat, goal: Text, clarification: Option<Clarification>) {
    && id < |rows| && rows[id].payload.SuggestPayload?
    && rows[id].payload.goal == goal && rows[id].payload.clarification == clarification
  }

  /** Every call of the provider is given what its row was made from. */
  ghost predicate AsksOk(rows: seq<SuggestionRow>, grants: seq<Ask>) {
    forall k :: 0 <= k < |grants| ==> MadeFor(rows, grants[k].id, grants[k].goal, grants[k].clarification)
  }

  predicate Holding(d: Delivery) { d.Calling? || d.Answered? }

  /** The claim is the one its row records, and carries what the row was made from. */
  predicate ClaimOk(rows: seq<SuggestionRow>, claim: Claim) {
    && MadeFor(rows, claim.id, claim.goal, claim.clarification)
    && rows[claim.id].owner == claim.owner && rows[claim.id].startedAt == Some(claim.startedAt)
  }

  /** The claims that deliveries hold are in order, one delivery per row. */
  ghost predicate DeliveriesOk(rows: seq<SuggestionRow>, deliveries: seq<Delivery>) {
    && (forall d :: 0 <= d < |deliveries| && Holding(deliveries[d]) ==>
          ClaimOk(rows, deliveries[d].claim))
    && (forall d, e :: 0 <= d < e < |deliveries| && Holding(deliveries[d]) && Holding(deliveries[e]) ==>
          deliveries[d].claim.id != deliveries[e].claim.id)
  }

  ghost predicate Inv(s: System) {
    && WorkflowInv(s.db)
    && SuggestionInv(s.db)
    && GrantsOk(s.db.suggestions, s.grants) && AsksOk(s.db.suggestions, s.grants)
    && DeliveriesOk(s.db.suggestions, s.deliveries)
  }

  /** What every later state preserves of an earlier one. */
  ghost predicate Onward(s: System, t: System) {
    && Extends(s.db, t.db)
    && RowsEvolve(s.db.suggestions, t.db.suggestions)
    && s.grants <= t.grants
  }

  lemma OnwardThrough(a: System, b: System, c: System)
    requires Onward(a, b) && Onward(b, c)
    ensures Onward(a, c)
  {
    RowsEvolveThrough(a.db.suggestions, b.db.suggestions, c.db.suggestions);
    hide RowsEvolve;
  }

  // ------------------------------------------------------------ kinds of step

  lemma InvParts(s: System)
    requires Inv(s)
    ensures WorkflowInv(s.db) && SuggestionInv(s.db) && WorkflowsCoherent(s.db)
  {
    hide WorkflowInv, SuggestionInv, GrantsOk, AsksOk, DeliveriesOk;
    WorkflowsAreCoherent(s.db);
  }

  lemma WorkflowsAreCoherent(db: Db)
    requires WorkflowInv(db)
    ensures WorkflowsCoherent(db)
  {
    hide Coherent, Linear, ActionsOk, TodosOk, StartsOk;
  }

  /** Only suggestions and events differ. */
  ghost predicate SameWorkflows(db: Db, db': Db) {
    db' == db.(suggestions := db'.suggestions, events := db'.events)
  }

  lemma SameWorkflowsKeepInv(db: Db, db': Db)
    requires WorkflowInv(db) && SameWorkflows(db, db')
    ensures WorkflowInv(db') && Extends(db, db')
  {
    hide Coherent, Linear, Journal, TodosOf;
    assert forall key :: StartAccurate(db, key) <==> StartAccurate(db', key);
    assert forall key, id :: StartedBy(db, key, id) <==> StartedBy(db', key, id);
  }

  lemma EvolvedDeliveries(rows: seq<SuggestionRow>, rows': seq<SuggestionRow>, deliveries: seq<Delivery>)
    requires DeliveriesOk(rows, deliveries) && RowsEvolve(rows, rows')
    ensures DeliveriesOk(rows', deliveries)
  {
  }

  lemma EvolvedAsks(rows: seq<SuggestionRow>, rows': seq<SuggestionRow>, grants: seq<Ask>, more: seq<Ask>)
    requires AsksOk(rows, grants) && RowsEvolve(rows, rows')
    requires |more| <= 1 && (more != [] ==> MadeFor(rows', more[0].id, more[0].goal, more[0].clarification))
    ensures AsksOk(rows', grants + more)
  {
  }

  lemma DroppedDelivery(rows: seq<SuggestionRow>, deliveries: seq<Delivery>, d: nat)
    requires DeliveriesOk(rows, deliveries) && d < |deliveries|
    ensures DeliveriesOk(rows, deliveries[d := Done])
  {
  }

  lemma RewrittenIsLocal(db: Db, db': Db, i: nat, row: SuggestionRow, events: seq<Event>)
    requires Rewritten(db, db', i, row, events)
    ensures SameWorkflows(db, db') && db'.suggestions == db.suggestions[i := row]
    ensures i < |db.suggestions| && row.queuedAt == db.suggestions[i].queuedAt
  {
    hide ProgressOk, AnnouncedBy;
  }

  /** Only row `i` changed, and `more` lists it when it was granted by that change. */
  lemma GrantsFollowRows(rows: seq<SuggestionRow>, rows': seq<SuggestionRow>, grants: seq<Ask>, more: seq<Ask>, i: nat)
    requires GrantsOk(rows, grants) && |rows| <= |rows'|
    requires forall j: nat :: j != i ==> TimesGranted(rows', j) == TimesGranted(rows, j)
    requires |more| == TimesGranted(rows', i) - TimesGranted(rows, i) && (more != [] ==> more[0].id == i)
    requires TimesGranted(rows, i) <= TimesGranted(rows', i)
    ensures GrantsOk(rows', grants + more)
  {
    hide TimesGranted;
    forall j: nat ensures Count(grants + more, IsRow(j)) == TimesGranted(rows', j) {
      GrantAppended(grants, more, j);
      assert Count(grants, IsRow(j)) == TimesGranted(rows, j);
      hide Count;
    }
  }

  /** Row `i` is written over without touching its claim marker. */
  lemma MarkerKept(s: System, db': Db, i: nat, row: SuggestionRow, events: seq<Event>)
    requires Inv(s) && Rewritten(s.db, db', i, row, events)
    requires row.startedAt == s.db.suggestions[i].startedAt
    ensures Inv(s.(db := db')) && Onward(s, s.(db := db'))
  {
    hide WorkflowInv, SuggestionInv, Extends, Rewritten, DeliveriesOk, RowsEvolve, GrantsOk, AsksOk, SameWorkflows;
    RewrittenIsLocal(s.db, db', i, row, events);
    RewrittenKeepsInv(s.db, db', i, row, events);
    SameWorkflowsKeepInv(s.db, db');
    EvolvedDeliveries(s.db.suggestions, db'.suggestions, s.deliveries);
    GrantsFollowRows(s.db.suggestions, db'.suggestions, s.grants, [], i);
    EvolvedAsks(s.db.suggestions, db'.suggestions, s.grants, []);
    assert s.grants + [] == s.grants;
  }

  lemma StaysPut(s: System)
    ensures Onward(s, s)
  {
    ExtendsItself(s.db);
  }

  lemma WorkflowStep(s: System, db': Db, events: seq<Event>)
    requires Inv(s) && WorkflowInv(db') && Extends(s.db, db') && WorkflowsMoveOn(s.db, db', events)
    ensures Inv(s.(db := db')) && Onward(s, s.(db := db'))
  {
    hide WorkflowInv, SuggestionInv, Extends, GrantsOk, AsksOk, DeliveriesOk, WorkflowsMoveOn, RowsEvolve;
    MovingOnKeepsInv(s.db, db', events);
    NoRowMoves(s.db, db', events);
  }

  lemma NoRowMoves(db: Db, db': Db, events: seq<Event>)
    requires WorkflowsMoveOn(db, db', events)
    ensures db'.suggestions == db.suggestions && RowsEvolve(db.suggestions, db'.suggestions)
  {
    hide Coherent;
  }

  lemma OpenedMovesOn(db: Db, db': Db, owner: int, request: Uuid, s: Snapshot)
    requires WorkflowsCoherent(db) && Opened(db, db', owner, request, s)
    ensures WorkflowsMoveOn(db, db', [WorkflowStarted(owner, s.id)])
  {
    hide CanonicalTitle;
  }

  lemma StartStep(s: System, owner: int, title: Text, request: Uuid, id: Uuid)
    requires Inv(s)
    ensures Inv(Next(s, Start(owner, title, request, id))) && Onward(s, Next(s, Start(owner, title, request, id)))
  {
    hide StartWorkflow, WorkflowInv, SuggestionInv, GrantsOk, DeliveriesOk, Opened, CanonicalizeTitle, Onward,
         Extends;
    var (db', reply) := StartWorkflow(s.db, owner, title, request, id);
    StartCases(s.db, owner, title, request, id);
    if db' == s.db {
      StaysPut(s);
    } else {
      StartKeepsInv(s.db, owner, title, request, id);
      StartExtends(s.db, owner, title, request, id);
      InvParts(s);
      OpenedMovesOn(s.db, db', owner, request, reply.snapshot);
      WorkflowStep(s, db', [WorkflowStarted(owner, id)]);
    }
  }

  lemma AppliedMovesOn(db: Db, db': Db, row: ActionRow)
    requires WorkflowsOk(db) && Applied(db, db', row)
    ensures WorkflowsMoveOn(db, db',
              if row.accepted.state.Completed? then [WorkflowCompleted(row.owner, row.workflow)] else [])
  {
    hide Recorded, Linear, UsableIds, NewTodos, FindAction, Journal, StartOf, CreatedIds, Coherent;
    RecordedFacts(db.workflows[row.workflow].snapshot, row);
    CoherentIsBounded(row.accepted);
    forall id | id in db.workflows ensures db.workflows[id].snapshot.revision <= MAX_WORKFLOW_REVISION {
      CoherentIsBounded(db.workflows[id].snapshot);
    }
  }

  lemma CoherentIsBounded(s: Snapshot)
    requires Coherent(s)
    ensures s.revision <= MAX_WORKFLOW_REVISION
  {
  }

  lemma AdvanceStep(s: System, step: Step)
    requires Inv(s) && step.Advance? && WellFormedCommand(step.command)
    ensures Inv(Next(s, step)) && Onward(s, Next(s, step))
  {
    hide AdvanceWorkflow, SuggestionInv, GrantsOk, DeliveriesOk, WorkflowsOk, ActionsOk, TodosOk, StartsOk, Applied,
         Extends, WellFormedCommand;
    var Advance(owner, id, command, request, revision, stepId, minted) := step;
    var db' := AdvanceWorkflow(s.db, owner, id, command, request, revision, stepId, minted).0;
    var row := AdvanceCases(s.db, owner, id, command, request, revision, stepId, minted);
    AdvanceKeepsInv(s.db, owner, id, command, request, revision, stepId, minted);
    AdvanceExtends(s.db, owner, id, command, request, revision, stepId, minted);
    if db' == s.db {
      StaysPut(s);
    } else {
      AppliedMovesOn(s.db, db', row);
      WorkflowStep(s, db', if row.accepted.state.Completed? then [WorkflowCompleted(row.owner, row.workflow)] else []);
    }
  }

  lemma GrantAppended(grants: seq<Ask>, more: seq<Ask>, i: nat)
    requires |more| <= 1
    ensures Count(grants + more, IsRow(i))
         == Count(grants, IsRow(i)) + (if more != [] && more[0].id == i then 1 else 0)
  {
    if more == [] {
      assert grants + more == grants;
    } else {
      assert more == [more[0]];
      CountAppend(grants, more[0], IsRow(i));
    }
  }

  lemma AppendedGrants(db: Db, db': Db, row: SuggestionRow)
    requires Appended(db, db', row)
    ensures SameWorkflows(db, db') && |db'.suggestions| == |db.suggestions| + 1
    ensures forall j: nat :: j != |db.suggestions| ==>
              TimesGranted(db'.suggestions, j) == TimesGranted(db.suggestions, j)
    ensures TimesGranted(db.suggestions, |db.suggestions|) == 0
    ensures TimesGranted(db'.suggestions, |db.suggestions|) == if row.queuedAt.None? then 1 else 0
  {
    hide InputsOk, ProgressOk, FindSuggestion;
  }

  lemma NewRowIsAsked(db: Db, db': Db, row: SuggestionRow)
    requires Appended(db, db', row) && row.payload.SuggestPayload?
    ensures MadeFor(db'.suggestions, |db.suggestions|, row.payload.goal, row.payload.clarification)
  {
    hide InputsOk, ProgressOk, FindSuggestion;
  }

  lemma ReserveStep(s: System, step: Step)
    requires Inv(s) && step.ReserveSuggestion?
    ensures Inv(Next(s, step)) && Onward(s, Next(s, step))
  {
    hide Reserve, WorkflowInv, SuggestionInv, WorkflowStillCollects, Appended, Extends, WorkflowsCoherent,
         DeliveriesOk, RowsEvolve, SameWorkflows, GrantsOk, AsksOk;
    var ReserveSuggestion(owner, id, request, revision, stepId, clarification, queued, now) := step;
    var (db', reply) := Reserve(s.db, owner, id, request, revision, stepId, clarification, queued, now);
    InvParts(s);
    var row := ReserveCases(s.db, owner, id, request, revision, stepId, clarification, queued, now);
    if !reply.Reserved? {
      StaysPut(s);
      assert s.grants + [] == s.grants;
    } else {
      AppendedKeepsInv(s.db, db', row);
      AppendedGrants(s.db, db', row);
      SameWorkflowsKeepInv(s.db, db');
      EvolvedDeliveries(s.db.suggestions, db'.suggestions, s.deliveries);
      var more := if !queued then [Ask(reply.id, reply.goal, reply.clarification)] else [];
      NewRowIsAsked(s.db, db', row);
      GrantsFollowRows(s.db.suggestions, db'.suggestions, s.grants, more, reply.id);
      EvolvedAsks(s.db.suggestions, db'.suggestions, s.grants, more);
    }
  }

  lemma FinishingIs(s: System, step: Step)
    requires step.FinishSuggestion?
    ensures Next(s, step) == s.(db := FinishInline(s.db, step.owner, step.workflow, step.request, step.result).0)
  {
    hide FinishInline;
  }

  lemma SavingIs(s: System, step: Step)
    requires step.SaveDelivery? && step.delivery < |s.deliveries| && s.deliveries[step.delivery].Answered?
    ensures
      var delivery := s.deliveries[step.delivery];
      Next(s, step).db == FinishClaimed(s.db, delivery.claim, delivery.result, step.now).0
  {
    hide FinishClaimed, AfterSave;
  }

  lemma ExpiringIs(s: System, step: Step)
    requires step.Expire?
    ensures Next(s, step) == s.(db := ExpireRow(s.db, step.row, step.now))
  {
    hide ExpireRow;
  }

  lemma FinishStep(s: System, step: Step)
    requires Inv(s) && step.FinishSuggestion?
    ensures Inv(Next(s, step)) && Onward(s, Next(s, step))
  {
    hide Next, FinishInline, Inv, WorkflowStillCollects, Onward, ProgressOk, AnnouncedBy;
    FinishingIs(s, step);
    InvParts(s);
    var FinishSuggestion(owner, id, request, result) := step;
    var db' := FinishInline(s.db, owner, id, request, result).0;
    var i, row, events := FinishInlineCases(s.db, owner, id, request, result);
    if db' == s.db {
      StaysPut(s);
    } else {
      assert row.startedAt == s.db.suggestions[i].startedAt;
      MarkerKept(s, db', i, row, events);
    }
  }

  lemma ExpireStep(s: System, step: Step)
    requires Inv(s) && step.Expire?
    ensures Inv(Next(s, step)) && Onward(s, Next(s, step))
  {
    hide Next, ExpireRow, Inv, Rewritten, Onward;
    ExpiringIs(s, step);
    InvParts(s);
    var db' := ExpireRow(s.db, step.row, step.now);
    var row, events := ExpireCases(s.db, step.row, step.now);
    if db' == s.db { StaysPut(s); } else { MarkerKept(s, db', step.row, row, events); }
  }

  lemma DropStep(s: System, d: nat)
    requires Inv(s) && d < |s.deliveries|
    ensures Inv(s.(deliveries := s.deliveries[d := Done])) && Onward(s, s.(deliveries := s.deliveries[d := Done]))
  {
    hide WorkflowInv, SuggestionInv, GrantsOk, AsksOk, Onward;
    DroppedDelivery(s.db.suggestions, s.deliveries, d);
    StaysPut(s);
    hide DeliveriesOk;
    OnwardIgnoresDeliveries(s, s.deliveries[d := Done]);
  }

  lemma OnwardIgnoresDeliveries(s: System, deliveries: seq<Delivery>)
    ensures Onward(s, s.(deliveries := deliveries))
  {
    StaysPut(s);
  }

  /** A granted claim: the row is marked, the delivery holds the claim, and the grant is counted. */
  lemma GrantStep(s: System, d: nat, db': Db, claim: Claim, row: SuggestionRow, events: seq<Event>)
    requires Inv(s) && d < |s.deliveries|
    requires Rewritten(s.db, db', claim.id, row, events)
    requires row == s.db.suggestions[claim.id].(startedAt := Some(claim.startedAt))
    requires s.db.suggestions[claim.id].startedAt.None? && row.queuedAt.Some?
    requires MadeFor(s.db.suggestions, claim.id, claim.goal, claim.clarification) && claim.owner == row.owner
    ensures
      var t := System(db', s.deliveries[d := Calling(claim)], s.grants + [AskOf(claim)]);
      Inv(t) && Onward(s, t)
  {
    hide WorkflowInv, SuggestionInv, Extends, Evolves, ProgressOk, AnnouncedBy, DeliveriesOk, RowsEvolve, GrantsOk,
         AsksOk, SameWorkflows;
    RewrittenIsLocal(s.db, db', claim.id, row, events);
    RewrittenKeepsInv(s.db, db', claim.id, row, events);
    SameWorkflowsKeepInv(s.db, db');
    GrantDelivery(s.db.suggestions, db'.suggestions, s.deliveries, d, claim);
    GrantsFollowRows(s.db.suggestions, db'.suggestions, s.grants, [AskOf(claim)], claim.id);
    EvolvedAsks(s.db.suggestions, db'.suggestions, s.grants, [AskOf(claim)]);
  }

  lemma GrantDelivery(rows: seq<SuggestionRow>, rows': seq<SuggestionRow>, deliveries: seq<Delivery>, d: nat,
                      claim: Claim)
    requires DeliveriesOk(rows, deliveries) && RowsEvolve(rows, rows')
    requires d < |deliveries| && claim.id < |rows| && rows[claim.id].startedAt.None?
    requires rows'[claim.id].startedAt == Some(claim.startedAt)
    requires MadeFor(rows, claim.id, claim.goal, claim.clarification) && claim.owner == rows[claim.id].owner
    ensures DeliveriesOk(rows', deliveries[d := Calling(claim)])
  {
    EvolvedDeliveries(rows, rows', deliveries);
  }

  lemma ClaimStep(s: System, step: Step)
    requires Inv(s) && step.ClaimDelivery?
    ensures Inv(Next(s, step)) && Onward(s, Next(s, step))
  {
    hide ClaimSuggestion, Inv, Onward;
    var d := step.delivery;
    if d < |s.deliveries| && s.deliveries[d].Arrived? {
      var id := s.deliveries[d].id;
      if ClaimSuggestion(s.db, id, step.now).1.Granted? {
        GrantedClaim(s, d, id, step.now);
      } else {
        UngrantedClaim(s, d, id, step.now);
        assert s.grants + [] == s.grants;
      }
    } else {
      StaysPut(s);
    }
  }

  lemma GrantedClaim(s: System, d: nat, id: nat, now: int)
    requires Inv(s) && d < |s.deliveries| && ClaimSuggestion(s.db, id, now).1.Granted?
    ensures
      var (db', reply) := ClaimSuggestion(s.db, id, now);
      var t := System(db', s.deliveries[d := Calling(reply.claim)], s.grants + [AskOf(reply.claim)]);
      Inv(t) && Onward(s, t)
  {
    hide ClaimSuggestion, Inv, Onward, Evolves, ProgressOk, AnnouncedBy;
    InvParts(s);
    var row, events := ClaimCases(s.db, id, now);
    var (db', reply) := ClaimSuggestion(s.db, id, now);
    InvOfRow(s.db, id);
    PayloadOf(s.db, s.db.suggestions[id]);
    GrantStep(s, d, db', reply.claim, row, events);
  }

  /** A claim that is not granted leaves its delivery done. */
  lemma UngrantedClaim(s: System, d: nat, id: nat, now: int)
    requires Inv(s) && d < |s.deliveries| && !ClaimSuggestion(s.db, id, now).1.Granted?
    ensures
      var t := System(ClaimSuggestion(s.db, id, now).0, s.deliveries[d := Done], s.grants);
      Inv(t) && Onward(s, t)
  {
    hide ClaimSuggestion, Inv, Onward, Rewritten;
    InvParts(s);
    var row, events := ClaimCases(s.db, id, now);
    var db' := ClaimSuggestion(s.db, id, now).0;
    var mid := s.(db := db');
    if db' == s.db { StaysPut(s); } else { MarkerKept(s, db', id, row, events); }
    DropStep(mid, d);
    OnwardThrough(s, mid, mid.(deliveries := mid.deliveries[d := Done]));
  }

  lemma SwapAnswer(s: System, d: nat, result: ProviderResult)
    requires Inv(s) && d < |s.deliveries| && Holding(s.deliveries[d])
    ensures
      var t := s.(deliveries := s.deliveries[d := Answered(s.deliveries[d].claim, result)]);
      Inv(t) && Onward(s, t)
  {
    hide WorkflowInv, SuggestionInv, GrantsOk, AsksOk;
    StaysPut(s);
  }

  /** The database part of a claimed save. */
  lemma SavedRow(s: System, claim: Claim, result: ProviderResult, now: int)
    requires Inv(s)
    ensures var mid := s.(db := FinishClaimed(s.db, claim, result, now).0); Inv(mid) && Onward(s, mid)
  {
    hide FinishClaimed, Inv, Rewritten, Onward, WorkflowStillCollects;
    InvParts(s);
    var db' := FinishClaimed(s.db, claim, result, now).0;
    var row, events := FinishClaimedCases(s.db, claim, result, now);
    if db' == s.db { StaysPut(s); } else { MarkerKept(s, db', claim.id, row, events); }
  }

  lemma AfterSaveIs(claim: Claim, result: ProviderResult, reply: FinishReply)
    ensures AfterSave(claim, result, reply) in {Done, Answered(claim, Failure(InvalidOutput))}
    ensures Holding(Answered(claim, result))
  {
  }

  lemma SaveStep(s: System, step: Step)
    requires Inv(s) && step.SaveDelivery?
    ensures Inv(Next(s, step)) && Onward(s, Next(s, step))
  {
    hide Inv, Onward, FinishClaimed, AfterSave, Holding;
    var d := step.delivery;
    if d < |s.deliveries| && s.deliveries[d].Answered? {
      var claim, result := s.deliveries[d].claim, s.deliveries[d].result;
      var (db', reply) := FinishClaimed(s.db, claim, result, step.now);
      SavedRow(s, claim, result, step.now);
      var mid := s.(db := db');
      var after := AfterSave(claim, result, reply);
      assert Next(s, step) == mid.(deliveries := mid.deliveries[d := after]);
      AfterSaveIs(claim, result, reply);
      if after.Done? { DropStep(mid, d); } else { SwapAnswer(mid, d, Failure(InvalidOutput)); }
      OnwardThrough(s, mid, mid.(deliveries := mid.deliveries[d := after]));
    } else {
      StaysPut(s);
    }
  }

  lemma ArrivalStep(s: System, row: nat)
    requires Inv(s)
    ensures
      var t := s.(deliveries := s.deliveries + [Arrived(row)]);
      Inv(t) && Onward(s, t)
  {
    hide WorkflowInv, SuggestionInv, GrantsOk, AsksOk;
    StaysPut(s);
  }

  /** Every step keeps the invariant and everything a later state may rely on. */
  lemma StepKeepsInv(s: System, step: Step)
    requires Inv(s)
    ensures Inv(Next(s, step)) && Onward(s, Next(s, step))
  {
    hide Inv, Onward, StartWorkflow, AdvanceWorkflow, Reserve, FinishInline, ClaimSuggestion, FinishClaimed,
         ExpireRow;
    match step
    case Start(owner, title, request, id) => StartStep(s, owner, title, request, id);
    case Advance(_, _, command, _, _, _, _) =>
      if WellFormedCommand(command) { AdvanceStep(s, step); } else { StaysPut(s); }
    case ReserveSuggestion(_, _, _, _, _, _, _, _) => ReserveStep(s, step);
    case FinishSuggestion(_, _, _, _) => FinishStep(s, step);
    case Deliver(row) => ArrivalStep(s, row);
    case ClaimDelivery(_, _) => ClaimStep(s, step);
    case AnswerDelivery(d, result) =>
      if d < |s.deliveries| && s.deliveries[d].Calling? { SwapAnswer(s, d, result); } else { StaysPut(s); }
    case SaveDelivery(_, _) => SaveStep(s, step);
    case CrashDelivery(d) =>
      if d < |s.deliveries| { DropStep(s, d); } else { StaysPut(s); }
    case Expire(_, _) => ExpireStep(s, step);
  }

  // --------------------------------------------------------------------- runs

  lemma InitialInv()
    ensures Inv(Initial)
  {
  }

  lemma {:induction false} RunKeepsInv(s: System, steps: seq<Step>)
    requires Inv(s)
    ensures Inv(Run(s, steps)) && Onward(s, Run(s, steps))
    decreases |steps|
  {
    hide Inv, Onward, Next;
    if steps == [] {
      StaysPut(s);
    } else {
      var init := steps[..|steps| - 1];
      RunKeepsInv(s, init);
      StepKeepsInv(Run(s, init), steps[|steps| - 1]);
      OnwardThrough(s, Run(s, init), Run(s, steps));
    }
  }

  lemma {:induction false} RunSplits(s: System, steps: seq<Step>, more: seq<Step>)
    ensures Run(s, steps + more) == Run(Run(s, steps), more)
  {
    hide Next;
    if more == [] {
      assert steps + more == steps;
    } else {
      var last := |more| - 1;
      assert (steps + more)[..|steps + more| - 1] == steps + more[..last];
      RunSplits(s, steps, more[..last]);
    }
  }

  /** In every run, the provider is called at most once for each suggestion. */
  lemma GrantedAtMostOnce(steps: seq<Step>, id: nat)
    ensures Count(Run(Initial, steps).grants, IsRow(id)) <= 1
  {
    InitialInv();
    RunKeepsInv(Initial, steps);
    hide Run, WorkflowInv, SuggestionInv, DeliveriesOk;
    var t := Run(Initial, steps);
    assert Count(t.grants, IsRow(id)) == TimesGranted(t.db.suggestions, id);
  }

  /** A claim marker, once written, is there in every later state of the run. */
  lemma MarkerIsPermanent(steps: seq<Step>, more: seq<Step>, i: nat)
    requires i < |Run(Initial, steps).db.suggestions|
    ensures
      var s := Run(Initial, steps);
      var t := Run(s, more);
      && i < |t.db.suggestions|
      && (s.db.suggestions[i].startedAt.Some? ==> t.db.suggestions[i].startedAt == s.db.suggestions[i].startedAt)
  {
    InitialInv();
    RunKeepsInv(Initial, steps);
    RunKeepsInv(Run(Initial, steps), more);
    hide Run, Inv, Extends;
  }

  /** Ready, failed and superseded rows never change again, titles and error included. */
  lemma EndedRowsAreFrozen(steps: seq<Step>, more: seq<Step>, i: nat)
    requires i < |Run(Initial, steps).db.suggestions|
    requires Run(Initial, steps).db.suggestions[i].status != Pending
    ensures
      var s := Run(Initial, steps);
      i < |Run(s, more).db.suggestions| && Run(s, more).db.suggestions[i] == s.db.suggestions[i]
  {
    InitialInv();
    RunKeepsInv(Initial, steps);
    RunKeepsInv(Run(Initial, steps), more);
    hide Run, Inv, Extends;
  }

  /** In every reachable state a workflow has at most one pending suggestion, and it is the newest one. */
  lemma PendingIsUniqueAndNewest(steps: seq<Step>, i: nat)
    requires i < |Run(Initial, steps).db.suggestions| && Run(Initial, steps).db.suggestions[i].status == Pending
    ensures
      var rows := Run(Initial, steps).db.suggestions;
      && Latest(rows, rows[i].owner, rows[i].workflow) == Some(i)
      && forall j :: 0 <= j < |rows| && j != i && rows[j].workflow == rows[i].workflow ==>
          j < i && rows[j].status != Pending
  {
    InitialInv();
    RunKeepsInv(Initial, steps);
    hide Run, WorkflowInv, GrantsOk, DeliveriesOk;
    PendingIsLatest(Run(Initial, steps).db, i);
    hide RowsOk, Latest, EventsCountRows, RequestsUnique;
  }

  /** Along every run: one suggestion_finished event per ready or failed row, "ready" for the ready ones. */
  lemma FinishedEventsCountEndedRows(steps: seq<Step>, id: Uuid)
    ensures
      var db := Run(Initial, steps).db;
      && Count(db.events, EndedEvent(id)) == Count(db.suggestions, EndedRow(id))
      && Count(db.events, ReadyEvent(id)) == Count(db.suggestions, ReadyRow(id))
  {
    InitialInv();
    RunKeepsInv(Initial, steps);
    hide Run, Count;
  }

  /** No step of any run turns a row ready once its workflow has left the row's base revision. */
  lemma NoStaleReady(steps: seq<Step>, step: Step, i: nat)
    requires TurnsReady(Run(Initial, steps).db, Run(Initial, steps + [step]).db, i)
    ensures
      var db := Run(Initial, steps).db;
      && WorkflowStillCollects(db, db.suggestions[i])
      && db.workflows[db.suggestions[i].workflow].snapshot.revision == db.suggestions[i].baseRevision
  {
    hide Next, Inv, WorkflowStillCollects;
    InitialInv();
    RunKeepsInv(Initial, steps);
    RunEndsWith(Initial, steps, step);
    var s := Run(Initial, steps);
    ReadyStep(s, step, i);
    CollectsAtItsBase(s.db, s.db.suggestions[i]);
  }

  lemma CollectsAtItsBase(db: Db, row: SuggestionRow)
    requires WorkflowStillCollects(db, row)
    ensures row.workflow in db.workflows && db.workflows[row.workflow].snapshot.revision == row.baseRevision
  {
  }

  lemma StillNotReady(db: Db, i: nat)
    ensures !TurnsReady(db, db, i)
  {
  }

  lemma WorkflowsMakeNothingReady(s: System, step: Step, i: nat)
    requires step.Start? || step.Advance?
    ensures !TurnsReady(s.db, Next(s, step).db, i)
  {
    hide CanonicalizeTitle, WellFormedCommand, Transition, AdvanceRefusal, FindAction, UsableIds, NewTodos, Advanced;
  }

  lemma ReservingMakesNothingReady(s: System, step: Step, i: nat)
    requires step.ReserveSuggestion?
    ensures !TurnsReady(s.db, Next(s, step).db, i)
  {
    hide FindSuggestion, NormalizeOptional, ActiveRefusal, CanonicalTitle, ReplayReply, NewRow;
  }

  lemma ClaimingMakesNothingReady(db: Db, id: nat, now: int, i: nat)
    ensures !TurnsReady(db, ClaimSuggestion(db, id, now).0, i)
  {
    hide SnapshotOfRow, NormalizeOptional, CanonicalTitle, ConstraintsHold, Claimable, PastExpiry, PastClaim;
  }

  lemma ExpiringMakesNothingReady(db: Db, id: nat, now: int, i: nat)
    ensures !TurnsReady(db, ExpireRow(db, id, now), i)
  {
    hide Overdue;
  }

  /** Only an inline finish or a saved answer turns a row ready. */
  lemma OnlyFinishingReadies(s: System, step: Step, i: nat)
    requires TurnsReady(s.db, Next(s, step).db, i)
    ensures
      || step.FinishSuggestion?
      || (step.SaveDelivery? && step.delivery < |s.deliveries| && s.deliveries[step.delivery].Answered?)
  {
    hide FinishInline, FinishClaimed, StartWorkflow, AdvanceWorkflow, Reserve, ClaimSuggestion, ExpireRow,
         WellFormedCommand, TurnsReady, AfterClaim, AfterSave;
    StillNotReady(s.db, i);
    match step
    case ClaimDelivery(d, now) =>
      if d < |s.deliveries| && s.deliveries[d].Arrived? {
        ClaimingMakesNothingReady(s.db, s.deliveries[d].id, now, i);
      }
    case Expire(id, now) => ExpiringMakesNothingReady(s.db, id, now, i);
    case Start(_, _, _, _) => WorkflowsMakeNothingReady(s, step, i);
    case Advance(_, _, _, _, _, _, _) => WorkflowsMakeNothingReady(s, step, i);
    case ReserveSuggestion(_, _, _, _, _, _, _, _) => ReservingMakesNothingReady(s, step, i);
    case _ =>
  }

  lemma ReadyStep(s: System, step: Step, i: nat)
    requires Inv(s) && TurnsReady(s.db, Next(s, step).db, i)
    ensures i < |s.db.suggestions| && WorkflowStillCollects(s.db, s.db.suggestions[i])
  {
    hide WorkflowStillCollects, Inv, FinishInline, FinishClaimed, Next;
    OnlyFinishingReadies(s, step, i);
    InvParts(s);
    if step.FinishSuggestion? {
      FinishingIs(s, step);
      ReadyOnlyAtItsBase(s.db, Claim(0, 0, 0, [], None), step.owner, step.workflow, step.request, step.result, 0, i);
    } else {
      var delivery := s.deliveries[step.delivery];
      SavingIs(s, step);
      ReadyOnlyAtItsBase(s.db, delivery.claim, 0, Uuid(0), Uuid(0), delivery.result, step.now, i);
    }
  }

  // -------------------------------------------------- workflows over a run

  /**
   * In every reachable state each workflow's journal is a linear history of
   * accepted actions from its start, as long as its revision, and its todos are
   * its proposals once it is completed.
   */
  lemma EveryHistoryIsLinear(steps: seq<Step>, id: Uuid)
    requires id in Run(Initial, steps).db.workflows
    ensures
      var db := Run(Initial, steps).db;
      var s, owner := db.workflows[id].snapshot, db.workflows[id].owner;
      var journal := Journal(db.actions, id);
      && Linear(StartOf(id, s.title), journal, s)
      && |journal| == s.revision <= s.revision + Rank(s.state) <= 4
      && OneTodoPerProposal(s, owner, TodosOf(journal))
      && forall t :: t in TodosOf(journal) ==> t in db.todos
  {
    InitialInv();
    RunKeepsInv(Initial, steps);
    var db := Run(Initial, steps).db;
    hide Run, SuggestionInv, GrantsOk, DeliveriesOk;
    CreatedTodosAreProposals(db, id);
    hide OneTodoPerProposal, Journal, TodosOf, ActionsOk, TodosOk, StartsOk, Recorded;
  }

  /**
   * A request accepted at some point of a run is answered with the same snapshot,
   * and changes nothing, whenever it is sent again later in that run.
   */
  lemma AcceptedOnceForAll(steps: seq<Step>, step: Step, more: seq<Step>, minted: nat -> Uuid, snapshot: Snapshot)
    requires step.Advance? && WellFormedCommand(step.command)
    requires
      var db := Run(Initial, steps).db;
      AdvanceWorkflow(db, step.owner, step.workflow, step.command, step.request, step.revision, step.step,
                      step.minted).1
        == Accepted(snapshot)
    ensures
      var db := Run(Next(Run(Initial, steps), step), more).db;
      AdvanceWorkflow(db, step.owner, step.workflow, step.command, step.request, step.revision, step.step, minted)
        == (db, Accepted(snapshot))
  {
    InitialInv();
    RunKeepsInv(Initial, steps);
    var s := Run(Initial, steps);
    hide Run;
    StepKeepsInv(s, step);
    var t := Next(s, step);
    RunKeepsInv(t, more);
    hide SuggestionInv, GrantsOk, DeliveriesOk, RowsEvolve;
    AcceptedIsJournalled(s.db, step.owner, step.workflow, step.command, step.request, step.revision, step.step,
                         step.minted);
    hide AdvanceWorkflow, WorkflowInv, Extends, AdvanceRecorded;
    ResentAdvance(t.db, Run(t, more).db, step.owner, step.workflow, step.command, step.request,
                  step.revision, step.step, minted, snapshot);
  }

  // ------------------------------------------------------------------- sweeps

  /** The expiry steps of one sweep. */
  function SweepSteps(db: Db, ids: seq<nat>, locked: set<Uuid>, now: int): seq<Step> {
    if ids == [] then []
    else
      var init, id := ids[..|ids| - 1], ids[|ids| - 1];
      SweepSteps(db, init, locked, now)
        + (if id < |db.suggestions| && db.suggestions[id].workflow in locked then [] else [Expire(id, now)])
  }

  lemma RunEndsWith(s: System, steps: seq<Step>, last: Step)
    ensures Run(s, steps + [last]) == Next(Run(s, steps), last)
  {
    hide Next;
    assert (steps + [last])[..|steps|] == steps;
  }

  lemma ExpireIsAStep(s: System, id: nat, now: int)
    ensures Next(s, Expire(id, now)) == s.(db := ExpireRow(s.db, id, now))
  {
  }

  /** A sweep is a run of expiry steps, so whatever holds of runs holds across sweeps. */
  lemma {:induction false} SweepIsARun(s: System, ids: seq<nat>, locked: set<Uuid>, now: int)
    ensures Run(s, SweepSteps(s.db, ids, locked, now)) == s.(db := ExpireAll(s.db, ids, locked, now))
    decreases |ids|
  {
    hide ExpireRow, Next;
    if ids != [] {
      var init, id := ids[..|ids| - 1], ids[|ids| - 1];
      SweepIsARun(s, init, locked, now);
      var before := SweepSteps(s.db, init, locked, now);
      if id < |s.db.suggestions| && s.db.suggestions[id].workflow in locked {
        assert before + [] == before;
      } else {
        RunEndsWith(s, before, Expire(id, now));
        ExpireIsAStep(Run(s, before), id, now);
      }
    }
  }
}
