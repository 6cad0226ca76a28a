/**
 * What becomes of a suggestion request over whole runs: rows come from reservations, the
 * provider is asked exactly what was requested, and what a row ends with is what somebody
 * answered for it, or a timeout.
 */
module RequestLives {
  import opened Prelude
  import opened Titles
  import opened WorkflowDomain
  import opened Tables
  import opened WorkflowService
  import opened SuggestionService
  import opened SuggestionInvariant
  import opened SuggestionTheorems
  import opened SuggestionDecisions
  import opened Runs

  // ------------------------------------------------------------- asking the provider

  /** Every call of the provider is given its workflow's title and the normalized clarification of its request. */
  lemma ProviderIsAskedTheRequest(steps: seq<Step>, k: nat)
    requires k < |Run(Initial, steps).grants|
    ensures
      var s := Run(Initial, steps);
      var ask := s.grants[k];
      && ask.id < |s.db.suggestions|
      && var row := s.db.suggestions[ask.id];
      && Owned(s.db, row.owner, row.workflow)
      && ask == Ask(ask.id, s.db.workflows[row.workflow].snapshot.title, Asked(row))
  {
    InitialInv();
    RunKeepsInv(Initial, steps);
    hide Run, WorkflowInv, SuggestionInv, GrantsOk, DeliveriesOk, InputsOk, ProgressOk;
    var s := Run(Initial, steps);
    InvOfRow(s.db, s.grants[k].id);
    PayloadOf(s.db, s.db.suggestions[s.grants[k].id]);
  }

  /** Every claim a delivery holds is its row's, with the goal and the clarification the provider is asked for. */
  lemma ClaimsCarryTheRequest(steps: seq<Step>, d: nat)
    requires d < |Run(Initial, steps).deliveries| && Holding(Run(Initial, steps).deliveries[d])
    ensures
      var s := Run(Initial, steps);
      var claim := s.deliveries[d].claim;
      && claim.id < |s.db.suggestions|
      && var row := s.db.suggestions[claim.id];
      && Owned(s.db, row.owner, row.workflow) && row.startedAt.Some?
      && claim == Claim(claim.id, row.owner, row.startedAt.value, s.db.workflows[row.workflow].snapshot.title,
                        Asked(row))
  {
    InitialInv();
    RunKeepsInv(Initial, steps);
    hide Run, WorkflowInv, SuggestionInv, GrantsOk, AsksOk, InputsOk, ProgressOk;
    var s := Run(Initial, steps);
    assert ClaimOk(s.db.suggestions, s.deliveries[d].claim);
    InvOfRow(s.db, s.deliveries[d].claim.id);
    PayloadOf(s.db, s.db.suggestions[s.deliveries[d].claim.id]);
  }

  // ------------------------------------------------------------- where rows come from

  /** The row is what this reservation asked for, with the deadlines of its time. */
  predicate ReservedBy(row: SuggestionRow, step: Step) {
    && step.ReserveSuggestion?
    && row.owner == step.owner && row.workflow == step.workflow && row.request == step.request
    && row.baseRevision == step.revision && row.step == step.step
    && NormalizeOptional(step.clarification) == Some(Asked(row))
    && row.queuedAt == (if step.queued then Some(step.now) else None)
    && row.expiresAt == (if step.queued then Some(step.now + 900_000_000) else None)
  }

  ghost predicate WasReserved(steps: seq<Step>, row: SuggestionRow) {
    exists k :: 0 <= k < |steps| && ReservedBy(row, steps[k])
  }

  lemma ReservedOn(steps: seq<Step>, last: Step, was: SuggestionRow, row: SuggestionRow)
    requires WasReserved(steps, was) && Evolves(was, row)
    ensures WasReserved(steps + [last], row)
  {
    hide NormalizeOptional;
    var k :| 0 <= k < |steps| && ReservedBy(was, steps[k]);
    assert (steps + [last])[k] == steps[k] && ReservedBy(row, steps[k]);
  }

  lemma ReservedNow(steps: seq<Step>, last: Step, row: SuggestionRow)
    requires ReservedBy(row, last)
    ensures WasReserved(steps + [last], row)
  {
    assert (steps + [last])[|steps|] == last;
  }

  /** Only a reservation adds a row, one at a time, and it is the row it asked for. */
  lemma NewRowsAreReserved(s: System, step: Step)
    requires Inv(s)
    ensures
      var rows, rows' := s.db.suggestions, Next(s, step).db.suggestions;
      && |rows| <= |rows'| <= |rows| + 1
      && (|rows'| > |rows| ==> ReservedBy(rows'[|rows|], step))
  {
    hide Inv, Reserve, FinishInline, FinishClaimed, ClaimSuggestion, ExpireRow, WellFormedCommand, NormalizeOptional,
         StartWorkflow, AdvanceWorkflow, InputsOk, ProgressOk, FindSuggestion, WorkflowStillCollects;
    InvParts(s);
    match step
    case ReserveSuggestion(owner, id, request, revision, stepId, clarification, queued, now) =>
      var row := ReserveCases(s.db, owner, id, request, revision, stepId, clarification, queued, now);
    case Start(_, _, _, _) => WorkflowsKeepRows(s, step);
    case Advance(_, _, _, _, _, _, _) => WorkflowsKeepRows(s, step);
    case _ =>
  }

  lemma WorkflowsKeepRows(s: System, step: Step)
    requires step.Start? || step.Advance?
    ensures Next(s, step).db.suggestions == s.db.suggestions
  {
    hide CanonicalizeTitle, WellFormedCommand, Transition, AdvanceRefusal, FindAction, UsableIds, NewTodos, Advanced;
  }

  /** Every row of every run was reserved, with what was asked and the deadlines of that time. */
  lemma {:induction false} RowsWereReserved(steps: seq<Step>, i: nat)
    requires i < |Run(Initial, steps).db.suggestions|
    ensures WasReserved(steps, Run(Initial, steps).db.suggestions[i])
  {
    hide Next, Inv, WasReserved, ReservedBy, Evolves;
    if steps == [] {
      assert false;
    } else {
      var init, last := steps[..|steps| - 1], steps[|steps| - 1];
      var s, t := Run(Initial, init), Run(Initial, steps);
      assert init + [last] == steps;
      InitialInv();
      RunKeepsInv(Initial, init);
      StepKeepsInv(s, last);
      NewRowsAreReserved(s, last);
      if i < |s.db.suggestions| {
        RowsWereReserved(init, i);
        ReservedOn(init, last, s.db.suggestions[i], t.db.suggestions[i]);
      } else {
        ReservedNow(init, last, t.db.suggestions[i]);
      }
    }
  }

  // ------------------------------------------------------------- what rows end with

  /** The step brings this result for row `i`: an inline finish of its request, or an answer to its delivery. */
  predicate Brings(s: System, step: Step, i: nat, result: ProviderResult) {
    match step
    case FinishSuggestion(owner, workflow, request, given) =>
      i < |s.db.suggestions| && RequestOf(s.db.suggestions[i], owner, workflow, request) && given == result
    case AnswerDelivery(d, given) =>
      d < |s.deliveries| && s.deliveries[d].Calling? && s.deliveries[d].claim.id == i && given == result
    case _ => false
  }

  ghost predicate Brought(steps: seq<Step>, i: nat, result: ProviderResult) {
    exists k :: 0 <= k < |steps| && Brings(Run(Initial, steps[..k]), steps[k], i, result)
  }

  /** Somebody's answer, or the verdict on an answer that could not be stored. */
  ghost predicate Given(steps: seq<Step>, i: nat, result: ProviderResult) {
    || Brought(steps, i, result)
    || (result == Failure(InvalidOutput)
        && exists titles :: !Submittable(titles) && Brought(steps, i, Proposed(titles)))
  }

  lemma BroughtOn(steps: seq<Step>, last: Step, i: nat, result: ProviderResult)
    requires Brought(steps, i, result)
    ensures Brought(steps + [last], i, result)
  {
    hide Run, Brings;
    var k :| 0 <= k < |steps| && Brings(Run(Initial, steps[..k]), steps[k], i, result);
    assert (steps + [last])[..k] == steps[..k] && (steps + [last])[k] == steps[k];
  }

  lemma BroughtNow(steps: seq<Step>, last: Step, i: nat, result: ProviderResult)
    requires Brings(Run(Initial, steps), last, i, result)
    ensures Brought(steps + [last], i, result)
  {
    hide Run, Brings;
    assert (steps + [last])[..|steps|] == steps && (steps + [last])[|steps|] == last;
  }

  lemma GivenOn(steps: seq<Step>, last: Step, i: nat, result: ProviderResult)
    requires Given(steps, i, result)
    ensures Given(steps + [last], i, result)
  {
    hide Brought, Submittable;
    if Brought(steps, i, result) {
      BroughtOn(steps, last, i, result);
    } else {
      var titles :| !Submittable(titles) && Brought(steps, i, Proposed(titles));
      BroughtOn(steps, last, i, Proposed(titles));
    }
  }

  /** What a ready or failed row holds was given for it, or is a timeout. */
  ghost predicate Explained(steps: seq<Step>, i: nat, row: SuggestionRow) {
    match row.status
    case Ready => Brought(steps, i, Proposed(row.titles)) && row.error.None?
    case Failed => row.titles == [] && row.error.Some?
                   && (row.error == Some(Timeout) || Given(steps, i, Failure(row.error.value)))
    case _ => row.titles == [] && row.error.None?
  }

  /** What a delivery is about to save was given for its row. */
  ghost predicate Backed(steps: seq<Step>, delivery: Delivery) {
    delivery.Answered? ==>
      if delivery.result.Proposed? then Brought(steps, delivery.claim.id, delivery.result)
      else Given(steps, delivery.claim.id, delivery.result)
  }

  lemma ExplainedOn(steps: seq<Step>, last: Step, i: nat, row: SuggestionRow)
    requires Explained(steps, i, row)
    ensures Explained(steps + [last], i, row)
  {
    hide Brought, Given;
    match row.status
    case Ready => BroughtOn(steps, last, i, Proposed(row.titles));
    case Failed =>
      if row.error != Some(Timeout) { GivenOn(steps, last, i, Failure(row.error.value)); }
    case _ =>
  }

  lemma BackedOn(steps: seq<Step>, last: Step, delivery: Delivery)
    requires Backed(steps, delivery)
    ensures Backed(steps + [last], delivery)
  {
    hide Brought, Given;
    if delivery.Answered? {
      if delivery.result.Proposed? {
        BroughtOn(steps, last, delivery.claim.id, delivery.result);
      } else {
        GivenOn(steps, last, delivery.claim.id, delivery.result);
      }
    }
  }

  /** How a step may change a row. */
  ghost predicate Fate(s: System, step: Step, i: nat, row: SuggestionRow) {
    || (i < |s.db.suggestions| && row == s.db.suggestions[i])
    || (i < |s.db.suggestions| && row == s.db.suggestions[i].(startedAt := row.startedAt))
    || (row.status == Pending && row.titles == [] && row.error.None?)
    || (row.status == Superseded && row.titles == [] && row.error.None?)
    || (i < |s.db.suggestions| && TimedOut(s.db.suggestions[i], row))
    || (i < |s.db.suggestions| && step.FinishSuggestion? && Stores(step.result, s.db.suggestions[i], row)
        && RequestOf(s.db.suggestions[i], step.owner, step.workflow, step.request))
    || (i < |s.db.suggestions| && step.SaveDelivery? && step.delivery < |s.deliveries|
        && s.deliveries[step.delivery].Answered? && s.deliveries[step.delivery].claim.id == i
        && Stores(s.deliveries[step.delivery].result, s.db.suggestions[i], row))
  }

  lemma {:induction false} RowsMeetTheirFate(s: System, step: Step, i: nat)
    requires Inv(s) && i < |Next(s, step).db.suggestions|
    ensures Fate(s, step, i, Next(s, step).db.suggestions[i])
  {
    hide Inv, Reserve, FinishInline, FinishClaimed, ClaimSuggestion, ExpireRow, WellFormedCommand, NormalizeOptional,
         StartWorkflow, AdvanceWorkflow, InputsOk, ProgressOk, FindSuggestion, WorkflowStillCollects, Stores,
         TimedOut, RequestOf;
    InvParts(s);
    match step
    case Start(_, _, _, _) => WorkflowsKeepRows(s, step);
    case Advance(_, _, _, _, _, _, _) => WorkflowsKeepRows(s, step);
    case ReserveSuggestion(_, _, _, _, _, _, _, _) => ReservedFate(s, step, i);
    case FinishSuggestion(owner, workflow, request, result) => FinishedFate(s, step, i);
    case ClaimDelivery(d, now) =>
      if d < |s.deliveries| && s.deliveries[d].Arrived? { ClaimedFate(s, step, s.deliveries[d].id, now, i); }
    case SaveDelivery(d, now) =>
      if d < |s.deliveries| && s.deliveries[d].Answered? { SavedFate(s, step, i); }
    case Expire(id, now) => ExpiredFate(s, step, i);
    case _ =>
  }

  lemma ReservedFate(s: System, step: Step, i: nat)
    requires Inv(s) && step.ReserveSuggestion? && i < |Next(s, step).db.suggestions|
    ensures Fate(s, step, i, Next(s, step).db.suggestions[i])
  {
    hide Inv, Reserve, NormalizeOptional, InputsOk, FindSuggestion, WorkflowStillCollects, Stores, TimedOut, RequestOf,
         SupersedePending, ProgressOk;
    InvParts(s);
    var row := ReserveCases(s.db, step.owner, step.workflow, step.request, step.revision, step.step,
                            step.clarification, step.queued, step.now);
    if i < |s.db.suggestions| {
      InvOfRow(s.db, i);
      SupersededOrSame(s.db.suggestions, step.owner, step.workflow, i);
    } else if Next(s, step).db != s.db {
      NothingYet(row);
    }
  }

  lemma NothingYet(row: SuggestionRow)
    requires ProgressOk(row) && row.status == Pending
    ensures row.titles == [] && row.error.None?
  {
  }

  lemma SupersededOrSame(rows: seq<SuggestionRow>, owner: int, id: Uuid, i: nat)
    requires i < |rows| && ProgressOk(rows[i])
    ensures
      var row := SupersedePending(rows, owner, id)[i];
      row == rows[i] || (row.status == Superseded && row.titles == [] && row.error.None?)
  {
  }

  lemma FinishedFate(s: System, step: Step, i: nat)
    requires Inv(s) && step.FinishSuggestion? && i < |Next(s, step).db.suggestions|
    ensures Fate(s, step, i, Next(s, step).db.suggestions[i])
  {
    hide Next, Inv, FinishInline, InputsOk, ProgressOk, Stores, TimedOut, AnnouncedBy, Evolves, WorkflowStillCollects,
         RequestOf, SuggestionInv;
    FinishingIs(s, step);
    InvParts(s);
    var j, row, events := FinishInlineCases(s.db, step.owner, step.workflow, step.request, step.result);
    if Next(s, step).db != s.db {
      StoredIsEnded(step.result, s.db.suggestions[j], row);
      FinishFindsItsRow(s.db, step, j);
    }
  }

  lemma StoredIsEnded(result: ProviderResult, was: SuggestionRow, row: SuggestionRow)
    requires Stores(result, was, row)
    ensures row.status != Pending
  {
  }

  /** The row an inline finish writes is the one of its request. */
  lemma FinishFindsItsRow(db: Db, step: Step, j: nat)
    requires step.FinishSuggestion? && j < |db.suggestions| && db.suggestions[j].status == Pending
    requires
      var rows' := FinishInline(db, step.owner, step.workflow, step.request, step.result).0.suggestions;
      rows'[j].status != Pending
    ensures RequestOf(db.suggestions[j], step.owner, step.workflow, step.request)
  {
    hide SnapshotOfRow, Latest, FindSuggestion, WorkflowStillCollects, Acceptable, SetResult,
         SuggestionService.SavedRow;
  }

  lemma ClaimedFate(s: System, step: Step, id: nat, now: int, i: nat)
    requires Inv(s) && i < |s.db.suggestions|
    ensures Fate(s, step, i, ClaimSuggestion(s.db, id, now).0.suggestions[i])
  {
    hide Inv, ClaimSuggestion, Stores, RequestOf;
    InvParts(s);
    if id < |s.db.suggestions| { ClaimedRows(s.db, id, now, i); } else { NothingToClaim(s.db, id, now); }
  }

  lemma ClaimedRows(db: Db, id: nat, now: int, i: nat)
    requires SuggestionInv(db) && id < |db.suggestions| && i < |db.suggestions|
    ensures
      var was, row := db.suggestions[i], ClaimSuggestion(db, id, now).0.suggestions[i];
      || row == was.(startedAt := row.startedAt) || TimedOut(was, row)
      || (row.status == Superseded && row.titles == [] && row.error.None?)
  {
    hide ClaimSuggestion, SuggestionInv, WorkflowStillCollects, AsRead, Asked;
    var ended := ClaimDecision(db, id, now);
  }

  lemma NothingToClaim(db: Db, id: nat, now: int)
    requires id >= |db.suggestions|
    ensures ClaimSuggestion(db, id, now) == (db, NoWork)
  {
  }

  lemma SavedFate(s: System, step: Step, i: nat)
    requires Inv(s) && step.SaveDelivery? && step.delivery < |s.deliveries| && s.deliveries[step.delivery].Answered?
    requires i < |s.db.suggestions|
    ensures
      var delivery := s.deliveries[step.delivery];
      Fate(s, step, i, FinishClaimed(s.db, delivery.claim, delivery.result, step.now).0.suggestions[i])
  {
    hide Inv, FinishClaimed, InputsOk, ProgressOk, Stores, RequestOf, TimedOut, Stands, SuggestionDecisions.Storable;
    InvParts(s);
    var ended := FinishDecision(s.db, s.deliveries[step.delivery].claim, s.deliveries[step.delivery].result, step.now);
  }

  lemma ExpiredFate(s: System, step: Step, i: nat)
    requires Inv(s) && step.Expire? && i < |s.db.suggestions|
    ensures Fate(s, step, i, ExpireRow(s.db, step.row, step.now).suggestions[i])
  {
    hide Inv, ExpireRow, InputsOk, ProgressOk, Stores, RequestOf;
    InvParts(s);
    if step.row < |s.db.suggestions| {
      var ended := ExpireDecision(s.db, step.row, step.now);
    } else {
      NothingToExpire(s.db, step.row, step.now);
    }
  }

  lemma NothingToExpire(db: Db, id: nat, now: int)
    requires id >= |db.suggestions|
    ensures ExpireRow(db, id, now) == db
  {
  }

  /** What a row is fated to was given, if what it and the deliveries held before was. */
  lemma FateIsExplained(steps: seq<Step>, last: Step, i: nat, row: SuggestionRow)
    requires Fate(Run(Initial, steps), last, i, row)
    requires
      var s := Run(Initial, steps);
      && (i < |s.db.suggestions| ==> Explained(steps, i, s.db.suggestions[i]))
      && (last.SaveDelivery? && last.delivery < |s.deliveries| ==> Backed(steps, s.deliveries[last.delivery]))
    ensures Explained(steps + [last], i, row)
  {
    hide Run, Brought, Given, RequestOf;
    var s := Run(Initial, steps);
    if i < |s.db.suggestions| {
      ExplainedOn(steps, last, i, s.db.suggestions[i]);
      if last.FinishSuggestion? && RequestOf(s.db.suggestions[i], last.owner, last.workflow, last.request) {
        BroughtNow(steps, last, i, last.result);
        BroughtIsGiven(steps + [last], i, last.result);
      }
      if last.SaveDelivery? && last.delivery < |s.deliveries| { BackedOn(steps, last, s.deliveries[last.delivery]); }
    }
  }

  lemma BroughtIsGiven(steps: seq<Step>, i: nat, result: ProviderResult)
    requires Brought(steps, i, result)
    ensures Given(steps, i, result)
  {
  }

  lemma DeliveriesAreBacked(steps: seq<Step>, last: Step, d: nat)
    requires Inv(Run(Initial, steps)) && d < |Next(Run(Initial, steps), last).deliveries|
    requires d < |Run(Initial, steps).deliveries| ==> Backed(steps, Run(Initial, steps).deliveries[d])
    ensures Backed(steps + [last], Next(Run(Initial, steps), last).deliveries[d])
  {
    hide Run, Inv, Backed, Brought, StartWorkflow, AdvanceWorkflow, Reserve, FinishInline, ClaimSuggestion,
         FinishClaimed, ExpireRow, WellFormedCommand;
    var s := Run(Initial, steps);
    if d < |s.deliveries| { BackedOn(steps, last, s.deliveries[d]); }
    IdleIsBacked(steps + [last]);
    match last
    case AnswerDelivery(e, result) =>
      if e < |s.deliveries| && s.deliveries[e].Calling? { AnswerIsBacked(steps, last); }
    case SaveDelivery(e, now) =>
      if e == d && e < |s.deliveries| && s.deliveries[e].Answered? { RefusalIsBacked(steps, last); }
    case _ =>
  }

  lemma IdleIsBacked(steps: seq<Step>)
    ensures forall delivery: Delivery :: !delivery.Answered? ==> Backed(steps, delivery)
  {
  }

  lemma AnswerIsBacked(steps: seq<Step>, last: Step)
    requires last.AnswerDelivery?
    requires
      var s := Run(Initial, steps);
      last.delivery < |s.deliveries| && s.deliveries[last.delivery].Calling?
    ensures Backed(steps + [last], Answered(Run(Initial, steps).deliveries[last.delivery].claim, last.result))
  {
    hide Run, Brought, Given;
    var claim := Run(Initial, steps).deliveries[last.delivery].claim;
    BroughtNow(steps, last, claim.id, last.result);
    BroughtIsGiven(steps + [last], claim.id, last.result);
  }

  lemma RefusalIsBacked(steps: seq<Step>, last: Step)
    requires Inv(Run(Initial, steps)) && last.SaveDelivery?
    requires
      var s := Run(Initial, steps);
      && last.delivery < |s.deliveries| && s.deliveries[last.delivery].Answered?
      && Backed(steps, s.deliveries[last.delivery])
    ensures
      var delivery := Run(Initial, steps).deliveries[last.delivery];
      Backed(steps + [last], AfterSave(delivery.claim, delivery.result,
                                       FinishClaimed(Run(Initial, steps).db, delivery.claim, delivery.result,
                                                     last.now).1))
  {
    hide Run, Inv, Brought, FinishClaimed, Stands, Stores, InputsOk, ProgressOk, Submittable;
    var s := Run(Initial, steps);
    var delivery := s.deliveries[last.delivery];
    InvParts(s);
    var ended := FinishDecision(s.db, delivery.claim, delivery.result, last.now);
    if delivery.result.Proposed? { BroughtOn(steps, last, delivery.claim.id, delivery.result); }
  }

  /**
   * Whatever a row ends with was brought for it: a ready row's titles are, in full, those of
   * an inline finish of its request or of an answer to its delivery, a failed row's code is
   * such an answer's, the verdict on titles that could not be submitted, or a timeout.
   */
  lemma {:induction false} RowsEndWithTheirAnswers(steps: seq<Step>)
    ensures
      var s := Run(Initial, steps);
      && (forall i: nat :: i < |s.db.suggestions| ==> Explained(steps, i, s.db.suggestions[i]))
      && (forall d: nat :: d < |s.deliveries| ==> Backed(steps, s.deliveries[d]))
  {
    hide Next, Inv, Explained, Backed, Fate;
    if steps != [] {
      var init, last := steps[..|steps| - 1], steps[|steps| - 1];
      var s, t := Run(Initial, init), Run(Initial, steps);
      assert init + [last] == steps;
      RowsEndWithTheirAnswers(init);
      InitialInv();
      RunKeepsInv(Initial, init);
      forall i: nat | i < |t.db.suggestions| ensures Explained(steps, i, t.db.suggestions[i]) {
        RowsMeetTheirFate(s, last, i);
        FateIsExplained(init, last, i, t.db.suggestions[i]);
      }
      forall d: nat | d < |t.deliveries| ensures Backed(steps, t.deliveries[d]) {
        DeliveriesAreBacked(init, last, d);
      }
    }
  }
}
