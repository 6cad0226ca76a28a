/**
 * What each suggestion transaction answers and writes, in terms of what a reader of the
 * row and its workflow can see, and the life of one request from its reservation on.
 */
module SuggestionDecisions {
  import opened Prelude
  import opened Titles
  import opened WorkflowDomain
  import opened Tables
  import opened SuggestionService
  import opened SuggestionInvariant
  import opened SuggestionTheorems

  /** The row's workflow is collecting tasks and still at the revision the row was based on. */
  predicate Stands(db: Db, row: SuggestionRow) {
    && Owned(db, row.owner, row.workflow)
    && db.workflows[row.workflow].snapshot.state == CollectTasks
    && db.workflows[row.workflow].snapshot.revision == row.baseRevision
  }

  lemma StandsIff(db: Db, i: nat)
    requires SuggestionInv(db) && WorkflowsCoherent(db) && i < |db.suggestions|
    ensures WorkflowStillCollects(db, db.suggestions[i]) <==> Stands(db, db.suggestions[i])
  {
    hide SuggestionInv, ProgressOk, NormalizeOptional, CanonicalTitle, Latest;
    InvOfRow(db, i);
  }

  /** A clarification is normalized to its trimmed value: up to 200 code points, under one of the fixed fields. */
  lemma ClarificationDecides(field: Field, before: Text, middle: Text, after: Text)
    requires AllTrim(before) && AllTrim(after) && Tight(middle)
    ensures NormalizeClarification(Clarification(field, before + middle + after)) ==
      if || field.OutsideCatalog? || middle == [] || |middle| > 200
         || exists c :: c in middle && (c == 0 || 0xD800 <= c <= 0xDFFF) then None
      else Some(Clarification(field, middle))
  {
    hide Tight, AllTrim, CanonicalizeWithin;
    WithinDecides(before + middle + after, before, middle, after, 200);
  }

  // ------------------------------------------------------------------ finishing

  /** A result that may be stored: any failure, or titles that could be submitted as they are. */
  ghost predicate Storable(result: ProviderResult) { result.Proposed? ==> Submittable(result.titles) }

  lemma StorableIff(result: ProviderResult)
    ensures Acceptable(result) <==> Storable(result)
  {
    if result.Proposed? { SubmittedTitlesFixed(result.titles); }
    hide SubmittedTitles, Submittable;
  }

  lemma StoredIsRead(db: Db, row: SuggestionRow, result: ProviderResult)
    requires InputsOk(db, row) && ProgressOk(row) && row.status == Pending && Acceptable(result)
    ensures SnapshotOfRow(SetResult(row, result)) == Some(AsRead(SetResult(row, result)))
  {
    hide InputsOk, SnapshotOfRow, Acceptable, SetResult, ProgressOk, Stores;
    ResultRow(row, result);
    SameInputs(db, row, result);
    RowsAreStorable(db, SetResult(row, result));
  }

  lemma SameInputs(db: Db, row: SuggestionRow, result: ProviderResult)
    requires InputsOk(db, row)
    ensures InputsOk(db, SetResult(row, result))
  {
    hide NormalizeOptional, CanonicalTitle;
  }

  /** The event that goes with a stored result. */
  function Announced(row: SuggestionRow, result: ProviderResult): Event {
    SuggestionFinished(row.owner, row.workflow, if result.Proposed? then ReadyOutcome else FailedOutcome)
  }

  /** Which rows a claim may still finish. */
  predicate HeldBy(row: SuggestionRow, claim: Claim) {
    row.status == Pending && row.owner == claim.owner && row.startedAt == Some(claim.startedAt)
  }

  /**
   * The whole outcome of finishing a claim: what cannot be stored is refused, a claim that
   * is gone or out of time is dropped, a moved workflow ends the row as superseded, and
   * otherwise the row, the event and the answer are those of the very result.
   */
  lemma FinishDecision(db: Db, claim: Claim, result: ProviderResult, now: int) returns (ended: SuggestionRow)
    requires SuggestionInv(db) && WorkflowsCoherent(db)
    ensures
      var (db', reply) := FinishClaimed(db, claim, result, now);
      if !Storable(result) then reply == FinishRefused(InvalidResult) && db' == db
      else if claim.id >= |db.suggestions| || !HeldBy(db.suggestions[claim.id], claim) then
        reply == Discarded && db' == db
      else
        var row := db.suggestions[claim.id];
        && row.queuedAt.Some?
        && if now >= row.queuedAt.value + RESERVATION_TTL || now >= claim.startedAt + CLAIM_TTL then
             reply == Discarded && db' == db
           else if !Stands(db, row) then
             GivenUp(row, ended) && reply == Saved(AsRead(ended)) && Became(db, db', claim.id, ended, [])
           else
             && Stores(result, row, ended) && reply == Saved(AsRead(ended))
             && Became(db, db', claim.id, ended, [Announced(row, result)])
  {
    hide SuggestionInv, WorkflowsCoherent, SnapshotOfRow, NormalizeOptional, Acceptable, Storable, Latest,
         WorkflowStillCollects, Stands, ProgressOk, InputsOk, SetResult, Stores;
    StorableIff(result);
    ended := NewRow(0, Uuid(0), Uuid(0), StartPayload([]), 0, OtherStep(""), [], None, false, 0);
    if Acceptable(result) && claim.id < |db.suggestions| && HeldBy(db.suggestions[claim.id], claim) {
      var row := db.suggestions[claim.id];
      InvOfRow(db, claim.id);
      ClaimedIsQueued(row);
      InputsAreReadable(db, row);
      ClaimedRowsAreStorable(db, row, now);
      StoredIsRead(db, row, result);
      StandsIff(db, claim.id);
      ResultRow(row, result);
      ended := if Stands(db, row) then SetResult(row, result) else SupersedeRow(row);
    }
  }

  /**
   * The whole outcome of an inline finish, for the one row of the request: ended rows are
   * only read, a superseded row or a moved workflow is stale, and otherwise the row, the
   * event and the answer are those of the very result.
   */
  lemma InlineDecision(db: Db, i: nat, result: ProviderResult) returns (ended: SuggestionRow)
    requires SuggestionInv(db) && WorkflowsCoherent(db) && i < |db.suggestions|
    ensures
      var row := db.suggestions[i];
      var (db', reply) := FinishInline(db, row.owner, row.workflow, row.request, result);
      if !Storable(result) then reply == FinishRefused(InvalidResult) && db' == db
      else if row.status == Ready || row.status == Failed then reply == Saved(AsRead(row)) && db' == db
      else if row.status == Superseded || !Stands(db, row) then
        reply == FinishRefused(StaleSuggestion) && db' == db
      else
        && Stores(result, row, ended) && reply == Saved(AsRead(ended))
        && Became(db, db', i, ended, [Announced(row, result)])
  {
    hide SuggestionInv, WorkflowsCoherent, SnapshotOfRow, Acceptable, Storable, Latest, WorkflowStillCollects, Stands,
         ProgressOk, InputsOk, SetResult, Stores, FindSuggestion;
    var row := db.suggestions[i];
    StorableIff(result);
    InvOfRow(db, i);
    RowIsOwned(db, row);
    FoundByRequest(db, i);
    RowsAreStorable(db, row);
    StandsIff(db, i);
    ended := row;
    if Acceptable(result) && row.status == Pending {
      StoredIsRead(db, row, result);
      ResultRow(row, result);
      ended := SetResult(row, result);
    }
  }

  lemma RowIsOwned(db: Db, row: SuggestionRow)
    requires InputsOk(db, row)
    ensures Owned(db, row.owner, row.workflow)
  {
  }

  /** An inline finish of a request nobody made. */
  lemma InlineWithoutRow(db: Db, owner: int, id: Uuid, request: Uuid, result: ProviderResult)
    requires forall i :: 0 <= i < |db.suggestions| ==> !RequestOf(db.suggestions[i], owner, id, request)
    ensures FinishInline(db, owner, id, request, result) ==
      (db, if !Storable(result) then FinishRefused(InvalidResult)
           else if !Owned(db, owner, id) then Discarded
           else FinishRefused(StaleSuggestion))
  {
    hide Acceptable, Storable, FindSuggestion;
    StorableIff(result);
    assert FindSuggestion(db.suggestions, owner, id, request).None?;
  }

  // ------------------------------------------------------------------- expiring

  /** A sweep fails exactly the queued rows that are past their own time or their claim's. */
  lemma ExpireDecision(db: Db, id: nat, now: int) returns (ended: SuggestionRow)
    requires SuggestionInv(db) && id < |db.suggestions|
    ensures
      var row := db.suggestions[id];
      var db' := ExpireRow(db, id, now);
      if && row.status == Pending && row.queuedAt.Some?
         && (|| now >= row.queuedAt.value + RESERVATION_TTL
             || (row.startedAt.Some? && now >= row.startedAt.value + CLAIM_TTL))
      then
        && TimedOut(row, ended)
        && Became(db, db', id, ended, [SuggestionFinished(row.owner, row.workflow, ExpiredOutcome)])
      else db' == db
  {
    hide SuggestionInv, InputsOk, ProgressOk, Latest;
    var row := db.suggestions[id];
    InvOfRow(db, id);
    InputsAreReadable(db, row);
    ended := FailRow(row);
  }

  // ------------------------------------------------------------------ reserving

  /** The whole outcome of a reservation under a new request id. */
  lemma ReserveDecision(db: Db, owner: int, id: Uuid, request: Uuid, revision: int, step: StepId,
                        clarification: Option<Clarification>, queued: bool, now: int)
    requires SuggestionInv(db) && WorkflowsCoherent(db)
    requires forall i :: 0 <= i < |db.suggestions| ==> !RequestOf(db.suggestions[i], owner, id, request)
    ensures
      var reply := Reserve(db, owner, id, request, revision, step, clarification, queued, now).1;
      if NormalizeOptional(clarification).None? then reply == ReserveRefused(InvalidClarification)
      else if !Owned(db, owner, id) then reply == NoWorkflow
      else
        var s := db.workflows[id].snapshot;
        if s.state != CollectTasks then reply == ReserveRefused(InvalidSuggestionState)
        else if step != StepOf(id, CollectTasks) || revision != s.revision then reply == ReserveRefused(StaleStep)
        else reply.Reserved?
  {
    hide SuggestionInv, NormalizeOptional, FindSuggestion, ReplayReply, SupersedePending, CanonicalTitle;
    assert FindSuggestion(db.suggestions, owner, id, request).None?;
    if Owned(db, owner, id) { CoherentIsTitled(db.workflows[id].snapshot); }
  }

  lemma CoherentIsTitled(s: Snapshot)
    requires Coherent(s)
    ensures CanonicalTitle(s.title) && s.definition == CURRENT_DEFINITION
  {
  }

  // --------------------------------------------------------- one request's life

  /**
   * A queued reservation made at `now` can be claimed for 15 minutes, for the goal and the
   * clarification it was made with; from then on a claim records a timeout.
   */
  lemma ReservedThenClaimed(db: Db, owner: int, id: Uuid, request: Uuid, revision: int, step: StepId,
                            clarification: Option<Clarification>, now: int, t: int)
    requires SuggestionInv(db) && WorkflowsCoherent(db)
    requires Reserve(db, owner, id, request, revision, step, clarification, true, now).1.Reserved?
    ensures
      var (db1, reserved) := Reserve(db, owner, id, request, revision, step, clarification, true, now);
      var (db2, claimed) := ClaimSuggestion(db1, reserved.id, t);
      var asked := NormalizeOptional(clarification);
      && asked.Some? && Owned(db, owner, id)
      && reserved.id == |db.suggestions| < |db1.suggestions| == |db2.suggestions|
      && reserved.goal == db.workflows[id].snapshot.title && reserved.clarification == asked.value
      && if t < now then claimed == ClaimRefused(RejectedByConstraint) && db2 == db1
         else if t < now + 900_000_000 then
           claimed == Granted(Claim(reserved.id, owner, t, reserved.goal, asked.value))
         else
           && TimedOut(db1.suggestions[reserved.id], db2.suggestions[reserved.id])
           && claimed == Committed(AsRead(db2.suggestions[reserved.id]))
  {
    hide SuggestionInv, WorkflowsCoherent, Reserve, ClaimSuggestion, WorkflowStillCollects, InputsOk, ProgressOk,
         NormalizeOptional, FindSuggestion, SupersedePending;
    var row := ReserveCases(db, owner, id, request, revision, step, clarification, true, now);
    var db1 := Reserve(db, owner, id, request, revision, step, clarification, true, now).0;
    ReservedIsOwned(db, row);
    AppendedKeepsInv(db, db1, row);
    AppendedIsLast(db, db1, row);
    var ended := ClaimDecision(db1, |db.suggestions|, t);
  }

  lemma ReservedIsOwned(db: Db, row: SuggestionRow)
    requires WorkflowStillCollects(db, row)
    ensures Owned(db, row.owner, row.workflow)
  {
  }

  lemma AppendedIsLast(db: Db, db': Db, row: SuggestionRow)
    requires Appended(db, db', row) && WorkflowStillCollects(db, row)
    ensures |db'.suggestions| == |db.suggestions| + 1 && db'.suggestions[|db.suggestions|] == row
    ensures db'.workflows == db.workflows && WorkflowStillCollects(db', row)
  {
    hide InputsOk, ProgressOk, FindSuggestion;
  }

  /**
   * A claim granted at `t` can be finished for 2 minutes, within the 15 of its reservation,
   * with what the provider answered; from then on the result is dropped.
   */
  lemma ClaimedThenFinished(db: Db, id: nat, t: int, result: ProviderResult, u: int) returns (ended: SuggestionRow)
    requires SuggestionInv(db) && WorkflowsCoherent(db) && id < |db.suggestions|
    requires ClaimSuggestion(db, id, t).1.Granted? && Storable(result)
    ensures
      var row := db.suggestions[id];
      var (db1, granted) := ClaimSuggestion(db, id, t);
      var (db2, finished) := FinishClaimed(db1, granted.claim, result, u);
      && row.queuedAt.Some?
      && if u >= t + 120_000_000 || u >= row.queuedAt.value + 900_000_000 then finished == Discarded && db2 == db1
         else
           && finished == Saved(AsRead(ended)) && Stores(result, row.(startedAt := Some(t)), ended)
           && Became(db1, db2, id, ended, [Announced(row, result)])
  {
    hide SuggestionInv, WorkflowsCoherent, ClaimSuggestion, FinishClaimed, Storable, InputsOk, ProgressOk, Stores,
         WorkflowStillCollects, Stands;
    var marked := ClaimDecision(db, id, t);
    var db1 := ClaimSuggestion(db, id, t).0;
    var row, events := ClaimCases(db, id, t);
    RewrittenKeepsInv(db, db1, id, row, events);
    StandsIff(db, id);
    CoherentStill(db, db1);
    StillStands(db, db1, db.suggestions[id], t);
    ended := FinishDecision(db1, ClaimSuggestion(db, id, t).1.claim, result, u);
  }

  lemma CoherentStill(db: Db, db': Db)
    requires WorkflowsCoherent(db) && db'.workflows == db.workflows
    ensures WorkflowsCoherent(db')
  {
    hide Coherent;
  }

  lemma StillStands(db: Db, db': Db, row: SuggestionRow, t: int)
    requires Stands(db, row) && db'.workflows == db.workflows
    ensures Stands(db', row.(startedAt := Some(t)))
  {
  }
}
