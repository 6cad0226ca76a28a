/** What each suggestion transaction guarantees on a database that satisfies the invariant. */
module SuggestionTheorems {
  import opened Prelude
  import opened Titles
  import opened WorkflowDomain
  import opened Tables
  import opened SuggestionService
  import opened SuggestionInvariant

  ghost predicate WorkflowsCoherent(db: Db) {
    forall id :: id in db.workflows ==> Coherent(db.workflows[id].snapshot)
  }

  // ------------------------------------------------------- each transaction

  lemma NewRowOk(db: Db, owner: int, id: Uuid, request: Uuid, expectedRevision: int, step: StepId,
                 canonical: Option<Clarification>, queued: bool, now: int)
    requires Owned(db, owner, id) && Coherent(db.workflows[id].snapshot)
    requires ActiveRefusal(db.workflows[id].snapshot, id, expectedRevision, step).None?
    requires NormalizeOptional(canonical) == Some(canonical)
    ensures
      var title := db.workflows[id].snapshot.title;
      var payload := SuggestPayload(id, expectedRevision, step, title, canonical);
      var row := NewRow(owner, id, request, payload, expectedRevision, step, title, canonical, queued, now);
      InputsOk(db, row) && ProgressOk(row) && WorkflowStillCollects(db, row)
  {
    hide NormalizeOptional, CanonicalTitle;
  }

  /** What the invariant says of one row. */
  lemma InvOfRow(db: Db, i: nat)
    requires SuggestionInv(db) && i < |db.suggestions|
    ensures var row := db.suggestions[i];
            && InputsOk(db, row) && ProgressOk(row)
            && (row.status == Pending ==> Latest(db.suggestions, row.owner, row.workflow) == Some(i))
  {
    hide InputsOk, ProgressOk, Latest;
    if db.suggestions[i].status == Pending { PendingIsLatest(db, i); }
  }

  /** What a result makes of a pending row: the proposed titles and no others, or the error code and no titles. */
  ghost predicate Stores(result: ProviderResult, was: SuggestionRow, row: SuggestionRow) {
    match result
    case Proposed(titles) => row == was.(status := Ready, titles := titles, error := None)
    case Failure(code) => row == was.(status := Failed, titles := [], error := Some(code))
  }

  ghost predicate TimedOut(was: SuggestionRow, row: SuggestionRow) {
    row == was.(status := Failed, titles := [], error := Some(Timeout))
  }

  ghost predicate GivenUp(was: SuggestionRow, row: SuggestionRow) {
    row == was.(status := Superseded, titles := [], error := None)
  }

  /** The database with one row replaced and these events recorded. */
  ghost predicate Became(db: Db, db': Db, i: nat, row: SuggestionRow, events: seq<Event>) {
    i < |db.suggestions| && db' == db.(suggestions := db.suggestions[i := row], events := db.events + events)
  }

  /** A row as its readers see it. */
  function AsRead(row: SuggestionRow): SuggestionSnapshot {
    SuggestionSnapshot(row.workflow, row.request, row.baseRevision, row.step, row.status, row.titles, row.error)
  }

  /**
   * A reservation either changes nothing or appends one pending row, which holds what was
   * asked and, when queued, runs from the time of the reservation.
   */
  lemma ReserveCases(db: Db, owner: int, id: Uuid, request: Uuid, expectedRevision: int, step: StepId,
                     clarification: Option<Clarification>, queued: bool, now: int) returns (row: SuggestionRow)
    requires WorkflowsCoherent(db)
    ensures
      var (db', reply) := Reserve(db, owner, id, request, expectedRevision, step, clarification, queued, now);
      if reply.Reserved? then
        && Appended(db, db', row) && WorkflowStillCollects(db, row)
        && row.owner == owner && row.workflow == id && row.request == request
        && row.baseRevision == expectedRevision && row.step == step
        && row.queuedAt == (if queued then Some(now) else None)
        && row.expiresAt == (if queued then Some(now + RESERVATION_TTL) else None)
        && NormalizeOptional(clarification) == Some(Asked(row))
        && var title := db.workflows[id].snapshot.title;
        && row.payload == SuggestPayload(id, expectedRevision, step, title, Asked(row))
        && reply == Reserved(|db.suggestions|, title, Asked(row))
      else db' == db
  {
    hide SupersedePending, FindSuggestion, Latest, InputsOk, ProgressOk, WorkflowStillCollects, ReplayReply,
         Coherent, NormalizeOptional, ActiveRefusal, CanonicalTitle;
    row := NewRow(owner, id, request, StartPayload([]), 0, step, [], None, queued, now);
    if NormalizeOptional(clarification).Some? && Owned(db, owner, id) {
      NormalizingSettles(clarification);
      var canonical := NormalizeOptional(clarification).value;
      var s := db.workflows[id].snapshot;
      var payload := SuggestPayload(id, expectedRevision, step, s.title, canonical);
      row := NewRow(owner, id, request, payload, expectedRevision, step, s.title, canonical, queued, now);
      if ActiveRefusal(s, id, expectedRevision, step).None? {
        NewRowOk(db, owner, id, request, expectedRevision, step, canonical, queued, now);
      }
    }
  }

  lemma ResultRow(row: SuggestionRow, result: ProviderResult)
    requires ProgressOk(row) && row.status == Pending && Acceptable(result)
    ensures ProgressOk(SetResult(row, result)) && Evolves(row, SetResult(row, result))
    ensures AnnouncedBy(SetResult(row, result), [Finished(row, OutcomeOf(result))])
    ensures Stores(result, row, SetResult(row, result))
  {
    if result.Proposed? { SubmittedTitlesFixed(result.titles); }
  }

  lemma EndedRows(row: SuggestionRow)
    requires ProgressOk(row) && row.status == Pending
    ensures ProgressOk(FailRow(row)) && Evolves(row, FailRow(row))
    ensures AnnouncedBy(FailRow(row), [Finished(row, ExpiredOutcome)])
    ensures ProgressOk(SupersedeRow(row)) && Evolves(row, SupersedeRow(row))
    ensures AnnouncedBy(SupersedeRow(row), [])
  {
  }

  /** An inline finish either changes nothing or ends the pending row of an unchanged workflow. */
  lemma FinishInlineCases(db: Db, owner: int, id: Uuid, request: Uuid, result: ProviderResult)
    returns (i: nat, row: SuggestionRow, events: seq<Event>)
    requires SuggestionInv(db)
    ensures
      var db' := FinishInline(db, owner, id, request, result).0;
      db' == db
      || (&& Rewritten(db, db', i, row, events)
          && Stores(result, db.suggestions[i], row) && WorkflowStillCollects(db, db.suggestions[i]))
  {
    hide SuggestionInv, SetResult, ProgressOk, InputsOk, Evolves, AnnouncedBy, SnapshotOfRow, WorkflowStillCollects,
         Latest, Acceptable, FindSuggestion, Stores;
    i, events := 0, [];
    row := NewRow(owner, id, request, StartPayload([]), 0, OtherStep(""), [], None, false, 0);
    if Acceptable(result) && Owned(db, owner, id) && FindSuggestion(db.suggestions, owner, id, request).Some? {
      i := FindSuggestion(db.suggestions, owner, id, request).value;
      var pending := db.suggestions[i];
      row, events := SetResult(pending, result), [Finished(pending, OutcomeOf(result))];
      InvOfRow(db, i);
      if pending.status == Pending { ResultRow(pending, result); }
    }
  }

  lemma MarkedRow(row: SuggestionRow, now: int)
    requires ProgressOk(row) && row.status == Pending && row.startedAt.None? && IsCloudRow(row)
    requires ConstraintsHold(row.(startedAt := Some(now)))
    ensures var marked := row.(startedAt := Some(now));
            ProgressOk(marked) && Evolves(row, marked) && AnnouncedBy(marked, [])
  {
  }

  /** A claim either changes nothing, marks the row, or ends it. */
  lemma ClaimCases(db: Db, id: nat, now: int) returns (row: SuggestionRow, events: seq<Event>)
    requires SuggestionInv(db)
    ensures
      var (db', reply) := ClaimSuggestion(db, id, now);
      && (db' == db || Rewritten(db, db', id, row, events))
      && (reply.Granted? ==>
            && db' != db && row == db.suggestions[id].(startedAt := Some(now))
            && db.suggestions[id].startedAt.None? && row.queuedAt.Some?
            && Owned(db, row.owner, row.workflow)
            && reply.claim == Claim(id, row.owner, now, db.workflows[row.workflow].snapshot.title, Asked(row)))
      && (db' != db && !reply.Granted? ==> row.startedAt == db.suggestions[id].startedAt)
  {
    hide SnapshotOfRow, Claimable, NormalizeOptional, CanonicalTitle, SuggestionInv, ProgressOk, InputsOk, Evolves,
         AnnouncedBy, ConstraintsHold, Latest;
    row := NewRow(0, Uuid(0), Uuid(0), StartPayload([]), 0, OtherStep(""), [], None, false, 0);
    events := [];
    if id < |db.suggestions| && db.suggestions[id].status == Pending {
      var pending := db.suggestions[id];
      InvOfRow(db, id);
      InputsAreReadable(db, pending);
      EndedRows(pending);
      var (db', reply) := ClaimSuggestion(db, id, now);
      if reply.Granted? {
        row := pending.(startedAt := Some(now));
        MarkedRow(pending, now);
      } else if PastExpiry(pending, now) || pending.startedAt.Some? {
        row, events := FailRow(pending), [Finished(pending, ExpiredOutcome)];
      } else {
        row := SupersedeRow(pending);
      }
    }
  }

  /** Finishing a claim either changes nothing, ends the row with the result, or supersedes it. */
  lemma FinishClaimedCases(db: Db, claim: Claim, result: ProviderResult, now: int)
    returns (row: SuggestionRow, events: seq<Event>)
    requires SuggestionInv(db)
    ensures
      var db' := FinishClaimed(db, claim, result, now).0;
      db' == db
      || (&& Rewritten(db, db', claim.id, row, events)
          && db.suggestions[claim.id].startedAt == Some(claim.startedAt)
          && row.startedAt == db.suggestions[claim.id].startedAt
          && (row.status == Superseded
              || (&& Stores(result, db.suggestions[claim.id], row)
                  && WorkflowStillCollects(db, db.suggestions[claim.id]))))
  {
    hide SnapshotOfRow, NormalizeOptional, SuggestionInv, Acceptable, Latest, WorkflowStillCollects, ProgressOk,
         InputsOk, Evolves, AnnouncedBy, SavedRow, Stores;
    row := NewRow(0, Uuid(0), Uuid(0), StartPayload([]), 0, OtherStep(""), [], None, false, 0);
    events := [];
    if Acceptable(result) && claim.id < |db.suggestions| && db.suggestions[claim.id].status == Pending {
      var pending := db.suggestions[claim.id];
      InvOfRow(db, claim.id);
      EndedRows(pending);
      ResultRow(pending, result);
      if || !WorkflowStillCollects(db, pending)
         || Latest(db.suggestions, pending.owner, pending.workflow) != Some(claim.id)
      {
        row := SupersedeRow(pending);
      } else {
        row, events := SetResult(pending, result), [Finished(pending, OutcomeOf(result))];
      }
    }
  }

  lemma ExpireCases(db: Db, id: nat, now: int) returns (row: SuggestionRow, events: seq<Event>)
    requires SuggestionInv(db)
    ensures
      var db' := ExpireRow(db, id, now);
      || db' == db
      || (&& Rewritten(db, db', id, row, events)
          && row.status == Failed && row.startedAt == db.suggestions[id].startedAt)
  {
    row := NewRow(0, Uuid(0), Uuid(0), StartPayload([]), 0, OtherStep(""), [], None, false, 0);
    events := [];
    if id < |db.suggestions| && db.suggestions[id].status == Pending {
      EndedRows(db.suggestions[id]);
      row, events := FailRow(db.suggestions[id]), [Finished(db.suggestions[id], ExpiredOutcome)];
    }
  }

  // ------------------------------------------------------------- decisions

  /**
   * The whole outcome of a claim, by what a reader of the row and its workflow can see:
   * the table, the event and the answer, a granted one with the goal and the
   * clarification the request was made with.
   */
  lemma ClaimDecision(db: Db, id: nat, now: int) returns (ended: SuggestionRow)
    requires SuggestionInv(db) && id < |db.suggestions|
    ensures
      var row := db.suggestions[id];
      var (db', reply) := ClaimSuggestion(db, id, now);
      if row.status != Pending || row.queuedAt.None? then reply == NoWork && db' == db
      else if || now >= row.queuedAt.value + RESERVATION_TTL
              || (row.startedAt.Some? && now >= row.startedAt.value + CLAIM_TTL)
      then
        && TimedOut(row, ended) && reply == Committed(AsRead(ended))
        && Became(db, db', id, ended, [SuggestionFinished(row.owner, row.workflow, ExpiredOutcome)])
      else if row.startedAt.Some? then reply == ClaimRefused(SuggestionInProgress) && db' == db
      else if !WorkflowStillCollects(db, row) then
        GivenUp(row, ended) && reply == Committed(AsRead(ended)) && Became(db, db', id, ended, [])
      else if now < row.queuedAt.value then reply == ClaimRefused(RejectedByConstraint) && db' == db
      else
        && ended == row.(startedAt := Some(now)) && Became(db, db', id, ended, [])
        && Owned(db, row.owner, row.workflow)
        && reply == Granted(Claim(id, row.owner, now, db.workflows[row.workflow].snapshot.title, Asked(row)))
  {
    hide SuggestionInv, Latest, SnapshotOfRow, ConstraintsHold, CanonicalTitle, NormalizeOptional, ProgressOk,
         InputsOk, Claimable, WorkflowStillCollects;
    var row := db.suggestions[id];
    InvOfRow(db, id);
    ended := row;
    if row.status == Pending && IsCloudRow(row) {
      InputsAreReadable(db, row);
      ClaimedRowsAreStorable(db, row, now);
      ClaimableIff(db, id);
      if now >= row.queuedAt.value + RESERVATION_TTL || row.startedAt.Some? {
        ended := FailRow(row);
      } else if !WorkflowStillCollects(db, row) {
        ended := SupersedeRow(row);
      } else {
        ended := row.(startedAt := Some(now));
      }
    }
  }

  lemma ClaimableIff(db: Db, i: nat)
    requires i < |db.suggestions|
    requires
      var row := db.suggestions[i];
      && IsCloudRow(row) && row.goal.Some? && InputsOk(db, row)
      && Latest(db.suggestions, row.owner, row.workflow) == Some(i)
    ensures Claimable(db, i) <==> WorkflowStillCollects(db, db.suggestions[i])
  {
    hide Latest, InputsOk, NormalizeOptional, WorkflowStillCollects;
    InputsAreReadable(db, db.suggestions[i]);
  }

  /** The stored inputs of a cloud row always decode, to what its fingerprint was made from. */
  lemma InputsAreReadable(db: Db, row: SuggestionRow)
    requires InputsOk(db, row)
    ensures IsCloudRow(row) ==>
              && row.goal.Some? && CanonicalTitle(row.goal.value)
              && row.expiresAt == Some(row.queuedAt.value + RESERVATION_TTL)
              && NormalizeOptional(row.clarification) == Some(Asked(row))
              && row.payload == SuggestPayload(row.workflow, row.baseRevision, row.step, row.goal.value, Asked(row))
              && Owned(db, row.owner, row.workflow)
              && row.goal.value == db.workflows[row.workflow].snapshot.title
  {
    hide NormalizeOptional, CanonicalTitle;
  }

  lemma ClaimedRowsAreStorable(db: Db, row: SuggestionRow, now: int)
    requires InputsOk(db, row) && ProgressOk(row) && row.status == Pending
    ensures SnapshotOfRow(FailRow(row)) == Some(AsRead(FailRow(row)))
    ensures SnapshotOfRow(SupersedeRow(row)) == Some(AsRead(SupersedeRow(row)))
    ensures row.queuedAt.Some? ==> (ConstraintsHold(row.(startedAt := Some(now))) <==> now >= row.queuedAt.value)
  {
    CanonicalIsSettled(db.workflows[row.workflow].snapshot.title, MAX_TITLE_CODE_POINTS);
    hide CanonicalTitle, NormalizeOptional;
  }

  /** A lapsed claim is answered with a recorded timeout, never with a second grant. */
  lemma LapsedClaimTimesOut(db: Db, id: nat, now: int)
    requires SuggestionInv(db) && id < |db.suggestions| && db.suggestions[id].startedAt.Some?
    ensures
      var (db', reply) := ClaimSuggestion(db, id, now);
      && !reply.Granted?
      && (db.suggestions[id].status == Pending && now >= db.suggestions[id].startedAt.value + CLAIM_TTL ==>
            && db'.suggestions[id].status == Failed && db'.suggestions[id].error == Some(Timeout)
            && reply.Committed? && reply.snapshot.status == Failed && reply.snapshot.error == Some(Timeout))
  {
    hide SuggestionInv, InputsOk, ClaimSuggestion, WorkflowStillCollects, ProgressOk;
    InvOfRow(db, id);
    var ended := ClaimDecision(db, id, now);
    ClaimedIsQueued(db.suggestions[id]);
  }

  /**
   * A claimed pending row of an unchanged workflow can, at any given time,
   * either still be saved or already be expired, and never both.
   */
  lemma SaveOrExpire(db: Db, claim: Claim, result: ProviderResult, now: int)
    requires SuggestionInv(db) && claim.id < |db.suggestions| && Acceptable(result)
    requires
      var row := db.suggestions[claim.id];
      && row.status == Pending && row.owner == claim.owner && row.startedAt == Some(claim.startedAt)
      && WorkflowStillCollects(db, row)
    ensures
      var saved := FinishClaimed(db, claim, result, now);
      var expired := ExpireRow(db, claim.id, now);
      || (&& saved.0 != db && Stores(result, db.suggestions[claim.id], saved.0.suggestions[claim.id])
          && expired == db)
      || (&& saved == (db, Discarded)
          && expired != db && TimedOut(db.suggestions[claim.id], expired.suggestions[claim.id]))
  {
    hide SuggestionInv, SnapshotOfRow, Latest, WorkflowStillCollects, Acceptable, NormalizeOptional, InputsOk,
         ProgressOk, CanonicalTitle, ConstraintsHold, SetResult, FailRow, FinishClaimed, ExpireRow, SavedRow;
    var row := db.suggestions[claim.id];
    InvOfRow(db, claim.id);
    InputsAreReadable(db, row);
    ClaimedIsQueued(row);
    EndsDiffer(row, result);
    SaveSide(db, claim, result, now);
    ExpireSide(db, claim.id, now);
  }

  /** Out of its own time or of the row's. */
  predicate Lapsed(row: SuggestionRow, now: int) { PastExpiry(row, now) || PastClaim(row, now) }

  lemma SaveSide(db: Db, claim: Claim, result: ProviderResult, now: int)
    requires claim.id < |db.suggestions| && Acceptable(result)
    requires
      var row := db.suggestions[claim.id];
      && row.status == Pending && row.owner == claim.owner && row.startedAt == Some(claim.startedAt) && IsCloudRow(row)
      && NormalizeOptional(row.clarification).Some? && WorkflowStillCollects(db, row)
      && Latest(db.suggestions, row.owner, row.workflow) == Some(claim.id)
    ensures
      var row := db.suggestions[claim.id];
      if Lapsed(row, now) then FinishClaimed(db, claim, result, now) == (db, Discarded)
      else FinishClaimed(db, claim, result, now).0
           == Rewrite(db, claim.id, SetResult(row, result), [Finished(row, OutcomeOf(result))])
  {
    hide Latest, WorkflowStillCollects, Acceptable, NormalizeOptional, SetResult, PastExpiry, PastClaim, SavedRow;
  }

  lemma ExpireSide(db: Db, id: nat, now: int)
    requires id < |db.suggestions|
    requires db.suggestions[id].status == Pending && IsCloudRow(db.suggestions[id]) &&
        db.suggestions[id].expiresAt.Some?
    ensures
      var row := db.suggestions[id];
      ExpireRow(db, id, now)
      == if Lapsed(row, now) then Rewrite(db, id, FailRow(row), [Finished(row, ExpiredOutcome)]) else db
  {
    hide FailRow, PastClaim;
  }

  lemma ClaimedIsQueued(row: SuggestionRow)
    requires ProgressOk(row) && row.startedAt.Some?
    ensures IsCloudRow(row)
  {
  }

  lemma EndsDiffer(row: SuggestionRow, result: ProviderResult)
    requires row.status == Pending
    ensures SetResult(row, result) != row && FailRow(row) != row
    ensures Stores(result, row, SetResult(row, result)) && TimedOut(row, FailRow(row))
  {
  }

  /** Row `i` was not ready before and is ready after. */
  ghost predicate TurnsReady(db: Db, db': Db, i: nat) {
    && i < |db.suggestions| && i < |db'.suggestions|
    && db.suggestions[i].status != Ready && db'.suggestions[i].status == Ready
  }

  /** READY is only ever saved while the workflow still stands where the row was based. */
  lemma ReadyOnlyAtItsBase(db: Db, claim: Claim, owner: int, id: Uuid, request: Uuid, result: ProviderResult, now: int,
                           i: nat)
    requires SuggestionInv(db)
    requires || TurnsReady(db, FinishClaimed(db, claim, result, now).0, i)
             || TurnsReady(db, FinishInline(db, owner, id, request, result).0, i)
    ensures WorkflowStillCollects(db, db.suggestions[i])
  {
    hide FinishClaimed, FinishInline, SuggestionInv, ProgressOk, AnnouncedBy, WorkflowStillCollects, Evolves;
    var row, events := FinishClaimedCases(db, claim, result, now);
    var j, row', events' := FinishInlineCases(db, owner, id, request, result);
  }

  /**
   * Resending a reservation never changes anything. It is stale exactly when its
   * row was superseded; otherwise a cloud request gets the stored row back, with
   * the deadlines of its first reservation, and an inline one learns it is running.
   */
  lemma ResentReserve(db: Db, owner: int, id: Uuid, request: Uuid, expectedRevision: int, step: StepId,
                      clarification: Option<Clarification>, queued: bool, now: int, i: nat)
    requires SuggestionInv(db) && WorkflowsCoherent(db) && i < |db.suggestions|
    requires RequestOf(db.suggestions[i], owner, id, request)
    requires NormalizeOptional(clarification) == Some(Asked(db.suggestions[i]))
    requires expectedRevision == db.suggestions[i].baseRevision && step == db.suggestions[i].step
    ensures
      var row := db.suggestions[i];
      var (db', reply) := Reserve(db, owner, id, request, expectedRevision, step, clarification, queued, now);
      && db' == db
      && (reply == ReserveRefused(StaleSuggestion) <==> row.status == Superseded)
      && (reply == ReserveRefused(SuggestionInProgress) <==> row.status == Pending && row.queuedAt.None?)
      && (row.status != Superseded && !(row.status == Pending && row.queuedAt.None?) ==>
            reply == Replayed(SuggestionSnapshot(id, request, row.baseRevision, row.step, row.status, row.titles,
                                                 row.error)))
  {
    hide SuggestionInv, SnapshotOfRow, Latest, FindSuggestion, NormalizeOptional, ProgressOk, InputsOk,
         WorkflowsCoherent, ActiveRefusal, ConstraintsHold, CanonicalTitle;
    var row := db.suggestions[i];
    InvOfRow(db, i);
    RowsAreStorable(db, row);
    FoundByRequest(db, i);
    PayloadOf(db, row);
  }

  lemma PayloadOf(db: Db, row: SuggestionRow)
    requires InputsOk(db, row)
    ensures Owned(db, row.owner, row.workflow)
    ensures row.payload
         == SuggestPayload(row.workflow, row.baseRevision, row.step, db.workflows[row.workflow].snapshot.title,
                           Asked(row))
  {
    hide NormalizeOptional, CanonicalTitle;
  }

  lemma FoundByRequest(db: Db, i: nat)
    requires SuggestionInv(db) && i < |db.suggestions|
    ensures
      var row := db.suggestions[i];
      FindSuggestion(db.suggestions, row.owner, row.workflow, row.request) == Some(i)
  {
    hide RowsOk, RequestsUnique, EventsCountRows, PendingIsNewest, FindSuggestion;
    RequestIsFound(db, i);
  }

  lemma RequestIsFound(db: Db, i: nat)
    requires RowsOk(db) && RequestsUnique(db.suggestions) && i < |db.suggestions|
    ensures
      var row := db.suggestions[i];
      FindSuggestion(db.suggestions, row.owner, row.workflow, row.request) == Some(i)
  {
    hide InputsOk, ProgressOk;
    var row := db.suggestions[i];
    var found := FindSuggestion(db.suggestions, row.owner, row.workflow, row.request);
    assert RequestOf(db.suggestions[i], row.owner, row.workflow, row.request);
    assert found.Some?;
  }

  /** The same request id with anything changed is refused, and nothing is written. */
  lemma ReusedRequestIsRefused(db: Db, owner: int, id: Uuid, request: Uuid, expectedRevision: int, step: StepId,
                               clarification: Option<Clarification>, queued: bool, now: int, i: nat)
    requires SuggestionInv(db) && i < |db.suggestions|
    requires RequestOf(db.suggestions[i], owner, id, request)
    requires NormalizeOptional(clarification).Some?
    requires !(NormalizeOptional(clarification) == Some(Asked(db.suggestions[i]))
               && expectedRevision == db.suggestions[i].baseRevision && step == db.suggestions[i].step)
    ensures Reserve(db, owner, id, request, expectedRevision, step, clarification, queued, now)
         == (db, ReserveRefused(RequestReused))
  {
    var row := db.suggestions[i];
    assert InputsOk(db, row);
    RequestIsFound(db, i);
    assert Owned(db, owner, id);
    assert row.payload == SuggestPayload(id, row.baseRevision, row.step, db.workflows[id].snapshot.title, Asked(row));
    hide SuggestionInv, FindSuggestion, NormalizeOptional, InputsOk, SnapshotOfRow, Latest;
  }

  // -------------------------------------------------------------------- sweeps

  function OverdueAt(now: int): SuggestionRow -> bool {
    (row: SuggestionRow) => Overdue(row, now)
  }

  lemma NothingToCount(now: int)
    ensures Count([], OverdueAt(now)) == 0
  {
  }

  lemma {:induction false} CandidatesAreTheFirst(rows: seq<SuggestionRow>, from: nat, now: int, limit: nat)
    requires from <= |rows|
    ensures
      var n := Count(rows[from..], OverdueAt(now));
      |Candidates(rows, from, now, limit)| == if n < limit then n else limit
    decreases |rows| - from
  {
    hide Count, Overdue, PastClaim;
    if from == |rows| {
      NothingToCount(now);
    } else {
      CountFromFront(rows[from..], OverdueAt(now));
      assert rows[from..][1..] == rows[from + 1..];
      if limit > 0 {
        CandidatesAreTheFirst(rows, from + 1, now, if Overdue(rows[from], now) then limit - 1 else limit);
      }
    }
  }

  lemma {:induction false} ExpireAllExpires(db: Db, ids: seq<nat>, locked: set<Uuid>, now: int)
    requires forall k :: 0 <= k < |ids| ==> ids[k] < |db.suggestions| && Overdue(db.suggestions[ids[k]], now)
    requires forall k, l :: 0 <= k < l < |ids| ==> ids[k] < ids[l]
    ensures
      var db' := ExpireAll(db, ids, locked, now);
      var reached := Unlocked(db.suggestions, ids, locked);
      && |db'.suggestions| == |db.suggestions|
      && Count(db'.suggestions, OverdueAt(now)) == Count(db.suggestions, OverdueAt(now)) - |reached|
      && forall i :: 0 <= i < |db.suggestions| ==>
           db'.suggestions[i] == if i in reached then FailRow(db.suggestions[i]) else db.suggestions[i]
    decreases |ids|
  {
    hide Count, ExpireRow, Overdue, FailRow;
    if ids != [] {
      var init, id := ids[..|ids| - 1], ids[|ids| - 1];
      ExpireAllExpires(db, init, locked, now);
      var mid := ExpireAll(db, init, locked, now);
      assert id !in init;
      assert mid.suggestions[id] == db.suggestions[id];
      ExpireOne(mid, id, now);
    }
  }

  lemma ExpireOne(db: Db, id: nat, now: int)
    requires id < |db.suggestions| && Overdue(db.suggestions[id], now)
    ensures
      var db' := ExpireRow(db, id, now);
      && db'.suggestions == db.suggestions[id := FailRow(db.suggestions[id])]
      && Count(db'.suggestions, OverdueAt(now)) == Count(db.suggestions, OverdueAt(now)) - 1
  {
    CountUpdate(db.suggestions, id, FailRow(db.suggestions[id]), OverdueAt(now));
    hide Count;
  }

  /** When the sweep comes to a candidate, nobody in this transaction has touched it yet. */
  lemma SweepReaches(db: Db, ids: seq<nat>, k: nat, locked: set<Uuid>, now: int)
    requires k < |ids|
    requires forall l :: 0 <= l < |ids| ==> ids[l] < |db.suggestions| && Overdue(db.suggestions[ids[l]], now)
    requires forall l, m :: 0 <= l < m < |ids| ==> ids[l] < ids[m]
    ensures
      var mid := ExpireAll(db, ids[..k], locked, now);
      && |mid.suggestions| == |db.suggestions|
      && mid.suggestions[ids[k]] == db.suggestions[ids[k]]
  {
    hide Count, Overdue;
    ExpireAllExpires(db, ids[..k], locked, now);
    assert ids[k] !in ids[..k];
  }

  lemma {:induction false} NothingLocked(rows: seq<SuggestionRow>, ids: seq<nat>)
    ensures Unlocked(rows, ids, {}) == ids
  {
    if ids != [] {
      NothingLocked(rows, ids[..|ids| - 1]);
      assert ids == ids[..|ids| - 1] + [ids[|ids| - 1]];
    }
  }

  function Sweeps(db: Db, k: nat, now: int): Db {
    if k == 0 then db else ExpireSuggestions(Sweeps(db, k - 1, now), {}, now)
  }

  lemma OneSweep(db: Db, now: int)
    ensures
      var n := Count(db.suggestions, OverdueAt(now));
      Count(ExpireSuggestions(db, {}, now).suggestions, OverdueAt(now))
        == if n > 100 then n - 100 else 0
  {
    CandidatesAreTheFirst(db.suggestions, 0, now, EXPIRE_BATCH_LIMIT);
    assert db.suggestions[0..] == db.suggestions;
    var ids := Candidates(db.suggestions, 0, now, EXPIRE_BATCH_LIMIT);
    ExpireAllExpires(db, ids, {}, now);
    NothingLocked(db.suggestions, ids);
    hide Overdue, ExpireAll, Candidates, Count;
  }

  /** With nobody else at work, k sweeps leave max(0, n - 100k) of n overdue rows. */
  lemma {:induction false} SweepsDrain(db: Db, k: nat, now: int)
    ensures
      var n := Count(db.suggestions, OverdueAt(now));
      Count(Sweeps(db, k, now).suggestions, OverdueAt(now))
        == if n > 100 * k then n - 100 * k else 0
  {
    hide Count, ExpireSuggestions, OverdueAt;
    if k > 0 {
      SweepsDrain(db, k - 1, now);
      OneSweep(Sweeps(db, k - 1, now), now);
    }
  }
}
