/** What every suggestion transaction keeps, proved one kind of write at a time. */
module SuggestionInvariant {
  import opened Prelude
  import opened Titles
  import opened WorkflowDomain
  import opened Tables
  import opened SuggestionService

  // ---------------------------------------------------------------- invariant

  /** The clarification a row's fingerprint was made from. */
  function Asked(row: SuggestionRow): Option<Clarification> {
    if row.payload.SuggestPayload? then row.payload.clarification else None
  }

  /** The part of a row that is written once. */
  ghost predicate InputsOk(db: Db, row: SuggestionRow) {
    && Owned(db, row.owner, row.workflow)
    && var s := db.workflows[row.workflow].snapshot;
    && CanonicalTitle(s.title)
    && row.step == StepOf(row.workflow, CollectTasks)
    && 0 <= row.baseRevision <= s.revision <= MAX_WORKFLOW_REVISION
    && row.payload == SuggestPayload(row.workflow, row.baseRevision, row.step, s.title, Asked(row))
    && NormalizeOptional(Asked(row)) == Some(Asked(row))
    && (if row.queuedAt.Some? then
          && row.expiresAt == Some(row.queuedAt.value + RESERVATION_TTL)
          && row.goal == Some(s.title)
          && row.clarification == Asked(row)
        else row.expiresAt.None? && row.goal.None? && row.clarification.None?)
  }

  /** The part that transactions move: status with titles and error, and the claim marker. */
  ghost predicate ProgressOk(row: SuggestionRow) {
    && (row.startedAt.Some? ==> row.queuedAt.Some? && row.startedAt.value >= row.queuedAt.value)
    && match row.status
       case Ready => row.error.None? && Submittable(row.titles)
       case Failed => row.error.Some? && row.titles == []
       case _ => row.error.None? && row.titles == []
  }

  ghost predicate RowsOk(db: Db) {
    forall i :: 0 <= i < |db.suggestions| ==> InputsOk(db, db.suggestions[i]) && ProgressOk(db.suggestions[i])
  }

  /** A pending suggestion is its workflow's newest row, so there is at most one. */
  ghost predicate PendingIsNewest(rows: seq<SuggestionRow>) {
    forall i, j :: 0 <= i < j < |rows| && rows[i].status == Pending ==> rows[j].workflow != rows[i].workflow
  }

  ghost predicate RequestsUnique(rows: seq<SuggestionRow>) {
    forall i, j :: 0 <= i < j < |rows| && rows[i].workflow == rows[j].workflow ==> rows[i].request != rows[j].request
  }

  function EndedEvent(id: Uuid): Event -> bool {
    (e: Event) => e.SuggestionFinished? && e.workflow == id
  }

  function ReadyEvent(id: Uuid): Event -> bool {
    (e: Event) => e.SuggestionFinished? && e.workflow == id && e.outcome == ReadyOutcome
  }

  function EndedRow(id: Uuid): SuggestionRow -> bool {
    (row: SuggestionRow) => row.workflow == id && (row.status == Ready || row.status == Failed)
  }

  function ReadyRow(id: Uuid): SuggestionRow -> bool {
    (row: SuggestionRow) => row.workflow == id && row.status == Ready
  }

  /** One suggestion_finished event per ready or failed row, and "ready" exactly for the ready ones. */
  ghost predicate EventsCountRows(events: seq<Event>, rows: seq<SuggestionRow>) {
    forall id: Uuid ::
      && Count(events, EndedEvent(id)) == Count(rows, EndedRow(id))
      && Count(events, ReadyEvent(id)) == Count(rows, ReadyRow(id))
  }

  ghost predicate SuggestionInv(db: Db) {
    && RowsOk(db)
    && PendingIsNewest(db.suggestions)
    && RequestsUnique(db.suggestions)
    && EventsCountRows(db.events, db.suggestions)
  }

  /** A row that satisfies the invariant passes the table's constraints and reads back. */
  lemma RowsAreStorable(db: Db, row: SuggestionRow)
    requires InputsOk(db, row) && ProgressOk(row)
    ensures ConstraintsHold(row)
    ensures SnapshotOfRow(row)
         == Some(SuggestionSnapshot(row.workflow, row.request, row.baseRevision, row.step, row.status, row.titles,
                                    row.error))
  {
    CanonicalIsSettled(db.workflows[row.workflow].snapshot.title, MAX_TITLE_CODE_POINTS);
    SubmittedTitlesFixed(row.titles);
  }

  lemma PendingIsLatest(db: Db, i: nat)
    requires RowsOk(db) && PendingIsNewest(db.suggestions)
    requires i < |db.suggestions| && db.suggestions[i].status == Pending
    ensures Latest(db.suggestions, db.suggestions[i].owner, db.suggestions[i].workflow) == Some(i)
  {
    hide InputsOk, ProgressOk;
    var row := db.suggestions[i];
    var latest := Latest(db.suggestions, row.owner, row.workflow);
    assert RowOf(db.suggestions[i], row.owner, row.workflow);
  }

  // -------------------------------------------------------------- row evolution

  /** What is allowed to happen to a row: inputs stay, the marker is written once, ended rows are frozen. */
  ghost predicate Evolves(before: SuggestionRow, after: SuggestionRow) {
    && after == before.(status := after.status, titles := after.titles, error := after.error,
                        startedAt := after.startedAt)
    && (before.startedAt.Some? ==> after.startedAt == before.startedAt)
    && (before.status != Pending ==> after == before)
  }

  ghost predicate RowsEvolve(rows: seq<SuggestionRow>, later: seq<SuggestionRow>) {
    && |rows| <= |later|
    && forall i :: 0 <= i < |rows| ==> Evolves(rows[i], later[i])
  }

  lemma RowsEvolveThrough(a: seq<SuggestionRow>, b: seq<SuggestionRow>, c: seq<SuggestionRow>)
    requires RowsEvolve(a, b) && RowsEvolve(b, c)
    ensures RowsEvolve(a, c)
  {
    forall i | 0 <= i < |a| ensures Evolves(a[i], c[i]) {
      assert Evolves(a[i], b[i]) && Evolves(b[i], c[i]);
    }
  }

  // ------------------------------------------------------------------ one row

  /** The events that must accompany a pending row turning into `row`. */
  ghost predicate AnnouncedBy(row: SuggestionRow, events: seq<Event>) {
    match row.status
    case Ready => events == [Finished(row, ReadyOutcome)]
    case Failed => events == [Finished(row, FailedOutcome)] || events == [Finished(row, ExpiredOutcome)]
    case _ => events == []
  }

  /** A pending row `i` rewritten into `row`. */
  ghost predicate Rewritten(db: Db, db': Db, i: nat, row: SuggestionRow, events: seq<Event>) {
    && i < |db.suggestions|
    && db.suggestions[i].status == Pending
    && Evolves(db.suggestions[i], row)
    && ProgressOk(row)
    && AnnouncedBy(row, events)
    && db' == Rewrite(db, i, row, events)
  }

  lemma CountEvents(events: seq<Event>, more: seq<Event>, id: Uuid)
    requires |more| <= 1
    ensures Count(events + more, EndedEvent(id))
         == Count(events, EndedEvent(id)) + (if more != [] && EndedEvent(id)(more[0]) then 1 else 0)
    ensures Count(events + more, ReadyEvent(id))
         == Count(events, ReadyEvent(id)) + (if more != [] && ReadyEvent(id)(more[0]) then 1 else 0)
  {
    if more == [] {
      assert events + more == events;
    } else {
      assert more == [more[0]];
      CountAppend(events, more[0], EndedEvent(id));
      CountAppend(events, more[0], ReadyEvent(id));
    }
  }

  lemma RewrittenKeepsCounts(db: Db, db': Db, i: nat, row: SuggestionRow, events: seq<Event>)
    requires EventsCountRows(db.events, db.suggestions) && Rewritten(db, db', i, row, events)
    ensures EventsCountRows(db'.events, db'.suggestions)
  {
    hide ProgressOk;
    forall id: Uuid
      ensures Count(db'.events, EndedEvent(id)) == Count(db'.suggestions, EndedRow(id))
      ensures Count(db'.events, ReadyEvent(id)) == Count(db'.suggestions, ReadyRow(id))
    {
      CountEvents(db.events, events, id);
      CountUpdate(db.suggestions, i, row, EndedRow(id));
      CountUpdate(db.suggestions, i, row, ReadyRow(id));
      hide Count;
    }
  }

  lemma RewrittenKeepsRows(db: Db, db': Db, i: nat, row: SuggestionRow, events: seq<Event>)
    requires RowsOk(db) && Rewritten(db, db', i, row, events)
    ensures RowsOk(db')
  {
    hide ProgressOk, AnnouncedBy;
    forall j | 0 <= j < |db'.suggestions|
      ensures InputsOk(db', db'.suggestions[j]) && ProgressOk(db'.suggestions[j])
    {
      assert InputsOk(db, db.suggestions[j]) && ProgressOk(db.suggestions[j]);
    }
  }

  lemma RewrittenKeepsInv(db: Db, db': Db, i: nat, row: SuggestionRow, events: seq<Event>)
    requires SuggestionInv(db) && Rewritten(db, db', i, row, events)
    ensures SuggestionInv(db') && RowsEvolve(db.suggestions, db'.suggestions)
  {
    RewrittenKeepsRows(db, db', i, row, events);
    RewrittenKeepsCounts(db, db', i, row, events);
    hide RowsOk, EventsCountRows, ProgressOk, AnnouncedBy;
  }

  // ------------------------------------------------------------------ reserve

  /** A new row appended after the workflow's pending ones were superseded. */
  ghost predicate Appended(db: Db, db': Db, row: SuggestionRow) {
    && InputsOk(db, row) && ProgressOk(row) && row.status == Pending && row.startedAt.None?
    && FindSuggestion(db.suggestions, row.owner, row.workflow, row.request).None?
    && db' == db.(suggestions := SupersedePending(db.suggestions, row.owner, row.workflow) + [row])
  }

  lemma SupersededRow(db: Db, owner: int, id: Uuid, i: nat)
    requires RowsOk(db) && i < |db.suggestions|
    ensures
      var row := SupersedePending(db.suggestions, owner, id)[i];
      && Evolves(db.suggestions[i], row) && InputsOk(db, row) && ProgressOk(row)
      && (row.status == Pending ==> row == db.suggestions[i] && !RowOf(row, owner, id))
      && EndedRow(id)(row) == EndedRow(id)(db.suggestions[i])
  {
    assert InputsOk(db, db.suggestions[i]) && ProgressOk(db.suggestions[i]);
  }

  lemma AppendedKeepsRows(db: Db, db': Db, row: SuggestionRow)
    requires RowsOk(db) && Appended(db, db', row)
    ensures RowsOk(db') && RowsEvolve(db.suggestions, db'.suggestions)
  {
    hide InputsOk, ProgressOk, Evolves, FindSuggestion;
    var kept := SupersedePending(db.suggestions, row.owner, row.workflow);
    forall i | 0 <= i < |db.suggestions|
      ensures InputsOk(db, kept[i]) && ProgressOk(kept[i]) && Evolves(db.suggestions[i], kept[i])
    {
      SupersededRow(db, row.owner, row.workflow, i);
    }
    forall i | 0 <= i < |db'.suggestions|
      ensures InputsOk(db', db'.suggestions[i]) && ProgressOk(db'.suggestions[i])
    {
      InputsOnlyReadWorkflows(db, db', db'.suggestions[i]);
    }
  }

  lemma InputsOnlyReadWorkflows(db: Db, db': Db, row: SuggestionRow)
    requires db.workflows == db'.workflows
    ensures InputsOk(db, row) == InputsOk(db', row)
  {
  }

  lemma AppendedKeepsOrder(db: Db, db': Db, row: SuggestionRow)
    requires RowsOk(db) && PendingIsNewest(db.suggestions) && Appended(db, db', row)
    ensures PendingIsNewest(db'.suggestions)
  {
    hide ProgressOk, FindSuggestion;
    var kept := SupersedePending(db.suggestions, row.owner, row.workflow);
    forall i | 0 <= i < |kept| ensures kept[i].status == Pending ==> kept[i].workflow != row.workflow {
      assert InputsOk(db, db.suggestions[i]);
    }
    hide RowsOk, InputsOk;
  }

  lemma AppendedKeepsRequests(db: Db, db': Db, row: SuggestionRow)
    requires RowsOk(db) && RequestsUnique(db.suggestions) && Appended(db, db', row)
    ensures RequestsUnique(db'.suggestions)
  {
    hide ProgressOk;
    var kept := SupersedePending(db.suggestions, row.owner, row.workflow);
    forall i | 0 <= i < |kept| && kept[i].workflow == row.workflow ensures kept[i].request != row.request {
      assert InputsOk(db, db.suggestions[i]);
      assert !RequestOf(db.suggestions[i], row.owner, row.workflow, row.request);
    }
    hide RowsOk, InputsOk, FindSuggestion;
  }

  lemma AppendedKeepsCounts(db: Db, db': Db, row: SuggestionRow)
    requires EventsCountRows(db.events, db.suggestions) && Appended(db, db', row)
    ensures EventsCountRows(db'.events, db'.suggestions)
  {
    hide InputsOk, ProgressOk, FindSuggestion;
    var kept := SupersedePending(db.suggestions, row.owner, row.workflow);
    forall id: Uuid
      ensures Count(db'.events, EndedEvent(id)) == Count(db'.suggestions, EndedRow(id))
      ensures Count(db'.events, ReadyEvent(id)) == Count(db'.suggestions, ReadyRow(id))
    {
      CountPointwise(kept, db.suggestions, EndedRow(id), EndedRow(id));
      CountPointwise(kept, db.suggestions, ReadyRow(id), ReadyRow(id));
      CountAppend(kept, row, EndedRow(id));
      CountAppend(kept, row, ReadyRow(id));
    }
  }

  lemma AppendedKeepsInv(db: Db, db': Db, row: SuggestionRow)
    requires SuggestionInv(db) && Appended(db, db', row)
    ensures SuggestionInv(db') && RowsEvolve(db.suggestions, db'.suggestions)
  {
    AppendedKeepsRows(db, db', row);
    AppendedKeepsOrder(db, db', row);
    AppendedKeepsRequests(db, db', row);
    AppendedKeepsCounts(db, db', row);
  }

  // -------------------------------------------------- workflow transactions

  /** What a workflow transaction may do as far as suggestions are concerned. */
  ghost predicate WorkflowsMoveOn(db: Db, db': Db, events: seq<Event>) {
    && db'.suggestions == db.suggestions
    && db'.events == db.events + events && |events| <= 1
    && (forall e :: e in events ==> !e.SuggestionFinished?)
    && forall id :: id in db.workflows ==>
         && id in db'.workflows
         && db'.workflows[id].owner == db.workflows[id].owner
         && db'.workflows[id].snapshot.title == db.workflows[id].snapshot.title
         && db.workflows[id].snapshot.revision <= db'.workflows[id].snapshot.revision <= MAX_WORKFLOW_REVISION
  }

  lemma InputsStayOk(db: Db, db': Db, events: seq<Event>, row: SuggestionRow)
    requires InputsOk(db, row) && WorkflowsMoveOn(db, db', events)
    ensures InputsOk(db', row)
  {
  }

  lemma MovingOnKeepsInv(db: Db, db': Db, events: seq<Event>)
    requires SuggestionInv(db) && WorkflowsMoveOn(db, db', events)
    ensures SuggestionInv(db')
  {
    hide InputsOk, ProgressOk;
    forall i | 0 <= i < |db'.suggestions|
      ensures InputsOk(db', db'.suggestions[i]) && ProgressOk(db'.suggestions[i])
    {
      assert InputsOk(db, db.suggestions[i]) && ProgressOk(db.suggestions[i]);
      InputsStayOk(db, db', events, db.suggestions[i]);
    }
    forall id: Uuid
      ensures Count(db'.events, EndedEvent(id)) == Count(db'.suggestions, EndedRow(id))
      ensures Count(db'.events, ReadyEvent(id)) == Count(db'.suggestions, ReadyRow(id))
    {
      CountEvents(db.events, events, id);
    }
  }
}
