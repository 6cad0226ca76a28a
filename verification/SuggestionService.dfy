/**
 * The suggestion protocol: reserve, finish inline, claim, finish a claim, expire.
 * Each function is one transaction that holds the workflow's lock. `now` is the
 * time that transaction started, so it may lag behind what others committed.
 */
module SuggestionService {
  import opened Prelude
  import opened Titles
  import opened WorkflowDomain
  import opened Tables

  /** Times are in microseconds. */
  const SECOND := 1_000_000
  const RESERVATION_TTL := 15 * 60 * SECOND
  const CLAIM_TTL := 2 * 60 * SECOND
  const EXPIRE_BATCH_LIMIT: nat := 100
  const MAX_CLARIFICATION_CODE_POINTS: nat := 200

  datatype SuggestionError =
    | InvalidClarification
    | InvalidResult
    | UnsupportedWorkflow
    | InvalidSuggestionState
    | StaleStep
    | RequestReused
    | SuggestionInProgress
    | StaleSuggestion
    | InvalidStoredSuggestion
    | RejectedByConstraint

  datatype SuggestionSnapshot = SuggestionSnapshot(
    workflow: Uuid,
    request: Uuid,
    baseRevision: int,
    step: StepId,
    status: Status,
    titles: seq<Text>,
    error: Option<ErrorCode>
  )

  /** What a provider call comes to. */
  datatype ProviderResult = Proposed(titles: seq<Text>) | Failure(code: ErrorCode)

  // ------------------------------------------------------------ stored values

  function NormalizeClarification(c: Clarification): Option<Clarification> {
    if c.field.OutsideCatalog? then None
    else match CanonicalizeWithin(c.value, MAX_CLARIFICATION_CODE_POINTS)
      case Err(_) => None
      case Ok(value) => Some(Clarification(c.field, value))
  }

  /** An optional clarification normalized; None when it is refused. */
  function NormalizeOptional(c: Option<Clarification>): Option<Option<Clarification>> {
    if c.None? then Some(None)
    else match NormalizeClarification(c.value)
      case None => None
      case Some(normal) => Some(Some(normal))
  }

  lemma NormalizingSettles(c: Option<Clarification>)
    requires NormalizeOptional(c).Some?
    ensures NormalizeOptional(NormalizeOptional(c).value) == NormalizeOptional(c)
  {
    if c.Some? { CanonicalIsSettled(c.value.value, MAX_CLARIFICATION_CODE_POINTS); }
  }

  /** suggestion_snapshot_from_row; None stands for InvalidStoredSuggestion. */
  function SnapshotOfRow(row: SuggestionRow): Option<SuggestionSnapshot> {
    if !(0 <= row.baseRevision <= MAX_WORKFLOW_REVISION) || row.step == OtherStep("") then None
    else
      var valid :=
        match row.status
        case Ready => row.error.None? && SubmittedTitles(row.titles) == Ok(row.titles)
        case Failed => row.titles == [] && row.error.Some?
        case _ => row.titles == [] && row.error.None?;
      if valid then
        Some(SuggestionSnapshot(row.workflow, row.request, row.baseRevision, row.step, row.status, row.titles,
                                row.error))
      else None
  }

  predicate IsCloudRow(row: SuggestionRow) { row.queuedAt.Some? }

  /** The check constraints of the table that speak about times and input snapshots. */
  predicate ConstraintsHold(row: SuggestionRow) {
    && 0 <= row.baseRevision <= MAX_WORKFLOW_REVISION
    && (|| (&& row.queuedAt.None? && row.expiresAt.None? && row.startedAt.None?
            && row.goal.None? && row.clarification.None?)
        || (row.queuedAt.Some? && row.expiresAt.Some? && row.goal.Some?))
    && (row.expiresAt.Some? && row.queuedAt.Some? ==> row.expiresAt.value > row.queuedAt.value)
    && (row.startedAt.Some? && row.queuedAt.Some? ==> row.startedAt.value >= row.queuedAt.value)
    && (row.goal.Some? ==> 1 <= |row.goal.value| <= MAX_TITLE_CODE_POINTS)
    && (match row.status
        case Ready => row.error.None? && MIN_BREAKDOWN_TITLES <= |row.titles| <= MAX_BREAKDOWN_TITLES
        case Failed => row.error.Some? && row.titles == []
        case _ => row.error.None? && row.titles == [])
  }

  // ------------------------------------------------------------- row updates

  /** The canonical titles of a provider result, or nothing when it must be refused. */
  predicate Acceptable(result: ProviderResult) {
    result.Proposed? ==> SubmittedTitles(result.titles) == Ok(result.titles)
  }

  function SetResult(row: SuggestionRow, result: ProviderResult): SuggestionRow {
    match result
    case Proposed(titles) => row.(status := Ready, titles := titles, error := None)
    case Failure(code) => row.(status := Failed, titles := [], error := Some(code))
  }

  function FailRow(row: SuggestionRow): SuggestionRow {
    row.(status := Failed, titles := [], error := Some(Timeout))
  }

  function SupersedeRow(row: SuggestionRow): SuggestionRow {
    row.(status := Superseded, titles := [], error := None)
  }

  function Finished(row: SuggestionRow, outcome: Outcome): Event {
    SuggestionFinished(row.owner, row.workflow, outcome)
  }

  function OutcomeOf(result: ProviderResult): Outcome {
    if result.Proposed? then ReadyOutcome else FailedOutcome
  }

  /** Row `i` rewritten, with the events recorded in the same transaction. */
  function Rewrite(db: Db, i: nat, row: SuggestionRow, events: seq<Event>): Db
    requires i < |db.suggestions|
  {
    db.(suggestions := db.suggestions[i := row], events := db.events + events)
  }

  // ---------------------------------------------------------------- reserve

  datatype ReserveReply =
    | Reserved(id: nat, goal: Text, clarification: Option<Clarification>)
    | Replayed(snapshot: SuggestionSnapshot)
    | NoWorkflow
    | ReserveRefused(error: SuggestionError)

  function ActiveRefusal(s: Snapshot, id: Uuid, expectedRevision: int, step: StepId): Option<SuggestionError> {
    if s.definition != CURRENT_DEFINITION then Some(UnsupportedWorkflow)
    else if s.state != CollectTasks then Some(InvalidSuggestionState)
    else if step != StepOf(id, s.state) then Some(StaleStep)
    else if expectedRevision != s.revision then Some(StaleStep)
    else None
  }

  function SupersedePending(rows: seq<SuggestionRow>, owner: int, id: Uuid): (r: seq<SuggestionRow>)
    ensures |r| == |rows|
  {
    seq(|rows|, i requires 0 <= i < |rows| =>
      if RowOf(rows[i], owner, id) && rows[i].status == Pending then rows[i].(status := Superseded) else rows[i])
  }

  function NewRow(owner: int, id: Uuid, request: Uuid, payload: Payload, expectedRevision: int, step: StepId,
                  goal: Text, clarification: Option<Clarification>, queued: bool, now: int): SuggestionRow
  {
    SuggestionRow(owner, id, request, payload, expectedRevision, step, Pending, [], None,
      if queued then Some(now) else None,
      if queued then Some(now + RESERVATION_TTL) else None,
      None,
      if queued then Some(goal) else None,
      if queued then clarification else None)
  }

  /** What a request that already has a row gets. */
  function ReplayReply(rows: seq<SuggestionRow>, i: nat, payload: Payload): (r: ReserveReply)
    requires i < |rows|
    ensures !r.Reserved?
  {
    var row := rows[i];
    if row.payload != payload then ReserveRefused(RequestReused)
    else match SnapshotOfRow(row)
      case None => ReserveRefused(InvalidStoredSuggestion)
      case Some(snapshot) =>
        if row.status.Ready? || row.status.Failed? then Replayed(snapshot)
        else if row.status.Pending? && Latest(rows, row.owner, row.workflow) == Some(i) then
          if IsCloudRow(row) then Replayed(snapshot) else ReserveRefused(SuggestionInProgress)
        else ReserveRefused(StaleSuggestion)
  }

  function Reserve(db: Db, owner: int, id: Uuid, request: Uuid, expectedRevision: int, step: StepId,
                   clarification: Option<Clarification>, queued: bool, now: int): (Db, ReserveReply)
  {
    match NormalizeOptional(clarification)
    case None => (db, ReserveRefused(InvalidClarification))
    case Some(canonical) =>
      if !Owned(db, owner, id) then (db, NoWorkflow)
      else
        var s := db.workflows[id].snapshot;
        var payload := SuggestPayload(id, expectedRevision, step, s.title, canonical);
        match FindSuggestion(db.suggestions, owner, id, request)
        case Some(i) => (db, ReplayReply(db.suggestions, i, payload))
        case None =>
          match ActiveRefusal(s, id, expectedRevision, step)
          case Some(error) => (db, ReserveRefused(error))
          case None =>
            if queued && !CanonicalTitle(s.title) then (db, ReserveRefused(InvalidStoredSuggestion))
            else
              var row := NewRow(owner, id, request, payload, expectedRevision, step, s.title, canonical, queued, now);
              (db.(suggestions := SupersedePending(db.suggestions, owner, id) + [row]),
               Reserved(|db.suggestions|, s.title, canonical))
  }

  // ---------------------------------------------------------- finish inline

  datatype FinishReply =
    | Saved(snapshot: SuggestionSnapshot)
    | Discarded
    | FinishRefused(error: SuggestionError)

  predicate WorkflowStillCollects(db: Db, row: SuggestionRow) {
    && Owned(db, row.owner, row.workflow)
    && var s := db.workflows[row.workflow].snapshot;
    && s.definition == CURRENT_DEFINITION
    && s.state == CollectTasks
    && s.revision == row.baseRevision
    && row.step == StepOf(row.workflow, s.state)
  }

  function SavedRow(row: SuggestionRow): FinishReply {
    match SnapshotOfRow(row)
    case Some(snapshot) => Saved(snapshot)
    case None => FinishRefused(InvalidStoredSuggestion)
  }

  function FinishInline(db: Db, owner: int, id: Uuid, request: Uuid, result: ProviderResult): (r: (Db, FinishReply))
    ensures |r.0.suggestions| == |db.suggestions| && r.0.workflows == db.workflows
  {
    if !Acceptable(result) then (db, FinishRefused(InvalidResult))
    else if !Owned(db, owner, id) then (db, Discarded)
    else match FindSuggestion(db.suggestions, owner, id, request)
      case None => (db, FinishRefused(StaleSuggestion))
      case Some(i) =>
        var row := db.suggestions[i];
        match SnapshotOfRow(row)
        case None => (db, FinishRefused(InvalidStoredSuggestion))
        case Some(snapshot) =>
          if row.status.Ready? || row.status.Failed? then (db, Saved(snapshot))
          else if !row.status.Pending? || Latest(db.suggestions, owner, id) != Some(i) then
            (db, FinishRefused(StaleSuggestion))
          else if !WorkflowStillCollects(db, row) then (db, FinishRefused(StaleSuggestion))
          else
            var row' := SetResult(row, result);
            (Rewrite(db, i, row', [Finished(row, OutcomeOf(result))]), SavedRow(row'))
  }

  // ------------------------------------------------------------------- claim

  /** A granted claim: the row it is for and the marker it wrote. */
  datatype Claim = Claim(id: nat, owner: int, startedAt: int, goal: Text, clarification: Option<Clarification>)

  datatype ClaimReply =
    | Granted(claim: Claim)
    | Committed(snapshot: SuggestionSnapshot)
    | NoWork
    | ClaimRefused(error: SuggestionError)

  predicate PastClaim(row: SuggestionRow, now: int) {
    row.startedAt.Some? && row.startedAt.value + CLAIM_TTL <= now
  }

  predicate PastExpiry(row: SuggestionRow, now: int) {
    row.expiresAt.None? || row.expiresAt.value <= now
  }

  function CommittedRow(row: SuggestionRow): ClaimReply {
    match SnapshotOfRow(row)
    case Some(snapshot) => Committed(snapshot)
    case None => ClaimRefused(InvalidStoredSuggestion)
  }

  predicate Claimable(db: Db, i: nat)
    requires i < |db.suggestions|
  {
    var row := db.suggestions[i];
    && row.goal.Some?
    && WorkflowStillCollects(db, row)
    && Latest(db.suggestions, row.owner, row.workflow) == Some(i)
    && NormalizeOptional(row.clarification).Some?
    && row.payload == SuggestPayload(row.workflow, row.baseRevision, row.step, row.goal.value,
                                     NormalizeOptional(row.clarification).value)
  }

  function ClaimSuggestion(db: Db, id: nat, now: int): (r: (Db, ClaimReply))
    ensures |r.0.suggestions| == |db.suggestions| && r.0.workflows == db.workflows
  {
    if id >= |db.suggestions| then (db, NoWork)
    else
      var row := db.suggestions[id];
      if row.status != Pending || !IsCloudRow(row) then (db, NoWork)
      else if row.goal.None? || !CanonicalTitle(row.goal.value) then (db, ClaimRefused(InvalidStoredSuggestion))
      else match NormalizeOptional(row.clarification)
        case None => (db, ClaimRefused(InvalidStoredSuggestion))
        case Some(clarification) =>
          if PastExpiry(row, now) then
            (Rewrite(db, id, FailRow(row), [Finished(row, ExpiredOutcome)]), CommittedRow(FailRow(row)))
          else if row.startedAt.Some? then
            if !PastClaim(row, now) then (db, ClaimRefused(SuggestionInProgress))
            else (Rewrite(db, id, FailRow(row), [Finished(row, ExpiredOutcome)]), CommittedRow(FailRow(row)))
          else if !Claimable(db, id) then
            (Rewrite(db, id, SupersedeRow(row), []), CommittedRow(SupersedeRow(row)))
          else
            var row' := row.(startedAt := Some(now));
            if !ConstraintsHold(row') then (db, ClaimRefused(RejectedByConstraint))
            else (Rewrite(db, id, row', []), Granted(Claim(id, row.owner, now, row.goal.value, clarification)))
  }

  // ----------------------------------------------------------- finish a claim

  function FinishClaimed(db: Db, claim: Claim, result: ProviderResult, now: int): (r: (Db, FinishReply))
    ensures |r.0.suggestions| == |db.suggestions| && r.0.workflows == db.workflows
  {
    if !Acceptable(result) then (db, FinishRefused(InvalidResult))
    else if claim.id >= |db.suggestions| then (db, Discarded)
    else
      var row := db.suggestions[claim.id];
      if row.owner != claim.owner || row.startedAt != Some(claim.startedAt)
         || row.status != Pending || !IsCloudRow(row) then (db, Discarded)
      else if NormalizeOptional(row.clarification).None? then (db, FinishRefused(InvalidStoredSuggestion))
      else if PastExpiry(row, now) || PastClaim(row, now) then (db, Discarded)
      else if !WorkflowStillCollects(db, row) || Latest(db.suggestions, row.owner, row.workflow) != Some(claim.id) then
        (Rewrite(db, claim.id, SupersedeRow(row), []), SavedRow(SupersedeRow(row)))
      else
        var row' := SetResult(row, result);
        (Rewrite(db, claim.id, row', [Finished(row, OutcomeOf(result))]), SavedRow(row'))
  }

  // ------------------------------------------------------------------- expiry

  predicate Overdue(row: SuggestionRow, now: int) {
    && row.status == Pending
    && IsCloudRow(row)
    && row.expiresAt.Some?
    && (row.expiresAt.value <= now || PastClaim(row, now))
  }

  /** The sweep's treatment of one candidate, rechecked under the workflow's lock. */
  function ExpireRow(db: Db, id: nat, now: int): (r: Db)
    ensures |r.suggestions| == |db.suggestions| && r.workflows == db.workflows
  {
    if id < |db.suggestions| && Overdue(db.suggestions[id], now) then
      var row := db.suggestions[id];
      Rewrite(db, id, FailRow(row), [Finished(row, ExpiredOutcome)])
    else db
  }

  /** The overdue rows from position `from` on, in id order, at most `limit` of them. */
  function Candidates(rows: seq<SuggestionRow>, from: nat, now: int, limit: nat): (ids: seq<nat>)
    requires from <= |rows|
    ensures |ids| <= limit
    ensures forall k :: 0 <= k < |ids| ==> from <= ids[k] < |rows| && Overdue(rows[ids[k]], now)
    ensures forall k, l :: 0 <= k < l < |ids| ==> ids[k] < ids[l]
    ensures forall i :: from <= i < |rows| && Overdue(rows[i], now) && i !in ids ==>
              |ids| == limit && forall k :: 0 <= k < |ids| ==> ids[k] < i
    decreases |rows| - from
  {
    if from == |rows| || limit == 0 then []
    else if Overdue(rows[from], now) then [from] + Candidates(rows, from + 1, now, limit - 1)
    else Candidates(rows, from + 1, now, limit)
  }

  /** Candidates taken in order, skipping those whose workflow another transaction has locked. */
  function ExpireAll(db: Db, ids: seq<nat>, locked: set<Uuid>, now: int): Db
    decreases |ids|
  {
    if ids == [] then db
    else
      var init, id := ids[..|ids| - 1], ids[|ids| - 1];
      var db' := ExpireAll(db, init, locked, now);
      if id < |db.suggestions| && db.suggestions[id].workflow in locked then db' else ExpireRow(db', id, now)
  }

  /** The candidates the sweep reaches: those whose workflow nobody else has locked. */
  function Unlocked(rows: seq<SuggestionRow>, ids: seq<nat>, locked: set<Uuid>): (r: seq<nat>)
    ensures forall id :: id in r <==> id in ids && !(id < |rows| && rows[id].workflow in locked)
    ensures |r| <= |ids|
  {
    if ids == [] then []
    else
      var init, id := ids[..|ids| - 1], ids[|ids| - 1];
      Unlocked(rows, init, locked) + (if id < |rows| && rows[id].workflow in locked then [] else [id])
  }

  function ExpireSuggestions(db: Db, locked: set<Uuid>, now: int): Db {
    ExpireAll(db, Candidates(db.suggestions, 0, now, EXPIRE_BATCH_LIMIT), locked, now)
  }

  // ------------------------------------------------------------------ reading

  /** get_current_suggestion; the error is UnsupportedWorkflow or InvalidStoredSuggestion. */
  function CurrentSuggestion(db: Db, owner: int, id: Uuid): Result<Option<SuggestionSnapshot>, SuggestionError> {
    if !Owned(db, owner, id) then Ok(None)
    else
      var s := db.workflows[id].snapshot;
      if s.definition != CURRENT_DEFINITION then Err(UnsupportedWorkflow)
      else if s.state != CollectTasks then Ok(None)
      else match Latest(db.suggestions, owner, id)
        case None => Ok(None)
        case Some(i) =>
          var row := db.suggestions[i];
          if row.baseRevision != s.revision || row.step != StepOf(id, s.state) then Ok(None)
          else match SnapshotOfRow(row)
            case None => Err(InvalidStoredSuggestion)
            case Some(snapshot) => Ok(Some(snapshot))
  }
}
