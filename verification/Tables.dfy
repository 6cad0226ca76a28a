/** The tables both services write, as values, and the lookups their queries make. */
module Tables {
  import opened Prelude
  import opened Titles
  import opened WorkflowDomain

  /** "<workflow>:<state>", or any other text a client may send. */
  datatype StepId = StepOf(workflow: Uuid, state: WorkflowState) | OtherStep(text: string)

  datatype Field = Date | Location | People | Budget | Constraints | OutsideCatalog(name: string)

  datatype Clarification = Clarification(field: Field, value: Text)

  /** What a request fingerprint hashes. SHA-256 is taken to be injective on it. */
  datatype Payload =
    | StartPayload(title: Text)
    | AdvancePayload(workflow: Uuid, expectedRevision: int, step: StepId, command: Command)
    | SuggestPayload(workflow: Uuid, expectedRevision: int, step: StepId, goal: Text,
                     clarification: Option<Clarification>)

  datatype WorkflowRow = WorkflowRow(owner: int, snapshot: Snapshot)

  datatype StartRow = StartRow(payload: Payload, accepted: Snapshot)

  datatype ActionRow = ActionRow(owner: int, workflow: Uuid, request: Uuid, payload: Payload, accepted: Snapshot)

  datatype Status = Pending | Ready | Failed | Superseded

  datatype ErrorCode = NotConfigured | Timeout | ProviderUnavailable | InvalidOutput

  datatype SuggestionRow = SuggestionRow(
    owner: int,
    workflow: Uuid,
    request: Uuid,
    payload: Payload,
    baseRevision: int,
    step: StepId,
    status: Status,
    titles: seq<Text>,
    error: Option<ErrorCode>,
    queuedAt: Option<int>,
    expiresAt: Option<int>,
    startedAt: Option<int>,
    goal: Option<Text>,
    clarification: Option<Clarification>
  )

  datatype TodoRow = TodoRow(owner: int, id: Uuid, title: Text, completed: bool)

  datatype Outcome = ReadyOutcome | FailedOutcome | ExpiredOutcome

  datatype Event =
    | WorkflowStarted(owner: int, workflow: Uuid)
    | WorkflowCompleted(owner: int, workflow: Uuid)
    | SuggestionFinished(owner: int, workflow: Uuid, outcome: Outcome)

  /**
   * The database between transactions. A suggestion's id is its position: rows
   * are only appended, and ids grow in the order of insertion.
   */
  datatype Db = Db(
    workflows: map<Uuid, WorkflowRow>,
    starts: map<(int, Uuid), StartRow>,
    actions: seq<ActionRow>,
    suggestions: seq<SuggestionRow>,
    todos: seq<TodoRow>,
    events: seq<Event>
  )

  const EmptyDb := Db(map[], map[], [], [], [], [])

  // ----------------------------------------------------------------- lookups

  predicate Owned(db: Db, owner: int, id: Uuid) {
    id in db.workflows && db.workflows[id].owner == owner
  }

  /** The journal row of one scoped request. */
  function FindAction(rows: seq<ActionRow>, owner: int, id: Uuid, request: Uuid): (r: Option<ActionRow>)
    ensures r.Some? ==>
              r.value in rows && r.value.owner == owner && r.value.workflow == id && r.value.request == request
    ensures r.None? ==> forall row :: row in rows ==>
              !(row.owner == owner && row.workflow == id && row.request == request)
  {
    if rows == [] then None
    else
      var row := rows[0];
      if row.owner == owner && row.workflow == id && row.request == request then Some(row)
      else FindAction(rows[1..], owner, id, request)
  }

  predicate RowOf(row: SuggestionRow, owner: int, id: Uuid) {
    row.owner == owner && row.workflow == id
  }

  /** ORDER BY id DESC LIMIT 1. */
  function Latest(rows: seq<SuggestionRow>, owner: int, id: Uuid): (r: Option<nat>)
    ensures r.Some? ==> r.value < |rows| && RowOf(rows[r.value], owner, id)
    ensures r.Some? ==> forall j :: r.value < j < |rows| ==> !RowOf(rows[j], owner, id)
    ensures r.None? ==> forall j :: 0 <= j < |rows| ==> !RowOf(rows[j], owner, id)
  {
    if rows == [] then None
    else if RowOf(rows[|rows| - 1], owner, id) then Some(|rows| - 1)
    else Latest(rows[..|rows| - 1], owner, id)
  }

  predicate RequestOf(row: SuggestionRow, owner: int, id: Uuid, request: Uuid) {
    RowOf(row, owner, id) && row.request == request
  }

  function FindSuggestion(rows: seq<SuggestionRow>, owner: int, id: Uuid, request: Uuid): (r: Option<nat>)
    ensures r.Some? ==> r.value < |rows| && RequestOf(rows[r.value], owner, id, request)
    ensures r.None? ==> forall j :: 0 <= j < |rows| ==> !RequestOf(rows[j], owner, id, request)
  {
    if rows == [] then None
    else if RequestOf(rows[|rows| - 1], owner, id, request) then Some(|rows| - 1)
    else FindSuggestion(rows[..|rows| - 1], owner, id, request)
  }
}
