/**
 * Starting and advancing workflows: each function is one transaction, from the
 * tables before to the tables after and the reply. The theorems say that the
 * journal is a linear history and that a resent request is applied once.
 */
module WorkflowService {
  import opened Prelude
  import opened Titles
  import opened WorkflowDomain
  import opened Tables

  datatype ServiceError =
    | Domain(cause: DomainError)
    | RequestIdReused
    | StaleWorkflowStep
    | RevisionExhausted
    | ConstraintViolation

  datatype Reply = Accepted(snapshot: Snapshot) | NotFound | Refused(error: ServiceError)

  /** start_workflow, with `minted` the identifier uuid4() returned. */
  function StartWorkflow(db: Db, owner: int, title: Text, request: Uuid, minted: Uuid): (Db, Reply) {
    match InitialSnapshot(minted, title)
    case Err(cause) => (db, Refused(Domain(cause)))
    case Ok(snapshot) =>
      var key := (owner, request);
      var payload := StartPayload(snapshot.title);
      if key in db.starts then
        if db.starts[key].payload != payload then (db, Refused(RequestIdReused))
        else (db, Accepted(db.starts[key].accepted))
      else if minted in db.workflows then (db, Refused(ConstraintViolation))
      else
        (db.(workflows := db.workflows[minted := WorkflowRow(owner, snapshot)],
             starts := db.starts[key := StartRow(payload, snapshot)],
             events := db.events + [WorkflowStarted(owner, minted)]),
         Accepted(snapshot))
  }

  function TodoRows(owner: int, todos: seq<CreatedTodo>): (rows: seq<TodoRow>)
    ensures |rows| == |todos|
  {
    seq(|todos|, i requires 0 <= i < |todos| => TodoRow(owner, todos[i].id, todos[i].title, todos[i].completed))
  }

  predicate UsableIds(todos: seq<TodoRow>, ids: seq<Uuid>) {
    && (forall i, j :: 0 <= i < j < |ids| ==> ids[i] != ids[j])
    && (forall i, k :: 0 <= i < |ids| && 0 <= k < |todos| ==> ids[i] != todos[k].id)
  }

  function FirstIds(minted: nat -> Uuid, n: nat): (ids: seq<Uuid>)
    ensures |ids| == n
  {
    seq(n, i requires 0 <= i < n => minted(i))
  }

  /** Why a new action on a workflow in state `s` is refused, if it is. */
  function AdvanceRefusal(s: Snapshot, id: Uuid, command: Command, expectedRevision: int,
                          step: StepId): (r: Option<ServiceError>)
    ensures r.None? ==>
              && step == StepOf(id, s.state) && expectedRevision == s.revision
              && Transition(s, command).Ok?
  {
    if s.definition != CURRENT_DEFINITION then Some(Domain(UnsupportedDefinition))
    else if step != StepOf(id, s.state) then Some(StaleWorkflowStep)
    else if expectedRevision != s.revision then Some(StaleWorkflowStep)
    else if Terminal(s.state) then Some(Domain(TerminalWorkflow))
    else if s.revision >= MAX_WORKFLOW_REVISION then Some(RevisionExhausted)
    else match Transition(s, command)
      case Err(cause) => Some(Domain(cause))
      case Ok(_) => None
  }

  /** The writes of an accepted action. */
  function Accept(db: Db, row: ActionRow): Db {
    db.(workflows := db.workflows[row.workflow := WorkflowRow(row.owner, row.accepted)],
        actions := db.actions + [row],
        todos := db.todos + NewTodos(row),
        events := db.events
          + (if row.accepted.state.Completed? then [WorkflowCompleted(row.owner, row.workflow)] else []))
  }

  /** The todo rows one journalled action created. */
  function NewTodos(row: ActionRow): seq<TodoRow> {
    if row.accepted.created.Some? then TodoRows(row.owner, row.accepted.created.value) else []
  }

  /** advance_workflow, with `minted` the successive results of uuid4(). */
  function AdvanceWorkflow(db: Db, owner: int, id: Uuid, command: Command, request: Uuid,
                           expectedRevision: int, step: StepId, minted: nat -> Uuid): (Db, Reply)
  {
    var payload := AdvancePayload(id, expectedRevision, step, command);
    if !Owned(db, owner, id) then (db, NotFound)
    else
      var existing := FindAction(db.actions, owner, id, request);
      if existing.Some? then
        if existing.value.payload != payload then (db, Refused(RequestIdReused))
        else (db, Accepted(existing.value.accepted))
      else
        var s := db.workflows[id].snapshot;
        match AdvanceRefusal(s, id, command, expectedRevision, step)
        case Some(error) => (db, Refused(error))
        case None =>
          var d := Transition(s, command).value;
          var ids := FirstIds(minted, |d.toCreate|);
          if !UsableIds(db.todos, ids) then (db, Refused(ConstraintViolation))
          else
            var accepted := Advanced(s, d, ids);
            (Accept(db, ActionRow(owner, id, request, payload, accepted)), Accepted(accepted))
  }

  // ---------------------------------------------------------------- invariant

  /** The journal rows of one workflow, in commit order. */
  ghost function Journal(rows: seq<ActionRow>, id: Uuid): (j: seq<ActionRow>)
    ensures forall row :: row in j <==> row in rows && row.workflow == id
  {
    if rows == [] then []
    else
      var last := rows[|rows| - 1];
      Journal(rows[..|rows| - 1], id) + (if last.workflow == id then [last] else [])
  }

  /** The snapshot before the k-th journalled action. */
  ghost function Before(start: Snapshot, journal: seq<ActionRow>, k: nat): Snapshot
    requires k <= |journal|
  {
    if k == 0 then start else journal[k - 1].accepted
  }

  function CreatedIds(s: Snapshot): seq<Uuid> {
    if s.created.Some? then TodoIds(s.created.value) else []
  }

  /** The action of `row` was accepted in state `prev` and led to the snapshot it records. */
  ghost predicate Recorded(prev: Snapshot, row: ActionRow) {
    && row.payload.AdvancePayload?
    && row.payload == AdvancePayload(prev.id, prev.revision, StepOf(prev.id, prev.state), row.payload.command)
    && Follows(prev, Move(row.payload.command, CreatedIds(row.accepted)), row.accepted)
  }

  /** The journal is a linear history from the start snapshot to the current one. */
  ghost predicate Linear(start: Snapshot, journal: seq<ActionRow>, current: Snapshot) {
    && |journal| == current.revision
    && current == Before(start, journal, |journal|)
    && forall k :: 0 <= k < |journal| ==>
         journal[k].accepted.revision == k + 1 && Recorded(Before(start, journal, k), journal[k])
  }

  /** The todo rows the journalled completions created, in commit order. */
  ghost function TodosOf(rows: seq<ActionRow>): seq<TodoRow> {
    if rows == [] then []
    else
      var last := rows[|rows| - 1];
      TodosOf(rows[..|rows| - 1]) + NewTodos(last)
  }

  ghost predicate WorkflowsOk(db: Db) {
    forall id :: id in db.workflows ==>
      && db.workflows[id].snapshot.id == id
      && Coherent(db.workflows[id].snapshot)
      && Linear(StartOf(id, db.workflows[id].snapshot.title), Journal(db.actions, id), db.workflows[id].snapshot)
  }

  ghost predicate ActionsOk(db: Db) {
    && (forall i :: 0 <= i < |db.actions| ==>
          && Owned(db, db.actions[i].owner, db.actions[i].workflow)
          && Coherent(db.actions[i].accepted))
    && (forall i, j :: 0 <= i < j < |db.actions| ==>
          !(db.actions[i].workflow == db.actions[j].workflow && db.actions[i].request == db.actions[j].request))
  }

  ghost predicate TodosOk(db: Db) {
    && db.todos == TodosOf(db.actions)
    && (forall i, j :: 0 <= i < j < |db.todos| ==> db.todos[i].id != db.todos[j].id)
  }

  ghost predicate StartAccurate(db: Db, key: (int, Uuid)) {
    && key in db.starts
    && var row := db.starts[key];
    && Owned(db, key.0, row.accepted.id)
    && row.accepted == StartOf(row.accepted.id, db.workflows[row.accepted.id].snapshot.title)
    && row.payload == StartPayload(row.accepted.title)
  }

  /** `key` is the request that started the workflow `id`. */
  ghost predicate StartedBy(db: Db, key: (int, Uuid), id: Uuid) {
    key in db.starts && db.starts[key].accepted.id == id
  }

  /** Every workflow was started by exactly one request, whose row still says so. */
  ghost predicate StartsOk(db: Db) {
    && (forall key :: key in db.starts ==> StartAccurate(db, key))
    && (forall a, b, id :: StartedBy(db, a, id) && StartedBy(db, b, id) ==> a == b)
    && (forall id :: id in db.workflows ==> exists key :: StartedBy(db, key, id))
  }

  ghost predicate WorkflowInv(db: Db) {
    WorkflowsOk(db) && ActionsOk(db) && TodosOk(db) && StartsOk(db)
  }

  lemma JournalAppend(rows: seq<ActionRow>, row: ActionRow, id: Uuid)
    ensures Journal(rows + [row], id) == Journal(rows, id) + (if row.workflow == id then [row] else [])
    ensures TodosOf(rows + [row]) == TodosOf(rows) + NewTodos(row)
  {
    assert (rows + [row])[..|rows|] == rows;
  }

  lemma {:induction false} JournalOfUnknown(rows: seq<ActionRow>, id: Uuid)
    requires forall row :: row in rows ==> row.workflow != id
    ensures Journal(rows, id) == []
  {
    if rows != [] { JournalOfUnknown(rows[..|rows| - 1], id); }
  }

  /** What a new start request writes. */
  ghost predicate Opened(db: Db, db': Db, owner: int, request: Uuid, s: Snapshot) {
    && s == StartOf(s.id, s.title) && CanonicalTitle(s.title)
    && s.id !in db.workflows && (owner, request) !in db.starts
    && db' == db.(workflows := db.workflows[s.id := WorkflowRow(owner, s)],
                  starts := db.starts[(owner, request) := StartRow(StartPayload(s.title), s)],
                  events := db.events + [WorkflowStarted(owner, s.id)])
  }

  /** A start either changes nothing or opens one new workflow and answers with it. */
  lemma StartCases(db: Db, owner: int, title: Text, request: Uuid, minted: Uuid)
    ensures
      var (db', reply) := StartWorkflow(db, owner, title, request, minted);
      && (|| db' == db
          || (reply.Accepted? && reply.snapshot.id == minted && Opened(db, db', owner, request, reply.snapshot)))
      && (reply.Accepted? ==>
            && CanonicalizeTitle(title).Ok?
            && (owner, request) in db'.starts
            && db'.starts[(owner, request)] == StartRow(StartPayload(CanonicalizeTitle(title).value), reply.snapshot))
  {
    CanonicalIsSettled(title, MAX_TITLE_CODE_POINTS);
  }

  lemma FreshIsLinear(s: Snapshot)
    requires s == StartOf(s.id, s.title) && CanonicalTitle(s.title)
    ensures Coherent(s) && Linear(s, [], s)
  {
  }

  lemma OpenedKeepsActions(db: Db, db': Db, owner: int, request: Uuid, s: Snapshot)
    requires ActionsOk(db) && Opened(db, db', owner, request, s)
    ensures ActionsOk(db')
    ensures Journal(db.actions, s.id) == []
  {
    hide Coherent, CanonicalTitle;
    forall row | row in db.actions ensures row.workflow != s.id {
      var i :| 0 <= i < |db.actions| && db.actions[i] == row;
      assert Owned(db, db.actions[i].owner, db.actions[i].workflow);
    }
    JournalOfUnknown(db.actions, s.id);
    forall i | 0 <= i < |db'.actions| ensures Owned(db', db'.actions[i].owner, db'.actions[i].workflow) {
      assert Owned(db, db.actions[i].owner, db.actions[i].workflow);
    }
  }

  lemma OpenedKeepsWorkflows(db: Db, db': Db, owner: int, request: Uuid, s: Snapshot)
    requires WorkflowsOk(db) && ActionsOk(db) && Opened(db, db', owner, request, s)
    ensures WorkflowsOk(db')
  {
    hide Coherent, Linear, CanonicalTitle, Journal, ActionsOk, StartOf;
    FreshIsLinear(s);
    OpenedKeepsActions(db, db', owner, request, s);
    forall id | id in db'.workflows && id != s.id ensures id in db.workflows && db'.workflows[id] == db.workflows[id] {
    }
  }

  /** Opening adds one started-by pair, whose workflow nothing had started. */
  lemma OpenedStarters(db: Db, db': Db, owner: int, request: Uuid, s: Snapshot)
    requires StartsOk(db) && Opened(db, db', owner, request, s)
    ensures forall key, id ::
              StartedBy(db', key, id) <==> (key == (owner, request) && id == s.id) || StartedBy(db, key, id)
    ensures forall key :: !StartedBy(db, key, s.id)
  {
    hide CanonicalTitle, StartOf;
    forall key ensures !StartedBy(db, key, s.id) {
      assert key in db.starts ==> StartAccurate(db, key);
    }
  }

  lemma OpenedKeepsAccurate(db: Db, db': Db, owner: int, request: Uuid, s: Snapshot, key: (int, Uuid))
    requires Opened(db, db', owner, request, s) && key in db'.starts
    requires key != (owner, request) ==> StartAccurate(db, key)
    ensures StartAccurate(db', key)
  {
    hide CanonicalTitle, StartOf;
  }

  lemma OpenedKeepsStarts(db: Db, db': Db, owner: int, request: Uuid, s: Snapshot)
    requires StartsOk(db) && Opened(db, db', owner, request, s)
    ensures StartsOk(db')
  {
    hide CanonicalTitle, StartOf, StartedBy, StartAccurate;
    OpenedStarters(db, db', owner, request, s);
    forall key | key in db'.starts ensures StartAccurate(db', key) {
      OpenedKeepsAccurate(db, db', owner, request, s, key);
    }
    forall id | id in db'.workflows ensures exists key :: StartedBy(db', key, id) {
      if id == s.id {
        assert StartedBy(db', (owner, request), id);
      } else {
        var key :| StartedBy(db, key, id);
        assert StartedBy(db', key, id);
      }
    }
  }

  /** Starting a workflow keeps the invariant. */
  lemma StartKeepsInv(db: Db, owner: int, title: Text, request: Uuid, minted: Uuid)
    requires WorkflowInv(db)
    ensures WorkflowInv(StartWorkflow(db, owner, title, request, minted).0)
  {
    StartCases(db, owner, title, request, minted);
    var (db', reply) := StartWorkflow(db, owner, title, request, minted);
    if db' != db {
      OpenedKeepsActions(db, db', owner, request, reply.snapshot);
      OpenedKeepsWorkflows(db, db', owner, request, reply.snapshot);
      OpenedKeepsStarts(db, db', owner, request, reply.snapshot);
    }
  }

  /** What an accepted new action writes: `row` in the journal, and all that follows from it. */
  ghost predicate Applied(db: Db, db': Db, row: ActionRow) {
    && Owned(db, row.owner, row.workflow)
    && FindAction(db.actions, row.owner, row.workflow, row.request).None?
    && Recorded(db.workflows[row.workflow].snapshot, row)
    && UsableIds(db.todos, CreatedIds(row.accepted))
    && db' == Accept(db, row)
  }

  lemma AcceptedIsRecorded(s: Snapshot, row: ActionRow, ids: seq<Uuid>)
    requires Coherent(s) && row.payload.AdvancePayload? && WellFormedCommand(row.payload.command)
    requires row.payload == AdvancePayload(s.id, s.revision, StepOf(s.id, s.state), row.payload.command)
    requires Transition(s, row.payload.command).Ok?
    requires |ids| == |Transition(s, row.payload.command).value.toCreate|
    requires UsableIds([], ids)
    requires row.accepted == Advanced(s, Transition(s, row.payload.command).value, ids)
    ensures CreatedIds(row.accepted) == ids
    ensures Recorded(s, row)
    ensures NewTodos(row) == TodoRows(row.owner, Todos(Transition(s, row.payload.command).value.toCreate, ids))
  {
    var d := Transition(s, row.payload.command).value;
    if d.toCreate != [] {
      assert TodoIds(Todos(d.toCreate, ids)) == ids;
    }
  }

  /** An advance either changes nothing or applies one new journal row and answers with its snapshot. */
  lemma AdvanceCases(db: Db, owner: int, id: Uuid, command: Command, request: Uuid,
                     expectedRevision: int, step: StepId, minted: nat -> Uuid)
    returns (row: ActionRow)
    requires WorkflowsOk(db) && WellFormedCommand(command)
    ensures
      var (db', reply) := AdvanceWorkflow(db, owner, id, command, request, expectedRevision, step, minted);
      && row.owner == owner && row.workflow == id && row.request == request
      && row.payload == AdvancePayload(id, expectedRevision, step, command)
      && (reply.Accepted? ==> reply == Accepted(row.accepted))
      && (db' != db ==> reply.Accepted? && Applied(db, db', row))
      && (db' == db && reply.Accepted? ==> row in db.actions)
  {
    hide Linear, Journal, AdvanceRefusal, NewTodos, Recorded, Coherent, Transition, Advanced;
    var (db', reply) := AdvanceWorkflow(db, owner, id, command, request, expectedRevision, step, minted);
    var payload := AdvancePayload(id, expectedRevision, step, command);
    row := ActionRow(owner, id, request, payload, if reply.Accepted? then reply.snapshot else StartOf(id, []));
    if db' != db {
      var s := db.workflows[id].snapshot;
      AcceptedIsRecorded(s, row, FirstIds(minted, |Transition(s, command).value.toCreate|));
    }
  }

  lemma RecordedFacts(prev: Snapshot, row: ActionRow)
    requires Coherent(prev) && Recorded(prev, row)
    ensures Coherent(row.accepted)
    ensures row.accepted.id == prev.id && row.accepted.title == prev.title
    ensures row.accepted.revision == prev.revision + 1
    ensures WellFormedCommand(row.payload.command)
  {
    FollowsKeepsCoherent(prev, Move(row.payload.command, CreatedIds(row.accepted)), row.accepted);
  }

  lemma LinearExtends(start: Snapshot, journal: seq<ActionRow>, current: Snapshot, row: ActionRow)
    requires Linear(start, journal, current)
    requires Recorded(current, row) && row.accepted.revision == current.revision + 1
    ensures Linear(start, journal + [row], row.accepted)
  {
    hide Recorded;
    var longer := journal + [row];
    forall k | 0 <= k < |longer|
      ensures longer[k].accepted.revision == k + 1 && Recorded(Before(start, longer, k), longer[k])
    {
      assert Before(start, longer, k) == Before(start, journal, k);
    }
  }

  lemma AppliedKeepsWorkflows(db: Db, db': Db, row: ActionRow)
    requires WorkflowsOk(db) && Applied(db, db', row)
    ensures WorkflowsOk(db')
  {
    hide Recorded, Coherent, Linear, UsableIds, NewTodos, FindAction;
    var id := row.workflow;
    RecordedFacts(db.workflows[id].snapshot, row);
    forall w | w in db'.workflows
      ensures
        && db'.workflows[w].snapshot.id == w
        && Coherent(db'.workflows[w].snapshot)
        && Linear(StartOf(w, db'.workflows[w].snapshot.title), Journal(db'.actions, w), db'.workflows[w].snapshot)
    {
      JournalAppend(db.actions, row, w);
      if w == id {
        LinearExtends(StartOf(id, row.accepted.title), Journal(db.actions, id), db.workflows[id].snapshot, row);
      } else {
        assert Journal(db'.actions, w) == Journal(db.actions, w);
      }
    }
  }

  lemma AppliedKeepsActions(db: Db, db': Db, row: ActionRow)
    requires WorkflowsOk(db) && ActionsOk(db) && Applied(db, db', row)
    ensures ActionsOk(db')
  {
    hide Recorded, Coherent, Linear, Journal, UsableIds, NewTodos;
    RecordedFacts(db.workflows[row.workflow].snapshot, row);
    forall i | 0 <= i < |db.actions|
      ensures !(db.actions[i].workflow == row.workflow && db.actions[i].request == row.request)
    {
      assert db.actions[i] in db.actions;
      assert Owned(db, db.actions[i].owner, db.actions[i].workflow);
    }
  }

  lemma AppliedKeepsTodos(db: Db, db': Db, row: ActionRow)
    requires TodosOk(db) && Applied(db, db', row)
    ensures TodosOk(db')
  {
    hide Recorded, FindAction;
    JournalAppend(db.actions, row, row.workflow);
    var added, ids := NewTodos(row), CreatedIds(row.accepted);
    assert |added| == |ids|;
    assert forall k :: 0 <= k < |added| ==> added[k].id == ids[k];
  }

  lemma AppliedKeepsStarts(db: Db, db': Db, row: ActionRow)
    requires WorkflowsOk(db) && StartsOk(db) && Applied(db, db', row)
    ensures StartsOk(db')
  {
    hide Recorded, Coherent, Linear, Journal, UsableIds, NewTodos, FindAction;
    RecordedFacts(db.workflows[row.workflow].snapshot, row);
    forall key | key in db'.starts ensures StartAccurate(db', key) {
      assert StartAccurate(db, key);
    }
    assert forall key, id :: StartedBy(db', key, id) <==> StartedBy(db, key, id);
    forall id | id in db'.workflows ensures exists key :: StartedBy(db', key, id) {
      var key :| StartedBy(db, key, id);
    }
  }

  /** Advancing a workflow keeps the invariant. */
  lemma AdvanceKeepsInv(db: Db, owner: int, id: Uuid, command: Command, request: Uuid,
                        expectedRevision: int, step: StepId, minted: nat -> Uuid)
    requires WorkflowInv(db) && WellFormedCommand(command)
    ensures WorkflowInv(AdvanceWorkflow(db, owner, id, command, request, expectedRevision, step, minted).0)
  {
    var row := AdvanceCases(db, owner, id, command, request, expectedRevision, step, minted);
    var db' := AdvanceWorkflow(db, owner, id, command, request, expectedRevision, step, minted).0;
    hide AdvanceWorkflow, WorkflowsOk, ActionsOk, TodosOk, StartsOk, Applied;
    if db' != db {
      AppliedKeepsWorkflows(db, db', row);
      AppliedKeepsActions(db, db', row);
      AppliedKeepsTodos(db, db', row);
      AppliedKeepsStarts(db, db', row);
    }
  }

  // ------------------------------------------------------- resent requests

  /** Everything a later transaction keeps: journals only grow, workflows keep owner and title. */
  ghost predicate Extends(db: Db, later: Db) {
    && db.actions <= later.actions
    && (forall key :: key in db.starts ==> key in later.starts && later.starts[key] == db.starts[key])
    && (forall id :: id in db.workflows ==>
          && id in later.workflows
          && later.workflows[id].owner == db.workflows[id].owner
          && later.workflows[id].snapshot.title == db.workflows[id].snapshot.title)
  }

  lemma AppliedExtends(db: Db, db': Db, row: ActionRow)
    requires WorkflowsOk(db) && Applied(db, db', row)
    ensures Extends(db, db')
  {
    hide Recorded, Coherent, Linear, Journal, UsableIds, NewTodos, FindAction;
    RecordedFacts(db.workflows[row.workflow].snapshot, row);
  }

  lemma ExtendsItself(db: Db)
    ensures Extends(db, db)
  {
  }

  lemma AdvanceExtends(db: Db, owner: int, id: Uuid, command: Command, request: Uuid,
                       expectedRevision: int, step: StepId, minted: nat -> Uuid)
    requires WorkflowInv(db) && WellFormedCommand(command)
    ensures Extends(db, AdvanceWorkflow(db, owner, id, command, request, expectedRevision, step, minted).0)
  {
    var row := AdvanceCases(db, owner, id, command, request, expectedRevision, step, minted);
    var db' := AdvanceWorkflow(db, owner, id, command, request, expectedRevision, step, minted).0;
    hide AdvanceWorkflow, Applied, WorkflowsOk, ActionsOk, TodosOk, StartsOk, Extends;
    if db' != db { AppliedExtends(db, db', row); } else { ExtendsItself(db); }
  }

  lemma StartExtends(db: Db, owner: int, title: Text, request: Uuid, minted: Uuid)
    ensures Extends(db, StartWorkflow(db, owner, title, request, minted).0)
  {
    StartCases(db, owner, title, request, minted);
  }

  lemma JournalledRowIsFound(db: Db, row: ActionRow)
    requires ActionsOk(db) && row in db.actions
    ensures FindAction(db.actions, row.owner, row.workflow, row.request) == Some(row)
  {
    hide Coherent;
    var found := FindAction(db.actions, row.owner, row.workflow, row.request);
    var i :| 0 <= i < |db.actions| && db.actions[i] == row;
    var j :| 0 <= j < |db.actions| && db.actions[j] == found.value;
    assert i == j;
  }

  /** The request was accepted once, and `snapshot` is the reply it got. */
  ghost predicate AdvanceRecorded(db: Db, owner: int, id: Uuid, command: Command, request: Uuid,
                                  expectedRevision: int, step: StepId, snapshot: Snapshot)
  {
    ActionRow(owner, id, request, AdvancePayload(id, expectedRevision, step, command), snapshot) in db.actions
  }

  lemma AcceptedIsJournalled(db: Db, owner: int, id: Uuid, command: Command, request: Uuid,
                             expectedRevision: int, step: StepId, minted: nat -> Uuid)
    requires WorkflowInv(db) && WellFormedCommand(command)
    ensures
      var (db', reply) := AdvanceWorkflow(db, owner, id, command, request, expectedRevision, step, minted);
      reply.Accepted? ==> AdvanceRecorded(db', owner, id, command, request, expectedRevision, step, reply.snapshot)
  {
    var row := AdvanceCases(db, owner, id, command, request, expectedRevision, step, minted);
    var (db', reply) := AdvanceWorkflow(db, owner, id, command, request, expectedRevision, step, minted);
    hide AdvanceWorkflow, Recorded, UsableIds, NewTodos, WorkflowsOk, ActionsOk, TodosOk, StartsOk;
    if db' != db {
      assert db'.actions[|db.actions|] == row;
    }
  }

  /**
   * Once an advance has been accepted, resending it in any later database
   * changes nothing and brings back the very snapshot of the first reply.
   */
  lemma ResentAdvance(db: Db, later: Db, owner: int, id: Uuid, command: Command, request: Uuid,
                      expectedRevision: int, step: StepId, minted: nat -> Uuid, snapshot: Snapshot)
    requires WorkflowInv(later) && Extends(db, later)
    requires AdvanceRecorded(db, owner, id, command, request, expectedRevision, step, snapshot)
    ensures AdvanceWorkflow(later, owner, id, command, request, expectedRevision, step, minted) ==
        (later, Accepted(snapshot))
  {
    var row := ActionRow(owner, id, request, AdvancePayload(id, expectedRevision, step, command), snapshot);
    assert row in later.actions by {
      var i :| 0 <= i < |db.actions| && db.actions[i] == row;
      assert later.actions[i] == row;
    }
    JournalledRowIsFound(later, row);
    var i :| 0 <= i < |later.actions| && later.actions[i] == row;
    assert Owned(later, later.actions[i].owner, later.actions[i].workflow);
  }

  /** The same for starting a workflow: one request opens one workflow, however often it is sent. */
  lemma ResentStart(db: Db, later: Db, owner: int, title: Text, request: Uuid, minted: Uuid, again: Uuid)
    requires
      var (db', reply) := StartWorkflow(db, owner, title, request, minted);
      reply.Accepted? && Extends(db', later)
    ensures StartWorkflow(later, owner, title, request, again)
         == (later, Accepted(StartWorkflow(db, owner, title, request, minted).1.snapshot))
  {
    StartCases(db, owner, title, request, minted);
    hide CanonicalizeTitle, Opened;
  }

  // ------------------------------------------------------- created todos

  lemma OnlyTheLastCreates(start: Snapshot, journal: seq<ActionRow>, current: Snapshot, k: nat)
    requires Linear(start, journal, current) && k + 1 < |journal|
    requires forall row :: row in journal ==> Coherent(row.accepted)
    ensures NewTodos(journal[k]) == []
  {
    assert Recorded(Before(start, journal, k + 1), journal[k + 1]);
    assert journal[k] in journal;
  }

  lemma {:induction false} SilentPrefix(journal: seq<ActionRow>)
    requires forall k :: 0 <= k < |journal| ==> NewTodos(journal[k]) == []
    ensures TodosOf(journal) == []
  {
    if journal != [] { SilentPrefix(journal[..|journal| - 1]); }
  }

  lemma {:induction false} TodosOfJournal(rows: seq<ActionRow>, id: Uuid)
    ensures forall t :: t in TodosOf(Journal(rows, id)) ==> t in TodosOf(rows)
  {
    hide NewTodos;
    if rows != [] {
      var last := rows[|rows| - 1];
      var init := rows[..|rows| - 1];
      TodosOfJournal(init, id);
      if last.workflow == id {
        var journal := Journal(init, id) + [last];
        assert journal[..|journal| - 1] == Journal(init, id);
        assert TodosOf(journal) == TodosOf(Journal(init, id)) + NewTodos(last);
        forall t | t in TodosOf(journal) ensures t in TodosOf(rows) {
          assert t in TodosOf(Journal(init, id)) || t in NewTodos(last);
        }
      } else {
        assert Journal(rows, id) == Journal(init, id);
      }
    }
  }

  lemma TodosOfHistory(start: Snapshot, journal: seq<ActionRow>, current: Snapshot, owner: int)
    requires start.created.None? && Linear(start, journal, current)
    requires forall row :: row in journal ==> Coherent(row.accepted) && row.owner == owner
    ensures TodosOf(journal) == if current.created.Some? then TodoRows(owner, current.created.value) else []
  {
    hide Recorded, Coherent, Linear, NewTodos;
    LinearEnds(start, journal, current);
    if journal != [] {
      var last := |journal| - 1;
      forall k | 0 <= k < last ensures NewTodos(journal[..last][k]) == [] {
        OnlyTheLastCreates(start, journal, current, k);
      }
      SilentPrefix(journal[..last]);
      assert TodosOf(journal) == TodosOf(journal[..last]) + NewTodos(journal[last]);
      assert journal[last] in journal;
      TodosOfLast(journal[last]);
    }
  }

  lemma LinearEnds(start: Snapshot, journal: seq<ActionRow>, current: Snapshot)
    requires Linear(start, journal, current)
    ensures current == if journal == [] then start else journal[|journal| - 1].accepted
  {
    hide Recorded, Coherent;
  }

  lemma TodosOfLast(row: ActionRow)
    ensures NewTodos(row) == if row.accepted.created.Some? then TodoRows(row.owner, row.accepted.created.value) else []
  {
  }

  /** `created` is one open todo per proposal, in order, if the workflow is completed, and nothing otherwise. */
  ghost predicate OneTodoPerProposal(s: Snapshot, owner: int, created: seq<TodoRow>) {
    && |created| == (if s.state.Completed? then |s.proposals| else 0)
    && forall k :: 0 <= k < |created| ==>
         created[k].title == s.proposals[k] && created[k].owner == owner && !created[k].completed
  }

  lemma CoherentTodos(s: Snapshot, owner: int)
    requires Coherent(s)
    ensures OneTodoPerProposal(s, owner, if s.created.Some? then TodoRows(owner, s.created.value) else [])
  {
  }

  /**
   * The todos a workflow has created are its proposals, in order and none of
   * them done, when it is completed, and none otherwise; they are all in the table.
   */
  lemma CreatedTodosAreProposals(db: Db, id: Uuid)
    requires WorkflowInv(db) && id in db.workflows
    ensures
      var created := TodosOf(Journal(db.actions, id));
      && OneTodoPerProposal(db.workflows[id].snapshot, db.workflows[id].owner, created)
      && forall t :: t in created ==> t in db.todos
  {
    var s, owner := db.workflows[id].snapshot, db.workflows[id].owner;
    hide Coherent, Linear;
    TodosOfJournal(db.actions, id);
    JournalRowsOk(db, id);
    TodosOfHistory(StartOf(id, s.title), Journal(db.actions, id), s, owner);
    CoherentTodos(s, owner);
    hide OneTodoPerProposal;
  }

  lemma JournalRowsOk(db: Db, id: Uuid)
    requires ActionsOk(db) && id in db.workflows
    ensures forall row :: row in Journal(db.actions, id) ==>
              Coherent(row.accepted) && row.owner == db.workflows[id].owner
  {
    hide Coherent;
    forall row | row in Journal(db.actions, id)
      ensures Coherent(row.accepted) && row.owner == db.workflows[id].owner
    {
      var i :| 0 <= i < |db.actions| && db.actions[i] == row;
      assert Owned(db, db.actions[i].owner, db.actions[i].workflow);
    }
  }

  /** The command a workflow waits for in this state; cancelling is possible until it has ended. */
  predicate Expects(state: WorkflowState, command: Command) {
    match command
    case AnswerMultipleSteps(_) => state.AssessTask? || state.OfferBreakdown?
    case SubmitTasks(_) => state.CollectTasks?
    case Confirm => state.Review?
    case Cancel => !Terminal(state)
  }

  /** On every reachable snapshot, exactly when a new action is accepted and why it is refused otherwise. */
  lemma CoherentRefusals(s: Snapshot, id: Uuid, command: Command, expectedRevision: int, step: StepId)
    requires Coherent(s)
    ensures
      var refusal := AdvanceRefusal(s, id, command, expectedRevision, step);
      var stale := step != StepOf(id, s.state) || expectedRevision != s.revision;
      && (refusal == Some(StaleWorkflowStep) <==> stale)
      && (refusal == Some(Domain(TerminalWorkflow)) <==> !stale && Terminal(s.state))
      && (refusal == Some(Domain(InvalidAction)) <==> !stale && !Terminal(s.state) && !Expects(s.state, command))
      && (refusal.None? <==> !stale && Expects(s.state, command))
  {
  }

  /** The revision limit is out of reach: no transaction on a reachable database reports it. */
  lemma RevisionNeverExhausted(db: Db, owner: int, id: Uuid, command: Command, request: Uuid,
                               expectedRevision: int, step: StepId, minted: nat -> Uuid)
    requires WorkflowInv(db)
    ensures AdvanceWorkflow(db, owner, id, command, request, expectedRevision, step, minted).1
              !in {Refused(RevisionExhausted), Refused(Domain(UnsupportedDefinition))}
  {
    hide Linear, Journal, FirstIds, UsableIds, Advanced, Accept, FindAction, ActionsOk, TodosOk, StartsOk;
    hide AdvanceRefusal, Coherent, Transition;
    if id in db.workflows {
      CoherentRefusals(db.workflows[id].snapshot, id, command, expectedRevision, step);
    }
  }
}
