/**
 * Stored workflow snapshots: the record written to the journals and the closed
 * validator that reads it back. The validator is a hand-written description of
 * what the workflow can reach; the theorems say how exact it is.
 */
module SnapshotCodec {
  import opened Prelude
  import opened Titles
  import opened WorkflowDomain

  datatype Json =
    | JNull
    | JBool(flag: bool)
    | JInt(number: int)
    | JFloat(text: string)
    | JStr(str: Text)
    | JList(items: seq<Json>)
    | JObj(fields: map<string, Json>)

  /**
   * How identifiers are written and read: `write` is str(uuid), `read` is
   * UUID(str(value)), which also takes other spellings of the same identifier.
   */
  datatype UuidSyntax = UuidSyntax(write: Uuid -> Text, read: Json -> Option<Uuid>) {
    ghost predicate Valid() {
      forall id :: read(JStr(write(id))) == Some(id)
    }
  }

  function Ascii(s: string): (t: Text)
    requires forall i :: 0 <= i < |s| ==> s[i] as int < 128
  {
    seq(|s|, i requires 0 <= i < |s| => s[i] as int)
  }

  function StateName(state: WorkflowState): Text {
    match state
    case AssessTask => Ascii("ASSESS_TASK")
    case OfferBreakdown => Ascii("OFFER_BREAKDOWN")
    case CollectTasks => Ascii("COLLECT_TASKS")
    case Review => Ascii("REVIEW")
    case Completed => Ascii("COMPLETED")
    case Cancelled => Ascii("CANCELLED")
  }

  function StateNamed(value: Json): Option<WorkflowState> {
    if !value.JStr? then None
    else if value.str == StateName(AssessTask) then Some(AssessTask)
    else if value.str == StateName(OfferBreakdown) then Some(OfferBreakdown)
    else if value.str == StateName(CollectTasks) then Some(CollectTasks)
    else if value.str == StateName(Review) then Some(Review)
    else if value.str == StateName(Completed) then Some(Completed)
    else if value.str == StateName(Cancelled) then Some(Cancelled)
    else None
  }

  lemma StateNamesAreDistinct(state: WorkflowState)
    ensures StateNamed(JStr(StateName(state))) == Some(state)
  {
    assert StateName(AssessTask)[0] == 65 && |StateName(AssessTask)| == 11;
    assert StateName(OfferBreakdown)[0] == 79;
    assert StateName(CollectTasks)[0] == 67 && |StateName(CollectTasks)| == 13;
    assert StateName(Review)[0] == 82;
    assert StateName(Completed)[1] == 79 && |StateName(Completed)| == 9;
    assert StateName(Cancelled)[1] == 65 && |StateName(Cancelled)| == 9;
  }

  const SNAPSHOT_KEYS: set<string> := {
    "workflow_id", "revision", "definition_version", "state", "title",
    "involves_multiple_steps", "proposed_todo_titles", "created_todos"
  }
  const TODO_KEYS: set<string> := { "id", "title", "completed" }

  // ------------------------------------------------------------------ writing

  function TitlesJson(titles: seq<Text>): (items: seq<Json>)
    ensures |items| == |titles|
  {
    seq(|titles|, i requires 0 <= i < |titles| => JStr(titles[i]))
  }

  function TodoJson(u: UuidSyntax, todo: CreatedTodo): Json {
    JObj(map["id" := JStr(u.write(todo.id)), "title" := JStr(todo.title), "completed" := JBool(todo.completed)])
  }

  function TodosJson(u: UuidSyntax, todos: seq<CreatedTodo>): (items: seq<Json>)
    ensures |items| == |todos|
  {
    seq(|todos|, i requires 0 <= i < |todos| => TodoJson(u, todos[i]))
  }

  function ToRecord(u: UuidSyntax, s: Snapshot): Json {
    JObj(map[
      "workflow_id" := JStr(u.write(s.id)),
      "revision" := JInt(s.revision),
      "definition_version" := JInt(s.definition),
      "state" := JStr(StateName(s.state)),
      "title" := JStr(s.title),
      "involves_multiple_steps" := (if s.multipleSteps.Some? then JBool(s.multipleSteps.value) else JNull),
      "proposed_todo_titles" := JList(TitlesJson(s.proposals)),
      "created_todos" := (if s.created.Some? then JList(TodosJson(u, s.created.value)) else JNull)
    ])
  }

  /** The written form, key by key. */
  lemma WrittenForm(u: UuidSyntax, s: Snapshot)
    ensures
      var record := ToRecord(u, s);
      && record.JObj? && record.fields.Keys == SNAPSHOT_KEYS
      && record.fields["workflow_id"] == JStr(u.write(s.id)) && record.fields["title"] == JStr(s.title)
      && record.fields["revision"] == JInt(s.revision) && record.fields["definition_version"] == JInt(s.definition)
      && record.fields["state"].JStr? && Named(s.state, record.fields["state"].str)
      && record.fields["involves_multiple_steps"]
           == (if s.multipleSteps.None? then JNull else JBool(s.multipleSteps.value))
      && WritesTitles(record.fields["proposed_todo_titles"], s.proposals)
      && (if s.created.None? then record.fields["created_todos"] == JNull
          else WritesTodos(u, record.fields["created_todos"], s.created.value))
  {
  }

  /** The name under which a state is stored. */
  predicate Named(state: WorkflowState, name: Text) {
    match state
    case AssessTask => name == Ascii("ASSESS_TASK")
    case OfferBreakdown => name == Ascii("OFFER_BREAKDOWN")
    case CollectTasks => name == Ascii("COLLECT_TASKS")
    case Review => name == Ascii("REVIEW")
    case Completed => name == Ascii("COMPLETED")
    case Cancelled => name == Ascii("CANCELLED")
  }

  ghost predicate WritesTitles(value: Json, titles: seq<Text>) {
    && value.JList? && |value.items| == |titles|
    && forall i :: 0 <= i < |titles| ==> value.items[i] == JStr(titles[i])
  }

  ghost predicate WritesTodos(u: UuidSyntax, value: Json, todos: seq<CreatedTodo>) {
    && value.JList? && |value.items| == |todos|
    && forall i :: 0 <= i < |todos| ==>
         value.items[i] == JObj(map["id" := JStr(u.write(todos[i].id)), "title" := JStr(todos[i].title),
                                    "completed" := JBool(todos[i].completed)])
  }

  // ------------------------------------------------------------------ reading

  function StoredTitle(value: Json): Option<Text> {
    if value.JStr? && CanonicalTitle(value.str) then Some(value.str) else None
  }

  function StoredTitles(items: seq<Json>): (r: Option<seq<Text>>)
    ensures r.Some? ==> |r.value| == |items|
    ensures r.Some? <==> forall i :: 0 <= i < |items| ==> StoredTitle(items[i]).Some?
    ensures r.Some? ==> forall i :: 0 <= i < |items| ==> items[i] == JStr(r.value[i])
    ensures r.Some? ==> AllCanonical(r.value)
  {
    ReadAll(items, StoredTitle)
  }

  function StoredTodo(u: UuidSyntax, entry: Json): Option<CreatedTodo> {
    if !entry.JObj? || entry.fields.Keys != TODO_KEYS then None
    else match (u.read(entry.fields["id"]), StoredTitle(entry.fields["title"]))
      case (Some(id), Some(title)) =>
        if entry.fields["completed"] == JBool(false) then Some(CreatedTodo(id, title, false)) else None
      case _ => None
  }

  function StoredTodos(u: UuidSyntax, items: seq<Json>): (r: Option<seq<CreatedTodo>>)
    ensures r.Some? ==> |r.value| == |items|
    ensures r.Some? <==> forall i :: 0 <= i < |items| ==> StoredTodo(u, items[i]).Some?
    ensures r.Some? ==> forall i :: 0 <= i < |items| ==> StoredTodo(u, items[i]) == Some(r.value[i])
  {
    ReadAll(items, (item: Json) => StoredTodo(u, item))
  }

  /** The state-by-state rule for the flag and the proposals. */
  predicate ContextAccepted(state: WorkflowState, title: Text, multi: Option<bool>, proposals: seq<Text>) {
    match state
    case AssessTask => multi == None && proposals == []
    case OfferBreakdown => multi == Some(true) && proposals == []
    case CollectTasks => multi == Some(true) && proposals == []
    case Review => ProposalsAccepted(title, multi, proposals)
    case Completed => ProposalsAccepted(title, multi, proposals)
    case Cancelled =>
      match multi
      case None => proposals == []
      case Some(flag) =>
        if !flag then |proposals| == 1 && proposals[0] == title
        else |proposals| <= MAX_BREAKDOWN_TITLES && (|proposals| == 1 ==> proposals[0] == title)
  }

  predicate ProposalsAccepted(title: Text, multi: Option<bool>, proposals: seq<Text>) {
    && (match multi
        case None => false
        case Some(flag) => if flag then 1 <= |proposals| <= MAX_BREAKDOWN_TITLES else |proposals| == 1)
    && (|proposals| == 1 ==> proposals[0] == title)
  }

  predicate TodosMatch(todos: seq<CreatedTodo>, proposals: seq<Text>) {
    && |todos| == |proposals|
    && forall i :: 0 <= i < |todos| ==> todos[i].title == proposals[i]
  }

  function StoredFlag(value: Json): Option<Option<bool>> {
    match value
    case JNull => Some(None)
    case JBool(b) => Some(Some(b))
    case _ => None
  }

  /** None stands for InvalidStoredSnapshot. */
  function FromRecord(u: UuidSyntax, record: Json): Option<Snapshot> {
    if !record.JObj? || record.fields.Keys != SNAPSHOT_KEYS then None
    else
      var f := record.fields;
      var revision, definition := f["revision"], f["definition_version"];
      if !revision.JInt? || !(0 <= revision.number <= MAX_WORKFLOW_REVISION) then None
      else if !definition.JInt? || definition.number < 1 then None
      else if !f["proposed_todo_titles"].JList? then None
      else
        match (u.read(f["workflow_id"]), StateNamed(f["state"]), StoredTitle(f["title"]),
               StoredFlag(f["involves_multiple_steps"]), StoredTitles(f["proposed_todo_titles"].items))
        case (Some(id), Some(state), Some(title), Some(multi), Some(proposals)) =>
          if !ContextAccepted(state, title, multi, proposals) then None
          else
            var base := Snapshot(id, state, title, multi, proposals, None, revision.number, definition.number);
            WithTodos(u, base, f["created_todos"])
        case _ => None
  }

  function WithTodos(u: UuidSyntax, base: Snapshot, stored: Json): Option<Snapshot> {
    if !base.state.Completed? then (if stored == JNull then Some(base) else None)
    else if !stored.JList? || stored.items == [] then None
    else match StoredTodos(u, stored.items)
      case None => None
      case Some(todos) =>
        if TodosMatch(todos, base.proposals) then Some(base.(created := Some(todos))) else None
  }

  // ---------------------------------------------------------------- exactness

  lemma RoundTripTitles(titles: seq<Text>)
    requires AllCanonical(titles)
    ensures StoredTitles(TitlesJson(titles)) == Some(titles)
  {
    var items := TitlesJson(titles);
    assert forall i :: 0 <= i < |items| ==> titles[i] in titles && StoredTitle(items[i]) == Some(titles[i]);
    assert StoredTitles(items).value == titles;
  }

  lemma RoundTripTodos(u: UuidSyntax, todos: seq<CreatedTodo>)
    requires u.Valid()
    requires forall i :: 0 <= i < |todos| ==> CanonicalTitle(todos[i].title) && !todos[i].completed
    ensures StoredTodos(u, TodosJson(u, todos)) == Some(todos)
  {
    hide StoredTodo, TodoJson, CanonicalTitle, StoredTodos;
    var items := TodosJson(u, todos);
    forall i | 0 <= i < |items| ensures StoredTodo(u, items[i]) == Some(todos[i]) {
      TodoReadsBack(u, todos[i]);
    }
    assert StoredTodos(u, items).value == todos;
  }

  lemma TodoReadsBack(u: UuidSyntax, todo: CreatedTodo)
    requires u.Valid() && CanonicalTitle(todo.title) && !todo.completed
    ensures StoredTodo(u, TodoJson(u, todo)) == Some(todo)
  {
    hide CanonicalTitle;
    assert TodoJson(u, todo).fields.Keys == TODO_KEYS;
  }

  lemma CoherentContext(s: Snapshot)
    requires Coherent(s)
    ensures ContextAccepted(s.state, s.title, s.multipleSteps, s.proposals)
  {
  }

  /** What the validator answers once every field has been decoded. */
  lemma DecodedRecord(u: UuidSyntax, record: Json, s: Snapshot)
    requires record.JObj? && record.fields.Keys == SNAPSHOT_KEYS
    requires record.fields["revision"] == JInt(s.revision) && 0 <= s.revision <= MAX_WORKFLOW_REVISION
    requires record.fields["definition_version"] == JInt(s.definition) && s.definition >= 1
    requires u.read(record.fields["workflow_id"]) == Some(s.id)
    requires StateNamed(record.fields["state"]) == Some(s.state)
    requires StoredTitle(record.fields["title"]) == Some(s.title)
    requires StoredFlag(record.fields["involves_multiple_steps"]) == Some(s.multipleSteps)
    requires record.fields["proposed_todo_titles"].JList?
    requires StoredTitles(record.fields["proposed_todo_titles"].items) == Some(s.proposals)
    requires ContextAccepted(s.state, s.title, s.multipleSteps, s.proposals)
    requires WithTodos(u, s.(created := None), record.fields["created_todos"]) == Some(s)
    ensures FromRecord(u, record) == Some(s)
  {
  }

  function CreatedJson(u: UuidSyntax, s: Snapshot): Json {
    if s.created.Some? then JList(TodosJson(u, s.created.value)) else JNull
  }

  lemma RecordFields(u: UuidSyntax, s: Snapshot)
    ensures
      && ToRecord(u, s).JObj?
      && var g := ToRecord(u, s).fields;
      && g.Keys == SNAPSHOT_KEYS
      && g["workflow_id"] == JStr(u.write(s.id)) && g["revision"] == JInt(s.revision)
      && g["definition_version"] == JInt(s.definition) && g["state"] == JStr(StateName(s.state))
      && g["title"] == JStr(s.title)
      && g["involves_multiple_steps"] == (if s.multipleSteps.Some? then JBool(s.multipleSteps.value) else JNull)
      && g["proposed_todo_titles"] == JList(TitlesJson(s.proposals))
      && g["created_todos"] == CreatedJson(u, s)
  {
    hide StateName, TitlesJson, TodosJson;
  }

  lemma WrittenTodosRead(u: UuidSyntax, s: Snapshot)
    requires u.Valid()
    requires s.created.Some? <==> s.state.Completed?
    requires s.created.Some? ==>
               && s.created.value != []
               && TodosMatch(s.created.value, s.proposals)
               && AllCanonical(s.proposals)
               && forall i :: 0 <= i < |s.created.value| ==> !s.created.value[i].completed
    ensures WithTodos(u, s.(created := None), CreatedJson(u, s)) == Some(s)
  {
    if s.created.Some? {
      assert forall i :: 0 <= i < |s.proposals| ==> s.proposals[i] in s.proposals;
      RoundTripTodos(u, s.created.value);
    }
  }

  /** `t` and `s` agree on everything except revision number and definition version. */
  ghost predicate SameWorkflow(s: Snapshot, t: Snapshot) {
    t == s.(revision := t.revision, definition := t.definition)
  }

  /** Revision and definition numbers in range do not matter to the validator. */
  lemma RenumberedRoundTrip(u: UuidSyntax, s: Snapshot, t: Snapshot)
    requires u.Valid() && Coherent(t) && SameWorkflow(s, t)
    requires 0 <= s.revision <= MAX_WORKFLOW_REVISION && s.definition >= 1
    ensures FromRecord(u, ToRecord(u, s)) == Some(s)
  {
    CoherentContext(t);
    hide FromRecord;
    StorableRoundTrip(u, s);
  }

  /** Nothing is lost: every snapshot a run can reach is read back as it was written. */
  lemma RecordRoundTrip(u: UuidSyntax, s: Snapshot)
    requires u.Valid() && Coherent(s)
    ensures FromRecord(u, ToRecord(u, s)) == Some(s)
  {
    RenumberedRoundTrip(u, s, s);
  }

  function YesYes(): seq<Move> {
    [Move(AnswerMultipleSteps(true), []), Move(AnswerMultipleSteps(true), [])]
  }

  /** The actions that lead to a proposal with this flag. */
  function ProposalMoves(multi: Option<bool>, title: Text, proposals: seq<Text>): seq<Move> {
    if multi == Some(false) then [Move(AnswerMultipleSteps(false), [])]
    else if proposals == [] then (if multi == None then [] else [Move(AnswerMultipleSteps(true), [])])
    else if proposals == [title] then [Move(AnswerMultipleSteps(true), []), Move(AnswerMultipleSteps(false), [])]
    else YesYes() + [Move(SubmitTasks(proposals), [])]
  }

  /** A run that ends in the workflow a record describes. */
  function RunFor(s: Snapshot): seq<Move> {
    match s.state
    case AssessTask => []
    case OfferBreakdown => [Move(AnswerMultipleSteps(true), [])]
    case CollectTasks => YesYes()
    case Review => ProposalMoves(s.multipleSteps, s.title, s.proposals)
    case Completed =>
      ProposalMoves(s.multipleSteps, s.title, s.proposals)
        + [Move(Confirm, if s.created.Some? then TodoIds(s.created.value) else [])]
    case Cancelled => ProposalMoves(s.multipleSteps, s.title, s.proposals) + [Move(Cancel, [])]
  }

  lemma Extend(id: Uuid, title: Text, moves: seq<Move>, s: Snapshot, m: Move, t: Snapshot)
    requires Reaches(id, title, moves, s) && Follows(s, m, t)
    ensures Reaches(id, title, moves + [m], t)
  {
    assert (moves + [m])[..|moves|] == moves;
  }

  lemma ReachStart(id: Uuid, title: Text)
    requires CanonicalTitle(title)
    ensures Reaches(id, title, [], StartOf(id, title))
  {
  }

  lemma ReachYes(id: Uuid, title: Text) returns (offer: Snapshot, collect: Snapshot)
    requires CanonicalTitle(title)
    ensures Reaches(id, title, [Move(AnswerMultipleSteps(true), [])], offer)
    ensures offer == Snapshot(id, OfferBreakdown, title, Some(true), [], None, 1, CURRENT_DEFINITION)
    ensures Reaches(id, title, YesYes(), collect)
    ensures collect == Snapshot(id, CollectTasks, title, Some(true), [], None, 2, CURRENT_DEFINITION)
  {
    hide Reaches;
    var start := StartOf(id, title);
    var yes := Move(AnswerMultipleSteps(true), []);
    ReachStart(id, title);
    offer := Snapshot(id, OfferBreakdown, title, Some(true), [], None, 1, CURRENT_DEFINITION);
    Extend(id, title, [], start, yes, offer);
    assert [] + [yes] == [yes];
    collect := Snapshot(id, CollectTasks, title, Some(true), [], None, 2, CURRENT_DEFINITION);
    Extend(id, title, [yes], offer, yes, collect);
    assert [yes] + [yes] == YesYes();
  }

  /** Where the actions of ProposalMoves lead. */
  lemma ReachProposal(id: Uuid, title: Text, multi: Option<bool>, proposals: seq<Text>) returns (s: Snapshot)
    requires CanonicalTitle(title)
    requires
      var shape := StartOf(id, title).(multipleSteps := multi, proposals := proposals);
      Proposed(shape) || Unproposed(shape)
    ensures Reaches(id, title, ProposalMoves(multi, title, proposals), s)
    ensures s == Snapshot(id, s.state, title, multi, proposals, None, s.revision, CURRENT_DEFINITION)
    ensures proposals != [] ==> s.state == Review
    ensures !Terminal(s.state)
  {
    hide Reaches;
    var start := StartOf(id, title);
    ReachStart(id, title);
    var no := Move(AnswerMultipleSteps(false), []);
    var offer, collect := ReachYes(id, title);
    if multi == Some(false) {
      s := start.(state := Review, multipleSteps := Some(false), proposals := [title], revision := 1);
      assert Follows(start, no, s);
      Extend(id, title, [], start, no, s);
      assert [] + [no] == [no];
    } else if proposals == [] {
      assert multi.Some? ==> multi.value;
      s := if multi == None then start else offer;
    } else if proposals == [title] {
      s := offer.(state := Review, proposals := [title], revision := 2);
      assert Follows(offer, no, s);
      Extend(id, title, [Move(AnswerMultipleSteps(true), [])], offer, no, s);
      assert [Move(AnswerMultipleSteps(true), [])] + [no] == ProposalMoves(multi, title, proposals);
    } else {
      var submit := Move(SubmitTasks(proposals), []);
      s := collect.(state := Review, proposals := proposals, revision := 3);
      assert Follows(collect, submit, s);
      Extend(id, title, YesYes(), collect, submit, s);
    }
  }

  /** What the validator demands of the decoded fields together; identifiers play no part. */
  ghost predicate Storable(s: Snapshot) {
    && 0 <= s.revision <= MAX_WORKFLOW_REVISION && s.definition >= 1
    && CanonicalTitle(s.title) && AllCanonical(s.proposals)
    && ContextAccepted(s.state, s.title, s.multipleSteps, s.proposals)
    && (s.created.Some? <==> s.state.Completed?)
    && (s.created.Some? ==>
          && TodosMatch(s.created.value, s.proposals)
          && forall i :: 0 <= i < |s.created.value| ==> !s.created.value[i].completed)
  }

  lemma AcceptedFacts(u: UuidSyntax, record: Json, s: Snapshot)
    requires FromRecord(u, record) == Some(s)
    ensures Storable(s)
  {
    hide FromRecord, ContextAccepted, CanonicalTitle, WithTodos, TodosMatch, AllCanonical;
    AcceptedBase(u, record, s);
    WithTodosKeeps(u, record, s);
    TodosAreOpen(u, s.(created := None), record.fields["created_todos"], s);
  }

  /** Everything but the todos. */
  lemma AcceptedBase(u: UuidSyntax, record: Json, s: Snapshot)
    requires FromRecord(u, record) == Some(s)
    ensures record.JObj? && "created_todos" in record.fields
    ensures 0 <= s.revision <= MAX_WORKFLOW_REVISION && s.definition >= 1
    ensures CanonicalTitle(s.title) && AllCanonical(s.proposals)
    ensures ContextAccepted(s.state, s.title, s.multipleSteps, s.proposals)
  {
    hide StateNamed, StoredFlag, ContextAccepted, CanonicalTitle, StoredTitles, StoredTodos, TodosMatch,
         AllCanonical;
  }

  lemma WithTodosKeeps(u: UuidSyntax, record: Json, s: Snapshot)
    requires FromRecord(u, record) == Some(s)
    ensures WithTodos(u, s.(created := None), record.fields["created_todos"]) == Some(s)
  {
    hide StateNamed, StoredFlag, ContextAccepted, StoredTitle, StoredTitles, StoredTodos, TodosMatch;
  }

  lemma TodosAreOpen(u: UuidSyntax, base: Snapshot, stored: Json, s: Snapshot)
    requires base.created.None? && WithTodos(u, base, stored) == Some(s)
    ensures s == base.(created := s.created)
    ensures s.created.Some? <==> s.state.Completed?
    ensures s.created.Some? ==>
              && TodosMatch(s.created.value, s.proposals)
              && forall i :: 0 <= i < |s.created.value| ==> !s.created.value[i].completed
  {
    hide TodosMatch, StoredTodos, CanonicalTitle;
    if s.created.Some? {
      forall i | 0 <= i < |s.created.value| ensures !s.created.value[i].completed {
        assert StoredTodo(u, stored.items[i]) == Some(s.created.value[i]);
      }
    }
  }

  lemma AcceptedShape(s: Snapshot)
    requires AllCanonical(s.proposals)
    requires ContextAccepted(s.state, s.title, s.multipleSteps, s.proposals)
    ensures s.state in {Review, Completed} ==> Proposed(s)
    ensures s.state == Cancelled ==> Proposed(s) || Unproposed(s)
  {
    if |s.proposals| == 1 && s.proposals[0] == s.title {
      assert s.proposals == [s.title];
    }
  }

  lemma ReachCompleted(s: Snapshot) returns (t: Snapshot)
    requires s.state.Completed? && s.created.Some? && CanonicalTitle(s.title) && Proposed(s)
    requires TodosMatch(s.created.value, s.proposals) && Distinct(TodoIds(s.created.value))
    requires forall i :: 0 <= i < |s.created.value| ==> !s.created.value[i].completed
    ensures Reaches(s.id, s.title, RunFor(s), t) && SameWorkflow(s, t)
  {
    hide Reaches, CanonicalTitle;
    var review := ReachProposal(s.id, s.title, s.multipleSteps, s.proposals);
    var m := Move(Confirm, TodoIds(s.created.value));
    t := Advanced(review, Transition(review, Confirm).value, m.ids);
    assert t.created.value == s.created.value;
    Extend(s.id, s.title, ProposalMoves(s.multipleSteps, s.title, s.proposals), review, m, t);
  }

  lemma ReachCancelled(s: Snapshot) returns (t: Snapshot)
    requires s.state.Cancelled? && s.created.None? && CanonicalTitle(s.title) && (Proposed(s) || Unproposed(s))
    ensures Reaches(s.id, s.title, RunFor(s), t) && SameWorkflow(s, t)
  {
    hide Reaches, CanonicalTitle;
    var open := ReachProposal(s.id, s.title, s.multipleSteps, s.proposals);
    var m := Move(Cancel, []);
    t := Advanced(open, Transition(open, Cancel).value, []);
    Extend(s.id, s.title, ProposalMoves(s.multipleSteps, s.title, s.proposals), open, m, t);
  }

  /**
   * Nothing extra is accepted: a record whose todo identifiers are pairwise
   * distinct is the image of a run, ignoring revision and definition version.
   */
  lemma AcceptedIsReachable(u: UuidSyntax, record: Json, s: Snapshot) returns (t: Snapshot)
    requires FromRecord(u, record) == Some(s)
    requires s.created.Some? ==> Distinct(TodoIds(s.created.value))
    ensures Reaches(s.id, s.title, RunFor(s), t) && SameWorkflow(s, t)
  {
    AcceptedFacts(u, record, s);
    hide FromRecord, Storable, Reaches, Distinct;
    t := StorableIsReachable(s);
  }

  lemma StorableIsReachable(s: Snapshot) returns (t: Snapshot)
    requires Storable(s)
    requires s.created.Some? ==> Distinct(TodoIds(s.created.value))
    ensures Reaches(s.id, s.title, RunFor(s), t) && SameWorkflow(s, t)
  {
    hide Reaches, TodosMatch, CanonicalTitle, Distinct;
    AcceptedShape(s);
    match s.state
    case AssessTask =>
      t := StartOf(s.id, s.title);
      ReachStart(s.id, s.title);
    case OfferBreakdown =>
      var offer, collect := ReachYes(s.id, s.title);
      t := offer;
    case CollectTasks =>
      var offer, collect := ReachYes(s.id, s.title);
      t := collect;
    case Review =>
      t := ReachProposal(s.id, s.title, s.multipleSteps, s.proposals);
    case Completed =>
      t := ReachCompleted(s);
    case Cancelled =>
      t := ReachCancelled(s);
  }

  /**
   * The exact reach of the validator: among snapshots with in-range numbers,
   * its images are those of runs and, besides, completed snapshots that repeat
   * a todo identifier.
   */
  lemma ValidatorIsExact(u: UuidSyntax, s: Snapshot)
    requires u.Valid()
    requires s.created.Some? ==> Distinct(TodoIds(s.created.value))
    ensures (exists record :: FromRecord(u, record) == Some(s))
       <==> && 0 <= s.revision <= MAX_WORKFLOW_REVISION && s.definition >= 1
            && exists t :: Reachable(t) && SameWorkflow(s, t)
  {
    if record :| FromRecord(u, record) == Some(s) {
      var t := AcceptedIsReachable(u, record, s);
      assert Reachable(t);
    }
    if && 0 <= s.revision <= MAX_WORKFLOW_REVISION && s.definition >= 1
       && exists t :: Reachable(t) && SameWorkflow(s, t) {
      var t :| Reachable(t) && SameWorkflow(s, t);
      var title, moves :| Reaches(t.id, title, moves, t);
      ReachableIsCoherent(t.id, title, moves, t);
      RenumberedRoundTrip(u, s, t);
    }
  }

  /** The snapshot with its todos numbered apart. */
  function NumberedApart(s: Snapshot): Snapshot {
    if s.created.None? then s
    else
      var todos := s.created.value;
      s.(created := Some(seq(|todos|, i requires 0 <= i < |todos| => todos[i].(id := Uuid(i)))))
  }

  lemma NumberedApartIsStorable(s: Snapshot)
    ensures Storable(NumberedApart(s)) <==> Storable(s)
    ensures s.created.Some? ==> Distinct(TodoIds(NumberedApart(s).created.value))
  {
    hide CanonicalTitle, AllCanonical, ContextAccepted;
    if s.created.Some? {
      var todos, apart := s.created.value, NumberedApart(s).created.value;
      assert forall i :: 0 <= i < |todos| ==>
          apart[i].title == todos[i].title && apart[i].completed == todos[i].completed;
    }
  }

  lemma StorableRoundTrip(u: UuidSyntax, s: Snapshot)
    requires u.Valid() && Storable(s)
    ensures FromRecord(u, ToRecord(u, s)) == Some(s)
  {
    hide StateNamed, StateName, StoredTitles, WithTodos, FromRecord;
    if s.created.Some? { AcceptedShape(s); }
    hide ContextAccepted;
    RecordFields(u, s);
    StateNamesAreDistinct(s.state);
    RoundTripTitles(s.proposals);
    WrittenTodosRead(u, s);
    DecodedRecord(u, ToRecord(u, s), s);
  }

  lemma ReachableIsStorable(s: Snapshot, t: Snapshot)
    requires Reachable(t) && SameWorkflow(s, t) && 0 <= s.revision <= MAX_WORKFLOW_REVISION && s.definition >= 1
    ensures Storable(s)
  {
    var title, moves :| Reaches(t.id, title, moves, t);
    ReachableIsCoherent(t.id, title, moves, t);
    CoherentContext(t);
  }

  /**
   * The reach of the validator over all snapshots: it accepts an image of `s` exactly
   * when the numbers are in range and some run reaches `s` up to revision, definition
   * and the identifiers of its todos, which nothing compares.
   */
  lemma ValidatorReachesExactly(u: UuidSyntax, s: Snapshot)
    requires u.Valid()
    ensures (exists record :: FromRecord(u, record) == Some(s))
       <==> && 0 <= s.revision <= MAX_WORKFLOW_REVISION && s.definition >= 1
            && exists t :: Reachable(t) && SameWorkflow(NumberedApart(s), t)
  {
    hide FromRecord, Storable, NumberedApart, Reachable;
    NumberedApartIsStorable(s);
    NumbersStay(s);
    if record :| FromRecord(u, record) == Some(s) {
      AcceptedFacts(u, record, s);
      StorableNumbers(s);
      var t := StorableIsReachable(NumberedApart(s));
      RunReaches(NumberedApart(s), t);
    }
    if && 0 <= s.revision <= MAX_WORKFLOW_REVISION && s.definition >= 1
       && exists t :: Reachable(t) && SameWorkflow(NumberedApart(s), t) {
      var t :| Reachable(t) && SameWorkflow(NumberedApart(s), t);
      ReachableIsStorable(NumberedApart(s), t);
      StorableRoundTrip(u, s);
    }
  }

  lemma StorableNumbers(s: Snapshot)
    requires Storable(s)
    ensures 0 <= s.revision <= MAX_WORKFLOW_REVISION && s.definition >= 1
  {
  }

  lemma NumbersStay(s: Snapshot)
    ensures NumberedApart(s).revision == s.revision && NumberedApart(s).definition == s.definition
    ensures s.created.Some? <==> NumberedApart(s).created.Some?
  {
  }

  lemma RunReaches(s: Snapshot, t: Snapshot)
    requires Reaches(s.id, s.title, RunFor(s), t) && SameWorkflow(s, t)
    ensures Reachable(t)
  {
  }

  lemma AcceptedFields(u: UuidSyntax, record: Json, s: Snapshot)
    requires FromRecord(u, record) == Some(s)
    ensures
      var f := record.fields;
      && f["revision"] == JInt(s.revision) && f["definition_version"] == JInt(s.definition)
      && f["title"] == JStr(s.title)
      && f["involves_multiple_steps"] == (if s.multipleSteps.Some? then JBool(s.multipleSteps.value) else JNull)
      && f["proposed_todo_titles"] == JList(TitlesJson(s.proposals))
      && f["state"] == JStr(StateName(s.state))
  {
    var items := record.fields["proposed_todo_titles"].items;
    assert items == TitlesJson(s.proposals);
  }

  /** Every todo identifier in the record is spelled the way str(uuid) spells it. */
  ghost predicate TodoIdsSpelled(u: UuidSyntax, stored: Json, s: Snapshot) {
    s.created.Some? ==>
      && stored.JList? && |stored.items| == |s.created.value|
      && forall i :: 0 <= i < |stored.items| ==>
           && stored.items[i].JObj? && "id" in stored.items[i].fields
           && stored.items[i].fields["id"] == JStr(u.write(s.created.value[i].id))
  }

  lemma AcceptedTodosField(u: UuidSyntax, record: Json, s: Snapshot)
    requires FromRecord(u, record) == Some(s)
    ensures
      var stored := record.fields["created_todos"];
      if s.created.None? then stored == JNull
      else stored.JList? && StoredTodos(u, stored.items) == s.created
  {
    hide StateNamed, StoredTitles, ContextAccepted;
  }

  lemma TodoEntriesAreObjects(u: UuidSyntax, items: seq<Json>)
    requires StoredTodos(u, items).Some?
    ensures forall i :: 0 <= i < |items| ==> items[i].JObj? && "id" in items[i].fields
  {
    forall i | 0 <= i < |items| ensures items[i].JObj? && "id" in items[i].fields {
      assert StoredTodo(u, items[i]).Some?;
    }
  }

  lemma AcceptedTodos(u: UuidSyntax, record: Json, s: Snapshot)
    requires FromRecord(u, record) == Some(s)
    ensures record.fields["created_todos"] == CreatedJson(u, s) <==>
        TodoIdsSpelled(u, record.fields["created_todos"], s)
  {
    AcceptedTodosField(u, record, s);
    hide FromRecord, TodosJson;
    var stored := record.fields["created_todos"];
    if s.created.Some? {
      SameTodos(u, stored.items, s.created.value);
      TodoEntriesAreObjects(u, stored.items);
      hide StoredTodos, StoredTodo;
    }
  }

  lemma SameTodos(u: UuidSyntax, items: seq<Json>, todos: seq<CreatedTodo>)
    requires StoredTodos(u, items) == Some(todos)
    ensures items == TodosJson(u, todos) <==>
              forall i :: 0 <= i < |todos| ==> items[i].fields["id"] == JStr(u.write(todos[i].id))
  {
    hide StoredTodo, TodoJson, StoredTodos;
    forall i | 0 <= i < |items|
      ensures items[i].JObj? && "id" in items[i].fields
      ensures items[i] == TodoJson(u, todos[i]) <==> items[i].fields["id"] == JStr(u.write(todos[i].id))
    {
      SameTodo(u, items[i], todos[i]);
    }
    assert items == TodosJson(u, todos) <==> forall i :: 0 <= i < |items| ==> items[i] == TodosJson(u, todos)[i];
  }

  lemma SameTodo(u: UuidSyntax, item: Json, todo: CreatedTodo)
    requires StoredTodo(u, item) == Some(todo)
    ensures item.JObj? && "id" in item.fields
    ensures item == TodoJson(u, todo) <==> item.fields["id"] == JStr(u.write(todo.id))
  {
    hide CanonicalTitle;
    var f, g := item.fields, TodoJson(u, todo).fields;
    assert f.Keys == g.Keys == TODO_KEYS;
    assert f == g <==> forall k :: k in TODO_KEYS ==> f[k] == g[k];
  }

  lemma SameFields(f: map<string, Json>, g: map<string, Json>)
    requires f.Keys == g.Keys == SNAPSHOT_KEYS
    requires forall k :: k in SNAPSHOT_KEYS && k != "workflow_id" && k != "created_todos" ==> f[k] == g[k]
    ensures f == g <==> f["workflow_id"] == g["workflow_id"] && f["created_todos"] == g["created_todos"]
  {
  }

  lemma AcceptedElsewhere(u: UuidSyntax, record: Json, s: Snapshot)
    requires FromRecord(u, record) == Some(s)
    ensures
      var f, g := record.fields, ToRecord(u, s).fields;
      && f.Keys == g.Keys == SNAPSHOT_KEYS
      && g["workflow_id"] == JStr(u.write(s.id)) && g["created_todos"] == CreatedJson(u, s)
      && forall k :: k in SNAPSHOT_KEYS && k != "workflow_id" && k != "created_todos" ==> f[k] == g[k]
  {
    hide FromRecord, ToRecord, StateName, TitlesJson, CreatedJson;
    AcceptedFields(u, record, s);
    AcceptedKeys(u, record);
    RecordFields(u, s);
  }

  lemma AcceptedKeys(u: UuidSyntax, record: Json)
    requires FromRecord(u, record).Some?
    ensures record.JObj? && record.fields.Keys == SNAPSHOT_KEYS
  {
  }

  /** An accepted record is exactly what would be written for its snapshot, up to the spelling of identifiers. */
  lemma AcceptedIsItsOwnImage(u: UuidSyntax, record: Json, s: Snapshot)
    requires FromRecord(u, record) == Some(s)
    ensures
      record == ToRecord(u, s) <==>
      record.fields["workflow_id"] == JStr(u.write(s.id)) && TodoIdsSpelled(u, record.fields["created_todos"], s)
  {
    AcceptedElsewhere(u, record, s);
    AcceptedTodos(u, record, s);
    var f, g := record.fields, ToRecord(u, s).fields;
    SameFields(f, g);
    assert record == ToRecord(u, s) <==> f == g;
  }

  /**
   * An accepted record is what would be written at the end of some run, revision and
   * definition aside, if and only if its todo identifiers are distinct and all its
   * identifiers are spelled the way they are written.
   */
  lemma AcceptedIsARunsImageIff(u: UuidSyntax, record: Json, s: Snapshot)
    requires FromRecord(u, record) == Some(s)
    ensures record == ToRecord(u, s) && (exists t :: Reachable(t) && SameWorkflow(s, t))
       <==> && (s.created.Some? ==> Distinct(TodoIds(s.created.value)))
            && record.fields["workflow_id"] == JStr(u.write(s.id))
            && TodoIdsSpelled(u, record.fields["created_todos"], s)
  {
    AcceptedIsItsOwnImage(u, record, s);
    hide FromRecord, ToRecord, TodoIdsSpelled;
    if t :| Reachable(t) && SameWorkflow(s, t) {
      var title, moves :| Reaches(t.id, title, moves, t);
      ReachableIsCoherent(t.id, title, moves, t);
    }
    if s.created.Some? ==> Distinct(TodoIds(s.created.value)) {
      var t := AcceptedIsReachable(u, record, s);
      RunReaches(s, t);
    }
  }

  lemma ReachableImpliesCoherent(s: Snapshot)
    ensures Reachable(s) ==> Coherent(s)
  {
    forall title, moves | Reaches(s.id, title, moves, s) ensures Coherent(s) {
      ReachableIsCoherent(s.id, title, moves, s);
    }
  }

  /** A completed snapshot with proposals `a` and `b` whose todos share one identifier. */
  function Repeated(id: Uuid, todo: Uuid, a: Text, b: Text): Snapshot {
    Snapshot(id, Completed, a, Some(true), [a, b],
             Some([CreatedTodo(todo, a, false), CreatedTodo(todo, b, false)]), 4, CURRENT_DEFINITION)
  }

  lemma RepeatedIsUnreachable(id: Uuid, todo: Uuid, a: Text, b: Text)
    ensures !Reachable(Repeated(id, todo, a, b))
  {
    hide Reachable;
    var ids := TodoIds(Repeated(id, todo, a, b).created.value);
    assert ids[0] == ids[1];
    ReachableImpliesCoherent(Repeated(id, todo, a, b));
  }

  /** The one family beyond runs: a completed snapshot that repeats a todo identifier is accepted. */
  lemma RepeatedTodoIdIsAccepted(u: UuidSyntax, id: Uuid, todo: Uuid, a: Text, b: Text)
    requires u.Valid() && CanonicalTitle(a) && CanonicalTitle(b)
    ensures
      var s := Repeated(id, todo, a, b);
      FromRecord(u, ToRecord(u, s)) == Some(s) && !Reachable(s)
  {
    hide CanonicalTitle, Reachable, StateNamed, StateName, ToRecord, FromRecord, StoredTitles, WithTodos, TitlesJson,
         TodosJson;
    var s := Repeated(id, todo, a, b);
    RepeatedIsUnreachable(id, todo, a, b);
    RecordFields(u, s);
    StateNamesAreDistinct(Completed);
    RoundTripTitles([a, b]);
    WrittenTodosRead(u, s);
    DecodedRecord(u, ToRecord(u, s), s);
  }
}
