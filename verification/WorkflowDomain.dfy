/** The planning workflow: its states, its commands and its one transition function. */
module WorkflowDomain {
  import opened Prelude
  import opened Titles

  datatype Uuid = Uuid(bits: nat)

  datatype WorkflowState = AssessTask | OfferBreakdown | CollectTasks | Review | Completed | Cancelled

  datatype CreatedTodo = CreatedTodo(id: Uuid, title: Text, completed: bool)

  datatype Snapshot = Snapshot(
    id: Uuid,
    state: WorkflowState,
    title: Text,
    multipleSteps: Option<bool>,
    proposals: seq<Text>,
    created: Option<seq<CreatedTodo>>,
    revision: int,
    definition: int
  )

  datatype Command =
    | AnswerMultipleSteps(answer: bool)
    | SubmitTasks(titles: seq<Text>)
    | Confirm
    | Cancel

  datatype Decision = Decision(
    state: WorkflowState,
    multipleSteps: Option<bool>,
    proposals: seq<Text>,
    toCreate: seq<Text>
  )

  datatype DomainError = InvalidAction | TerminalWorkflow | InvalidInput | UnsupportedDefinition

  const MAX_WORKFLOW_REVISION := 2147483647
  const CURRENT_DEFINITION := 1

  /** The snapshot a workflow is created with. */
  function StartOf(id: Uuid, title: Text): Snapshot {
    Snapshot(id, AssessTask, title, None, [], None, 0, CURRENT_DEFINITION)
  }
  const MIN_BREAKDOWN_TITLES := 2
  const MAX_BREAKDOWN_TITLES := 10

  function InitialSnapshot(id: Uuid, title: Text): Result<Snapshot, DomainError> {
    match CanonicalizeTitle(title)
    case Err(_) => Err(InvalidInput)
    case Ok(canonical) => Ok(StartOf(id, canonical))
  }

  // ------------------------------------------------------- submitted titles

  /** Every title canonicalized in order, or nothing when one of them is refused. */
  function CanonicalTitles(titles: seq<Text>): (r: Option<seq<Text>>)
    ensures r.Some? ==> |r.value| == |titles|
  {
    if titles == [] then Some([])
    else
      var last := |titles| - 1;
      match (CanonicalTitles(titles[..last]), CanonicalizeTitle(titles[last]))
      case (Some(init), Ok(t)) => Some(init + [t])
      case _ => None
  }

  function SubmittedTitles(titles: seq<Text>): Result<seq<Text>, DomainError> {
    match CanonicalTitles(titles)
    case None => Err(InvalidInput)
    case Some(canonical) =>
      if MIN_BREAKDOWN_TITLES <= |canonical| <= MAX_BREAKDOWN_TITLES then Ok(canonical) else Err(InvalidInput)
  }

  method CreateSubmitTasks(titles: seq<Text>) returns (r: Result<seq<Text>, DomainError>)
    ensures r == SubmittedTitles(titles)
  {
    hide CanonicalizeTitle, CanonicalTitles;
    var canonical: seq<Text> := [];
    NoTitles();
    for i := 0 to |titles|
      invariant CanonicalTitles(titles[..i]) == Some(canonical)
    {
      assert titles[..i + 1][..i] == titles[..i];
      TitlesUnfold(titles[..i + 1]);
      var next := CanonicalizeTitle(titles[i]);
      if next.Err? {
        RefusedPrefix(titles, i + 1);
        return Err(InvalidInput);
      }
      canonical := canonical + [next.value];
    }
    assert titles[..|titles|] == titles;
    if !(MIN_BREAKDOWN_TITLES <= |canonical| <= MAX_BREAKDOWN_TITLES) { return Err(InvalidInput); }
    return Ok(canonical);
  }

  lemma {:induction false} RefusedPrefix(titles: seq<Text>, n: nat)
    requires n <= |titles| && CanonicalTitles(titles[..n]).None?
    ensures CanonicalTitles(titles).None?
    decreases |titles| - n
  {
    if n < |titles| {
      assert titles[..n + 1][..n] == titles[..n];
      RefusedPrefix(titles, n + 1);
    } else {
      assert titles[..n] == titles;
    }
  }

  ghost predicate AllCanonical(titles: seq<Text>) {
    forall t :: t in titles ==> CanonicalTitle(t)
  }

  /** The titles a SubmitTasks command may carry: what create_submit_tasks returns. */
  ghost predicate Submittable(titles: seq<Text>) {
    AllCanonical(titles) && MIN_BREAKDOWN_TITLES <= |titles| <= MAX_BREAKDOWN_TITLES
  }

  lemma {:induction false} CanonicalTitlesFixed(titles: seq<Text>)
    ensures CanonicalTitles(titles) == Some(titles) <==> AllCanonical(titles)
    ensures CanonicalTitles(titles).Some? ==> AllCanonical(CanonicalTitles(titles).value)
  {
    hide CanonicalizeTitle, CanonicalTitle, CanonicalTitles, AllCanonical;
    if titles == [] {
      NoTitles();
    } else {
      var init, last := titles[..|titles| - 1], titles[|titles| - 1];
      assert titles == init + [last];
      CanonicalTitlesFixed(init);
      CanonicalTitleFixed(last);
      TitlesUnfold(titles);
      AllCanonicalAppend(init, last);
      if CanonicalTitles(init).Some? && CanonicalizeTitle(last).Ok? {
        var a, t := CanonicalTitles(init).value, CanonicalizeTitle(last).value;
        AllCanonicalAppend(a, t);
        assert a + [t] == init + [last] ==> a == init && t == last by {
          assert (a + [t])[..|init|] == a && (init + [last])[..|init|] == init;
          assert (a + [t])[|init|] == t;
        }
      }
    }
  }

  lemma NoTitles()
    ensures CanonicalTitles([]) == Some([]) && AllCanonical([])
  {
  }

  lemma TitlesUnfold(titles: seq<Text>)
    requires titles != []
    ensures
      var init, last := CanonicalTitles(titles[..|titles| - 1]), CanonicalizeTitle(titles[|titles| - 1]);
      CanonicalTitles(titles) == if init.Some? && last.Ok? then Some(init.value + [last.value]) else None
  {
    hide CanonicalizeTitle;
  }

  lemma AllCanonicalAppend(titles: seq<Text>, t: Text)
    ensures AllCanonical(titles + [t]) <==> AllCanonical(titles) && CanonicalTitle(t)
  {
    hide CanonicalTitle;
    assert (titles + [t])[|titles|] == t;
    assert forall u :: u in titles ==> u in titles + [t];
  }

  lemma CanonicalTitleFixed(title: Text)
    ensures CanonicalizeTitle(title) == Ok(title) <==> CanonicalTitle(title)
    ensures CanonicalizeTitle(title).Ok? ==> CanonicalTitle(CanonicalizeTitle(title).value)
  {
    CanonicalIsSettled(title, MAX_TITLE_CODE_POINTS);
    hide CanonicalizeWithin, Settled;
  }

  /** create_submit_tasks lands on, and leaves alone, exactly the submittable lists. */
  lemma SubmittedTitlesFixed(titles: seq<Text>)
    ensures SubmittedTitles(titles) == Ok(titles) <==> Submittable(titles)
    ensures SubmittedTitles(titles).Ok? ==> Submittable(SubmittedTitles(titles).value)
  {
    CanonicalTitlesFixed(titles);
  }

  /** The whole rule: two to ten titles, each of which can be made canonical, and then exactly those. */
  lemma {:induction false} SubmittedDecides(titles: seq<Text>)
    ensures
      var all := forall k :: 0 <= k < |titles| ==> CanonicalizeTitle(titles[k]).Ok?;
      match SubmittedTitles(titles)
      case Err(error) => error == InvalidInput && (!all || |titles| < 2 || |titles| > 10)
      case Ok(canonical) =>
        && all && 2 <= |titles| <= 10 && |canonical| == |titles|
        && forall k :: 0 <= k < |titles| ==> CanonicalizeTitle(titles[k]) == Ok(canonical[k])
  {
    hide CanonicalizeTitle, CanonicalTitles;
    CanonicalPointwise(titles);
  }

  lemma {:induction false} CanonicalPointwise(titles: seq<Text>)
    ensures
      match CanonicalTitles(titles)
      case None => exists k :: 0 <= k < |titles| && CanonicalizeTitle(titles[k]).Err?
      case Some(canonical) =>
        && |canonical| == |titles|
        && forall k :: 0 <= k < |titles| ==> CanonicalizeTitle(titles[k]) == Ok(canonical[k])
  {
    hide CanonicalizeTitle;
    if titles != [] {
      var last := |titles| - 1;
      CanonicalPointwise(titles[..last]);
      assert forall k :: 0 <= k < last ==> titles[..last][k] == titles[k];
    }
  }

  ghost predicate WellFormedCommand(command: Command) {
    command.SubmitTasks? ==> Submittable(command.titles)
  }

  // ------------------------------------------------------------- transitions

  predicate Terminal(state: WorkflowState) { state.Completed? || state.Cancelled? }

  function Transition(s: Snapshot, command: Command): Result<Decision, DomainError> {
    if s.definition != CURRENT_DEFINITION then Err(UnsupportedDefinition)
    else if Terminal(s.state) then Err(TerminalWorkflow)
    else if command.Cancel? then Ok(Decision(Cancelled, s.multipleSteps, s.proposals, []))
    else match s.state
      case AssessTask =>
        if command.AnswerMultipleSteps? then
          if command.answer then Ok(Decision(OfferBreakdown, Some(true), [], []))
          else Ok(Decision(Review, Some(false), [s.title], []))
        else Err(InvalidAction)
      case OfferBreakdown =>
        if command.AnswerMultipleSteps? then
          if command.answer then Ok(Decision(CollectTasks, s.multipleSteps, [], []))
          else Ok(Decision(Review, s.multipleSteps, [s.title], []))
        else Err(InvalidAction)
      case CollectTasks =>
        if command.SubmitTasks? then Ok(Decision(Review, s.multipleSteps, command.titles, []))
        else Err(InvalidAction)
      case Review =>
        if command.Confirm? then Ok(Decision(Completed, s.multipleSteps, s.proposals, s.proposals))
        else Err(InvalidAction)
      case _ => Err(TerminalWorkflow)
  }

  /** The todos the service creates for a decision: one incomplete todo per title, in order. */
  function Todos(titles: seq<Text>, ids: seq<Uuid>): seq<CreatedTodo>
    requires |titles| == |ids|
  {
    seq(|titles|, i requires 0 <= i < |titles| => CreatedTodo(ids[i], titles[i], false))
  }

  /** The snapshot after an accepted decision. */
  function Advanced(s: Snapshot, d: Decision, ids: seq<Uuid>): Snapshot
    requires |ids| == |d.toCreate|
  {
    s.(state := d.state,
       multipleSteps := d.multipleSteps,
       proposals := d.proposals,
       created := if d.toCreate == [] then None else Some(Todos(d.toCreate, ids)),
       revision := s.revision + 1)
  }

  /** One accepted action: its command and the identifiers of the todos it creates. */
  datatype Move = Move(command: Command, ids: seq<Uuid>)

  ghost predicate Distinct<T>(s: seq<T>) {
    forall i, j :: 0 <= i < j < |s| ==> s[i] != s[j]
  }

  ghost predicate Follows(s: Snapshot, m: Move, t: Snapshot) {
    && WellFormedCommand(m.command)
    && Distinct(m.ids)
    && Transition(s, m.command).Ok?
    && var d := Transition(s, m.command).value;
    && |m.ids| == |d.toCreate|
    && t == Advanced(s, d, m.ids)
  }

  /** `t` is where the workflow `id`, started with `title`, stands after `moves`. */
  ghost predicate Reaches(id: Uuid, title: Text, moves: seq<Move>, t: Snapshot)
    decreases |moves|
  {
    if moves == [] then InitialSnapshot(id, title) == Ok(t)
    else
      var init, last := moves[..|moves| - 1], moves[|moves| - 1];
      exists s :: Reaches(id, title, init, s) && Follows(s, last, t)
  }

  ghost predicate Reachable(t: Snapshot) {
    exists title, moves :: Reaches(t.id, title, moves, t)
  }

  /** Longest number of actions that can still be accepted. */
  function Rank(state: WorkflowState): nat {
    match state
    case AssessTask => 4
    case OfferBreakdown => 3
    case CollectTasks => 2
    case Review => 1
    case Completed => 0
    case Cancelled => 0
  }

  /** Every accepted action uses up rank, so no workflow accepts more than four. */
  lemma RankDrops(s: Snapshot, command: Command)
    requires Transition(s, command).Ok?
    ensures Rank(Transition(s, command).value.state) < Rank(s.state)
  {
  }

  /** What holds of a workflow in every state it can reach. */
  ghost predicate Coherent(s: Snapshot) {
    && s.definition == CURRENT_DEFINITION
    && 0 <= s.revision && s.revision + Rank(s.state) <= 4
    && CanonicalTitle(s.title)
    && AllCanonical(s.proposals)
    && (s.created.Some? <==> s.state.Completed?)
    && (match s.state
        case AssessTask => s.multipleSteps == None && s.proposals == [] && s.revision == 0
        case OfferBreakdown => s.multipleSteps == Some(true) && s.proposals == [] && s.revision == 1
        case CollectTasks => s.multipleSteps == Some(true) && s.proposals == [] && s.revision == 2
        case Review => Proposed(s)
        case Completed =>
          && Proposed(s)
          && |s.created.value| == |s.proposals|
          && (forall i :: 0 <= i < |s.proposals| ==>
                s.created.value[i].title == s.proposals[i] && !s.created.value[i].completed)
          && Distinct(TodoIds(s.created.value))
        case Cancelled => Proposed(s) || Unproposed(s))
  }

  ghost predicate Proposed(s: Snapshot) {
    || (s.multipleSteps == Some(false) && s.proposals == [s.title])
    || (s.multipleSteps == Some(true) && (s.proposals == [s.title] || Submittable(s.proposals)))
  }

  ghost predicate Unproposed(s: Snapshot) {
    s.multipleSteps != Some(false) && s.proposals == []
  }

  function TodoIds(todos: seq<CreatedTodo>): (ids: seq<Uuid>)
    ensures |ids| == |todos|
  {
    seq(|todos|, i requires 0 <= i < |todos| => todos[i].id)
  }

  lemma InitialIsCoherent(id: Uuid, title: Text)
    requires InitialSnapshot(id, title).Ok?
    ensures Coherent(InitialSnapshot(id, title).value)
  {
    CanonicalIsSettled(title, MAX_TITLE_CODE_POINTS);
  }

  lemma FollowsKeepsCoherent(s: Snapshot, m: Move, t: Snapshot)
    requires Coherent(s) && Follows(s, m, t)
    ensures Coherent(t) && t.id == s.id && t.title == s.title
  {
    var d := Transition(s, m.command).value;
    RankDrops(s, m.command);
    if t.state.Completed? {
      assert TodoIds(t.created.value) == m.ids;
    }
  }

  lemma {:induction false} ReachableIsCoherent(id: Uuid, title: Text, moves: seq<Move>, t: Snapshot)
    requires Reaches(id, title, moves, t)
    ensures Coherent(t) && t.id == id && t.revision == |moves| <= 4
    decreases |moves|
  {
    if moves == [] {
      InitialIsCoherent(id, title);
    } else {
      var init := moves[..|moves| - 1];
      var s :| Reaches(id, title, init, s) && Follows(s, moves[|moves| - 1], t);
      ReachableIsCoherent(id, title, init, s);
      FollowsKeepsCoherent(s, moves[|moves| - 1], t);
    }
  }
}
