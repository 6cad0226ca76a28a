/**
 * One client, the network and the server together: records go out through the
 * write-ahead slot, copies of what was sent reach the server late, repeatedly or never,
 * and the server serves everybody else in between.
 */
module EndToEnd {
  import opened Prelude
  import opened Titles
  import opened WorkflowDomain
  import opened Tables
  import Client = PendingWrite
  import Runs
  import Service = WorkflowService
  import Suggestions = SuggestionService
  import Invariant = SuggestionInvariant
  import Theorems = SuggestionTheorems

  /**
   * The server receives this record: its body unchanged, whatever identifiers the server
   * then mints, whatever its clock says and however it runs suggestions.
   */
  ghost predicate Receives(step: Runs.Step, record: Client.Record) {
    match record.write
    case StartWrite(title) =>
      step.Start? && step.owner == record.owner && step.request == record.request && step.title == title
    case AdvanceWrite(workflow, revision, stepId, command) =>
      && step.Advance? && step.owner == record.owner && step.request == record.request
      && step.workflow == workflow && step.revision == revision && step.step == stepId && step.command == command
      && WellFormedCommand(command)
    case SuggestWrite(workflow, revision, stepId, clarification) =>
      && step.ReserveSuggestion? && step.owner == record.owner && step.request == record.request
      && step.workflow == workflow && step.revision == revision && step.step == stepId
      && step.clarification == clarification
  }

  /** What the client is told of a start or an advance. */
  ghost function Reply(db: Db, step: Runs.Step): Service.Reply {
    match step
    case Start(owner, title, request, id) => Service.StartWorkflow(db, owner, title, request, id).1
    case Advance(owner, workflow, command, request, revision, stepId, minted) =>
      Service.AdvanceWorkflow(db, owner, workflow, command, request, revision, stepId, minted).1
    case _ => Service.NotFound
  }

  // ------------------------------------------------------------------ one record, sent again

  lemma ResentStartIsAbsorbed(steps: seq<Runs.Step>, first: Runs.Step, more: seq<Runs.Step>, again: Runs.Step,
                              record: Client.Record)
    requires record.write.StartWrite? && Receives(first, record) && Receives(again, record)
    requires Reply(Runs.Run(Runs.Initial, steps).db, first).Accepted?
    ensures var s := Runs.Run(Runs.Next(Runs.Run(Runs.Initial, steps), first), more);
            && Runs.Next(s, again).db == s.db
            && Reply(s.db, again) == Reply(Runs.Run(Runs.Initial, steps).db, first)
  {
    Runs.InitialInv();
    Runs.RunKeepsInv(Runs.Initial, steps);
    var s := Runs.Run(Runs.Initial, steps);
    hide Runs.Run, Runs.Inv;
    Runs.StepKeepsInv(s, first);
    Runs.RunKeepsInv(Runs.Next(s, first), more);
    hide Service.Extends;
    Service.ResentStart(s.db, Runs.Run(Runs.Next(s, first), more).db, record.owner, record.write.title, record.request,
                        first.id, again.id);
  }

  lemma ResentAdvanceIsAbsorbed(steps: seq<Runs.Step>, first: Runs.Step, more: seq<Runs.Step>, again: Runs.Step,
                                record: Client.Record)
    requires record.write.AdvanceWrite? && Receives(first, record) && Receives(again, record)
    requires Reply(Runs.Run(Runs.Initial, steps).db, first).Accepted?
    ensures var s := Runs.Run(Runs.Next(Runs.Run(Runs.Initial, steps), first), more);
            && Runs.Next(s, again).db == s.db
            && Reply(s.db, again) == Reply(Runs.Run(Runs.Initial, steps).db, first)
  {
    hide Runs.Run, Service.AdvanceWorkflow;
    Runs.AcceptedOnceForAll(steps, first, more, again.minted, Reply(Runs.Run(Runs.Initial, steps).db, first).snapshot);
  }

  /**
   * A persisted start or advance, resent unchanged any number of times with anything in
   * between, is applied once: after the first accepted reply, even a lost one, every
   * repetition leaves the database as it is and gets the identical reply.
   */
  lemma ResendsAreAbsorbed(steps: seq<Runs.Step>, first: Runs.Step, more: seq<Runs.Step>, again: Runs.Step,
                           record: Client.Record)
    requires Receives(first, record) && Receives(again, record)
    requires Reply(Runs.Run(Runs.Initial, steps).db, first).Accepted?
    ensures var s := Runs.Run(Runs.Next(Runs.Run(Runs.Initial, steps), first), more);
            && Runs.Next(s, again).db == s.db
            && Reply(s.db, again) == Reply(Runs.Run(Runs.Initial, steps).db, first)
  {
    hide Runs.Run, Runs.Next;
    if record.write.StartWrite? {
      ResentStartIsAbsorbed(steps, first, more, again, record);
    } else if record.write.AdvanceWrite? {
      ResentAdvanceIsAbsorbed(steps, first, more, again, record);
    }
  }

  /** A reservation that changes anything appends a row that records the request it was made with. */
  lemma ReservedRow(s: Runs.System, step: Runs.Step)
    requires step.ReserveSuggestion? && Runs.Next(s, step).db != s.db
    ensures Reserves(Runs.Next(s, step).db, |s.db.suggestions|, step)
  {
    hide Suggestions.ActiveRefusal, Suggestions.SupersedePending, CanonicalTitle;
    Kept(s.db.suggestions, step.owner, step.workflow);
  }

  lemma Kept(rows: seq<SuggestionRow>, owner: int, id: Uuid)
    ensures |Suggestions.SupersedePending(rows, owner, id)| == |rows|
  {
  }

  /** Row `i` was reserved by this request. */
  ghost predicate Reserves(db: Db, i: nat, step: Runs.Step)
    requires step.ReserveSuggestion?
  {
    && i < |db.suggestions|
    && var row := db.suggestions[i];
    && RequestOf(row, step.owner, step.workflow, step.request)
    && row.baseRevision == step.revision && row.step == step.step
    && Suggestions.NormalizeOptional(step.clarification) == Some(Invariant.Asked(row))
  }

  lemma ReservedForGood(db: Db, later: Db, i: nat, step: Runs.Step)
    requires step.ReserveSuggestion? && Reserves(db, i, step)
    requires Invariant.RowsEvolve(db.suggestions, later.suggestions)
    ensures Reserves(later, i, step)
  {
    hide Suggestions.NormalizeOptional;
    assert Invariant.Evolves(db.suggestions[i], later.suggestions[i]);
  }

  /** A persisted suggestion request reserves at most once, whatever clocks and modes its copies meet. */
  lemma ResentSuggestIsAbsorbed(steps: seq<Runs.Step>, first: Runs.Step, more: seq<Runs.Step>, again: Runs.Step,
                                record: Client.Record)
    requires record.write.SuggestWrite? && Receives(first, record) && Receives(again, record)
    requires Runs.Next(Runs.Run(Runs.Initial, steps), first).db != Runs.Run(Runs.Initial, steps).db
    ensures var s := Runs.Run(Runs.Next(Runs.Run(Runs.Initial, steps), first), more);
            Runs.Next(s, again).db == s.db
  {
    Runs.InitialInv();
    Runs.RunKeepsInv(Runs.Initial, steps);
    var s := Runs.Run(Runs.Initial, steps);
    var t := Runs.Next(s, first);
    var u := Runs.Run(t, more);
    hide Runs.Run, Runs.Inv, Reserves, Invariant.RowsEvolve;
    Runs.StepKeepsInv(s, first);
    Runs.RunKeepsInv(t, more);
    ReservedRow(s, first);
    ReservedForGood(t.db, u.db, |s.db.suggestions|, first);
    ReservedIsReplayed(u, again, |s.db.suggestions|);
  }

  lemma ReservedIsReplayed(s: Runs.System, step: Runs.Step, i: nat)
    requires Runs.Inv(s) && step.ReserveSuggestion? && Reserves(s.db, i, step)
    ensures Runs.Next(s, step).db == s.db
  {
    Runs.WorkflowsAreCoherent(s.db);
    hide Service.WorkflowInv, Invariant.SuggestionInv, Suggestions.Reserve;
    Theorems.ResentReserve(s.db, step.owner, step.workflow, step.request, step.revision, step.step,
                           step.clarification, step.queued, step.now, i);
  }

  /** Once any copy of a record has changed the database, no later copy does, and each gets the same reply. */
  lemma AppliedOnce(steps: seq<Runs.Step>, first: Runs.Step, more: seq<Runs.Step>, again: Runs.Step,
                    record: Client.Record)
    requires Receives(first, record) && Receives(again, record)
    requires Runs.Next(Runs.Run(Runs.Initial, steps), first).db != Runs.Run(Runs.Initial, steps).db
    ensures var s := Runs.Run(Runs.Next(Runs.Run(Runs.Initial, steps), first), more);
            && Runs.Next(s, again).db == s.db
            && Reply(s.db, again) == Reply(Runs.Run(Runs.Initial, steps).db, first)
  {
    hide Runs.Run, Runs.Next, Runs.Inv, Receives, Reply;
    Runs.InitialInv();
    Runs.RunKeepsInv(Runs.Initial, steps);
    if record.write.SuggestWrite? {
      ResentSuggestIsAbsorbed(steps, first, more, again, record);
      NotReplied(Runs.Run(Runs.Initial, steps).db, first, record);
      NotReplied(Runs.Run(Runs.Next(Runs.Run(Runs.Initial, steps), first), more).db, again, record);
    } else {
      ChangingIsAccepted(Runs.Run(Runs.Initial, steps), first, record);
      ResendsAreAbsorbed(steps, first, more, again, record);
    }
  }

  lemma NotReplied(db: Db, step: Runs.Step, record: Client.Record)
    requires record.write.SuggestWrite? && Receives(step, record)
    ensures Reply(db, step) == Service.NotFound
  {
  }

  /** A start or an advance changes the database only when it is accepted. */
  lemma ChangingIsAccepted(s: Runs.System, step: Runs.Step, record: Client.Record)
    requires Runs.Inv(s) && Receives(step, record) && !record.write.SuggestWrite?
    requires Runs.Next(s, step).db != s.db
    ensures Reply(s.db, step).Accepted?
  {
    hide Service.StartWorkflow, Service.AdvanceWorkflow, Service.Opened, Service.Applied, WellFormedCommand;
    match record.write
    case StartWrite(title) =>
      Service.StartCases(s.db, step.owner, step.title, step.request, step.id);
    case AdvanceWrite(_, _, _, _) =>
      var row := Service.AdvanceCases(s.db, step.owner, step.workflow, step.command, step.request, step.revision,
                                      step.step, step.minted);
    case _ =>
  }

  // ---------------------------------------------------------------- client, network and server

  /** A copy of a sent record that reached the server as its `at`-th step. */
  datatype Arrival = Arrival(record: Client.Record, at: nat)

  /** The client's store, all the server has gone through, and which of that came from this client's slot. */
  datatype World = World(client: Client.Store, served: seq<Runs.Step>, arrivals: seq<Arrival>)

  /**
   * `Copy` delivers any record sent so far, again or for the first time; `Elsewhere` is
   * anything else the server does.
   */
  datatype Event = OnClient(done: Client.Step) | Copy(i: nat, step: Runs.Step) | Elsewhere(step: Runs.Step)

  function NewWorld(owner: int, slot: Client.Slot): World {
    World(Client.NewStore(owner, slot), [], [])
  }

  ghost function Next(valid: Client.Validator, w: World, event: Event): World {
    match event
    case OnClient(step) => w.(client := Client.Next(valid, w.client, step))
    case Copy(i, step) =>
      if i < |w.client.sent| && Receives(step, w.client.sent[i]) then
        w.(served := w.served + [step], arrivals := w.arrivals + [Arrival(w.client.sent[i], |w.served|)])
      else w
    case Elsewhere(step) => w.(served := w.served + [step])
  }

  ghost function Run(valid: Client.Validator, start: World, events: seq<Event>): World {
    if events == [] then start else Next(valid, Run(valid, start, events[..|events| - 1]), events[|events| - 1])
  }

  /** The server before its `k`-th step. */
  ghost function ServerAt(served: seq<Runs.Step>, k: nat): Runs.System
    requires k <= |served|
  {
    Runs.Run(Runs.Initial, served[..k])
  }

  /**
   * Every arrival is a server step that receives its record, in the order of the steps, and
   * its bytes were read back.
   */
  ghost predicate Traced(w: World) {
    && (forall k :: 0 <= k < |w.arrivals| ==>
          && w.arrivals[k].at < |w.served| && Receives(w.served[w.arrivals[k].at], w.arrivals[k].record)
          && w.arrivals[k].record in w.client.sent)
    && (forall j, k :: 0 <= j < k < |w.arrivals| ==> w.arrivals[j].at < w.arrivals[k].at)
  }

  lemma StepKeepsTraced(valid: Client.Validator, w: World, event: Event)
    requires Traced(w)
    ensures Traced(Next(valid, w, event))
  {
    hide Receives;
    if event.OnClient? { assert w.client.sent <= Client.Next(valid, w.client, event.done).sent; }
  }

  lemma {:induction false} RunIsTraced(valid: Client.Validator, owner: int, slot: Client.Slot, events: seq<Event>)
    ensures var w := Run(valid, NewWorld(owner, slot), events);
            && Traced(w)
            && exists steps :: w.client == Client.Run(valid, Client.NewStore(owner, slot), steps)
  {
    hide Next, Traced, Client.Next;
    if events == [] {
      assert Client.Run(valid, Client.NewStore(owner, slot), []) == Client.NewStore(owner, slot);
      NothingIsTraced(owner, slot);
    } else {
      var w := Run(valid, NewWorld(owner, slot), events[..|events| - 1]);
      RunIsTraced(valid, owner, slot, events[..|events| - 1]);
      StepKeepsTraced(valid, w, events[|events| - 1]);
      var steps :| w.client == Client.Run(valid, Client.NewStore(owner, slot), steps);
      ClientGoesOn(valid, owner, slot, w, steps, events[|events| - 1]);
    }
  }

  lemma NothingIsTraced(owner: int, slot: Client.Slot)
    ensures Traced(NewWorld(owner, slot))
  {
  }

  lemma ClientGoesOn(valid: Client.Validator, owner: int, slot: Client.Slot, w: World, steps: seq<Client.Step>,
                     event: Event)
    requires w.client == Client.Run(valid, Client.NewStore(owner, slot), steps)
    ensures exists more :: Next(valid, w, event).client == Client.Run(valid, Client.NewStore(owner, slot), more)
  {
    hide Client.Next, Receives;
    if event.OnClient? {
      Client.RunOn(valid, Client.NewStore(owner, slot), steps, event.done);
    }
  }

  /**
   * Whatever reaches the server from the slot had its very bytes read back from storage
   * before: across client crashes, failing storage and a network that duplicates at will.
   */
  lemma ArrivalsWereReadBack(valid: Client.Validator, owner: int, slot: Client.Slot, events: seq<Event>, k: nat)
    requires k < |Run(valid, NewWorld(owner, slot), events).arrivals|
    ensures var w := Run(valid, NewWorld(owner, slot), events);
            var record := w.arrivals[k].record;
            exists i :: 0 <= i < |w.client.confirmed|
                        && w.client.confirmed[i] == (record, Some(Client.Written(record)))
  {
    RunIsTraced(valid, owner, slot, events);
    var w := Run(valid, NewWorld(owner, slot), events);
    hide Run, Receives, Client.Run;
    var steps :| w.client == Client.Run(valid, Client.NewStore(owner, slot), steps);
    var i :| 0 <= i < |w.client.sent| && w.client.sent[i] == w.arrivals[k].record;
    Client.SentOnlyAfterReadBack(valid, owner, slot, steps, i);
  }

  /** The server's `k`-th step changes its tables. */
  ghost predicate Changes(served: seq<Runs.Step>, k: nat) {
    k < |served| && ServerAt(served, k + 1).db != ServerAt(served, k).db
  }

  lemma ServerGoesOn(served: seq<Runs.Step>, j: nat, k: nat)
    requires j < k < |served|
    ensures ServerAt(served, j + 1) == Runs.Next(ServerAt(served, j), served[j])
    ensures ServerAt(served, k) == Runs.Run(Runs.Next(ServerAt(served, j), served[j]), served[j + 1..k])
    ensures ServerAt(served, k + 1) == Runs.Next(ServerAt(served, k), served[k])
  {
    hide Runs.Next;
    assert served[..j + 1][..j] == served[..j] && served[..k + 1][..k] == served[..k];
    assert served[..j + 1] + served[j + 1..k] == served[..k];
    Runs.RunSplits(Runs.Initial, served[..j + 1], served[j + 1..k]);
  }

  /**
   * Of two copies of a record that reach the server, the later one changes nothing if the
   * earlier one did, and the copy of a start or an advance repeats its reply.
   */
  lemma LaterCopiesRepeat(valid: Client.Validator, owner: int, slot: Client.Slot, events: seq<Event>, j: nat, k: nat)
    requires j < k < |Run(valid, NewWorld(owner, slot), events).arrivals|
    requires var w := Run(valid, NewWorld(owner, slot), events);
             w.arrivals[j].record == w.arrivals[k].record && Changes(w.served, w.arrivals[j].at)
    ensures var w := Run(valid, NewWorld(owner, slot), events);
            var a, b := w.arrivals[j].at, w.arrivals[k].at;
            && a < b < |w.served|
            && !Changes(w.served, b)
            && Reply(ServerAt(w.served, b).db, w.served[b]) == Reply(ServerAt(w.served, a).db, w.served[a])
  {
    RunIsTraced(valid, owner, slot, events);
    var w := Run(valid, NewWorld(owner, slot), events);
    hide Run, Receives, Reply, Runs.Run, Runs.Next;
    var a, b := w.arrivals[j].at, w.arrivals[k].at;
    ServerGoesOn(w.served, a, b);
    AppliedOnce(w.served[..a], w.served[a], w.served[a + 1..b], w.served[b], w.arrivals[j].record);
  }

  ghost function Applies(served: seq<Runs.Step>, record: Client.Record): Arrival -> bool {
    (a: Arrival) => a.record == record && Changes(served, a.at)
  }

  lemma {:induction false} AtMostOne<T>(s: seq<T>, p: T -> bool)
    requires forall j, k :: 0 <= j < k < |s| ==> !(p(s[j]) && p(s[k]))
    ensures Count(s, p) <= 1
    ensures Count(s, p) == 1 ==> exists j :: 0 <= j < |s| && p(s[j])
  {
    if s != [] {
      var last := |s| - 1;
      AtMostOne(s[..last], p);
      if Count(s[..last], p) == 1 {
        var j :| 0 <= j < last && p(s[..last][j]);
        assert s[j] == s[..last][j];
      }
    }
  }

  /**
   * End to end: however often the client saves, sends, crashes and sends again, however
   * many copies the network delivers and whatever else the server does in between, each
   * record changes the server's tables at most once.
   */
  lemma AppliedAtMostOnce(valid: Client.Validator, owner: int, slot: Client.Slot, events: seq<Event>,
                          record: Client.Record)
    ensures var w := Run(valid, NewWorld(owner, slot), events);
            Count(w.arrivals, Applies(w.served, record)) <= 1
  {
    var w := Run(valid, NewWorld(owner, slot), events);
    hide Run, Changes;
    forall j, k | 0 <= j < k < |w.arrivals|
      ensures !(Applies(w.served, record)(w.arrivals[j]) && Applies(w.served, record)(w.arrivals[k]))
    {
      if Applies(w.served, record)(w.arrivals[j]) && Applies(w.served, record)(w.arrivals[k]) {
        LaterCopiesRepeat(valid, owner, slot, events, j, k);
      }
    }
    AtMostOne(w.arrivals, Applies(w.served, record));
  }
}
