/**
 * The analytics outbox and its export runs. A run selects a batch, loads it into the
 * warehouse, marks it exported and prunes old rows, in separate transactions; runs may
 * overlap, crash anywhere, or have a load fail before or after it took effect.
 */
module AnalyticsExport {
  import opened Prelude

  const BATCH_LIMIT: nat := 5000

  /** 30 days, in seconds. */
  const PRUNE_AFTER: int := 2592000

  /** Event ids and, once exported, when. */
  type Outbox = map<nat, Option<int>>

  function Pending(outbox: Outbox): set<nat> {
    set id | id in outbox && outbox[id].None?
  }

  lemma LeastExists(s: set<nat>) returns (m: nat)
    requires s != {}
    ensures m in s && forall y :: y in s ==> m <= y
  {
    m :| m in s;
    if s != {m} {
      var n := LeastExists(s - {m});
      assert forall y :: y in s ==> y == m || y in s - {m};
      if n < m { m := n; }
    }
  }

  function Least(s: set<nat>): (m: nat)
    requires s != {}
    ensures m in s && forall y :: y in s ==> m <= y
  {
    LeastOf(s);
    var m :| m in s && forall y :: y in s ==> m <= y;
    m
  }

  lemma LeastOf(s: set<nat>)
    requires s != {}
    ensures exists m :: m in s && forall y :: y in s ==> m <= y
  {
    var m := LeastExists(s);
  }

  /** The `limit` smallest members. */
  function First(s: set<nat>, limit: nat): (batch: set<nat>)
    ensures batch <= s && |batch| == (if |s| <= limit then |s| else limit)
    ensures forall x, y :: x in batch && y in s - batch ==> x < y
    decreases limit
  {
    if limit == 0 || s == {} then {}
    else
      var m := Least(s);
      assert |s - {m}| == |s| - 1;
      var rest := First(s - {m}, limit - 1);
      assert forall y :: y in s - ({m} + rest) ==> y != m && y in s - {m} - rest;
      {m} + rest
  }

  function Batch(outbox: Outbox): set<nat> {
    First(Pending(outbox), BATCH_LIMIT)
  }

  function Mark(outbox: Outbox, batch: set<nat>, now: int): Outbox {
    map id | id in outbox :: if id in batch then Some(now) else outbox[id]
  }

  predicate Old(exported: Option<int>, now: int) {
    exported.Some? && exported.value < now - PRUNE_AFTER
  }

  function Prune(outbox: Outbox, now: int): Outbox {
    map id | id in outbox && !Old(outbox[id], now) :: outbox[id]
  }

  // ------------------------------------------------------------------ overlapping runs

  /**
   * Where a run stands: its batch is selected and not yet loaded, loaded and not yet
   * marked, or only pruning is left.
   */
  datatype Phase = Loading(batch: set<nat>) | Marking(batch: set<nat>) | Pruning

  /**
   * The outbox, the runs in progress, load jobs whose run has given up on them, and how
   * often each event was loaded. `recorded` and `pruned` are the history.
   */
  datatype System = System(
    outbox: Outbox,
    runs: map<nat, Phase>,
    jobs: seq<set<nat>>,
    loads: multiset<nat>,
    recorded: set<nat>,
    pruned: set<nat>
  )

  const Empty := System(map[], map[], [], multiset{}, {}, {})

  datatype Step =
    | RecordEvent(id: nat)
    | Begin(run: nat)
    | LoadDone(run: nat)
    | LoadFails(run: nat)
    | LoadTimesOut(run: nat)
    | JobFinishes(job: nat)
    | MarkExported(run: nat, now: int)
    | PruneOld(run: nat, now: int)
    | Crash(run: nat)

  function Load(s: System, batch: set<nat>): multiset<nat> {
    s.loads + multiset(batch)
  }

  function Next(s: System, step: Step): System {
    match step
    case RecordEvent(id) =>
      if id in s.recorded then s
      else s.(outbox := s.outbox[id := None], recorded := s.recorded + {id})
    case Begin(run) =>
      if run in s.runs then s
      else
        var batch := Batch(s.outbox);
        s.(runs := s.runs[run := if batch == {} then Pruning else Loading(batch)])
    case LoadDone(run) =>
      if run !in s.runs || !s.runs[run].Loading? then s
      else s.(runs := s.runs[run := Marking(s.runs[run].batch)], loads := Load(s, s.runs[run].batch))
    case LoadFails(run) =>
      if run !in s.runs || !s.runs[run].Loading? then s else s.(runs := s.runs - {run})
    case LoadTimesOut(run) =>
      if run !in s.runs || !s.runs[run].Loading? then s
      else s.(runs := s.runs - {run}, jobs := s.jobs + [s.runs[run].batch])
    case JobFinishes(job) =>
      if job >= |s.jobs| then s
      else s.(jobs := s.jobs[..job] + s.jobs[job + 1..], loads := Load(s, s.jobs[job]))
    case MarkExported(run, now) =>
      if run !in s.runs || !s.runs[run].Marking? then s
      else s.(runs := s.runs[run := Pruning], outbox := Mark(s.outbox, s.runs[run].batch, now))
    case PruneOld(run, now) =>
      if run !in s.runs || !s.runs[run].Pruning? then s
      else
        var kept := Prune(s.outbox, now);
        s.(runs := s.runs - {run}, outbox := kept, pruned := s.pruned + (s.outbox.Keys - kept.Keys))
    case Crash(run) => s.(runs := s.runs - {run})
  }

  function Run(start: System, steps: seq<Step>): System {
    if steps == [] then start else Next(Run(start, steps[..|steps| - 1]), steps[|steps| - 1])
  }

  /** Nothing recorded has left the outbox, or been called exported, without being loaded. */
  ghost predicate Safe(s: System) {
    && s.recorded == s.outbox.Keys + s.pruned
    && (forall id :: id in s.outbox && s.outbox[id].Some? ==> id in s.loads)
    && (forall id :: id in s.pruned ==> id in s.loads)
    && (forall run :: run in s.runs && s.runs[run].Marking? ==> forall id :: id in s.runs[run].batch ==> id in s.loads)
  }

  lemma StepIsSafe(s: System, step: Step)
    requires Safe(s)
    ensures Safe(Next(s, step))
  {
    hide Safe, Batch, Mark, Prune, Load;
    match step {
      case MarkExported(run, now) =>
        if run in s.runs && s.runs[run].Marking? { MarkIsSafe(s, run, now); }
      case PruneOld(run, now) => PruneIsSafe(s, run, now);
      case LoadDone(run) =>
        if run in s.runs && s.runs[run].Loading? {
          var batch := s.runs[run].batch;
          LoadIsSafe(s, batch, s.runs[run := Marking(batch)], s.jobs);
        }
      case JobFinishes(job) =>
        if job < |s.jobs| { LoadIsSafe(s, s.jobs[job], s.runs, s.jobs[..job] + s.jobs[job + 1..]); }
      case RecordEvent(id) =>
        if id !in s.recorded { RecordIsSafe(s, id); }
      case Begin(run) =>
        RunsMove(s, s.runs[run := if Batch(s.outbox) == {} then Pruning else Loading(Batch(s.outbox))], s.jobs);
      case LoadFails(run) => RunsMove(s, s.runs - {run}, s.jobs);
      case LoadTimesOut(run) =>
        if run in s.runs && s.runs[run].Loading? { RunsMove(s, s.runs - {run}, s.jobs + [s.runs[run].batch]); }
      case Crash(run) => RunsMove(s, s.runs - {run}, s.jobs);
    }
  }

  lemma RecordIsSafe(s: System, id: nat)
    requires Safe(s) && id !in s.recorded
    ensures Safe(s.(outbox := s.outbox[id := None], recorded := s.recorded + {id}))
  {
    assert s.outbox[id := None].Keys == s.outbox.Keys + {id};
  }

  /** Runs and jobs may come and go, as long as no run is newly about to mark. */
  lemma RunsMove(s: System, runs: map<nat, Phase>, jobs: seq<set<nat>>)
    requires Safe(s)
    requires forall run :: run in runs && runs[run].Marking? ==> run in s.runs && s.runs[run] == runs[run]
    ensures Safe(s.(runs := runs, jobs := jobs))
  {
  }

  /** Once a batch is loaded, a run may be about to mark it. */
  lemma LoadIsSafe(s: System, batch: set<nat>, runs: map<nat, Phase>, jobs: seq<set<nat>>)
    requires Safe(s)
    requires forall run :: run in runs && runs[run].Marking? ==>
        runs[run] == Marking(batch) || (run in s.runs && s.runs[run] == runs[run])
    ensures Safe(s.(runs := runs, jobs := jobs, loads := Load(s, batch)))
  {
    assert forall id :: id in s.loads || id in batch ==> id in Load(s, batch);
  }

  lemma MarkIsSafe(s: System, run: nat, now: int)
    requires Safe(s) && run in s.runs && s.runs[run].Marking?
    ensures Safe(s.(runs := s.runs[run := Pruning], outbox := Mark(s.outbox, s.runs[run].batch, now)))
  {
    assert Mark(s.outbox, s.runs[run].batch, now).Keys == s.outbox.Keys;
  }

  lemma PruneIsSafe(s: System, run: nat, now: int)
    requires Safe(s)
    ensures var kept := Prune(s.outbox, now);
            Safe(s.(runs := s.runs - {run}, outbox := kept, pruned := s.pruned + (s.outbox.Keys - kept.Keys)))
  {
    var kept := Prune(s.outbox, now);
    assert kept.Keys + (s.outbox.Keys - kept.Keys) == s.outbox.Keys;
  }

  /**
   * No event is lost, whatever runs overlap, crash, fail to load or load late: every
   * recorded event is still waiting in the outbox or was loaded, and exported and pruned
   * events always were.
   */
  lemma {:induction false} NoEventIsLost(steps: seq<Step>)
    ensures var s := Run(Empty, steps);
            && Safe(s)
            && forall id :: id in s.recorded ==> id in Pending(s.outbox) || id in s.loads
  {
    hide Next;
    if steps != [] {
      NoEventIsLost(steps[..|steps| - 1]);
      StepIsSafe(Run(Empty, steps[..|steps| - 1]), steps[|steps| - 1]);
    }
    var s := Run(Empty, steps);
    assert forall id :: id in s.recorded && id !in s.pruned ==> id in s.outbox.Keys;
  }

  // ---------------------------------------------------------------- one run on its own

  /** A run that meets no failure and no other activity, in the same steps. */
  function Alone(s: System, run: nat, marked: int, pruned: int): System {
    var steps := [Begin(run), LoadDone(run), MarkExported(run, marked), PruneOld(run, pruned)];
    Next(Next(Next(Next(s, steps[0]), steps[1]), steps[2]), steps[3])
  }

  function Shrunk(n: nat, taken: nat): nat { if n <= taken then 0 else n - taken }

  lemma MarkLeaves(outbox: Outbox, batch: set<nat>, now: int)
    ensures Pending(Mark(outbox, batch, now)) == Pending(outbox) - batch
    ensures Mark(outbox, batch, now).Keys == outbox.Keys
  {
  }

  lemma PruneLeaves(outbox: Outbox, now: int)
    ensures Pending(Prune(outbox, now)) == Pending(outbox)
  {
  }

  /** It takes the 5000 oldest waiting events, or all of them, loads each once, and leaves the rest waiting. */
  lemma AloneTakesABatch(s: System, run: nat, marked: int, pruned: int)
    requires run !in s.runs
    ensures var t := Alone(s, run, marked, pruned);
            && Pending(t.outbox) == Pending(s.outbox) - Batch(s.outbox)
            && |Pending(t.outbox)| == Shrunk(|Pending(s.outbox)|, 5000)
            && t.loads == s.loads + multiset(Batch(s.outbox))
            && t.runs == s.runs && t.jobs == s.jobs
  {
    var batch := Batch(s.outbox);
    hide First, Batch, Prune, Mark, Pending;
    BatchSize(s.outbox);
    if batch == {} {
      PruneLeaves(s.outbox, pruned);
      assert multiset(batch) == multiset{};
      assert Pending(s.outbox) - batch == Pending(s.outbox);
    } else {
      var outbox := Mark(s.outbox, batch, marked);
      MarkLeaves(s.outbox, batch, marked);
      PruneLeaves(outbox, pruned);
    }
    assert (s.runs[run := Pruning] - {run}) == s.runs;
    assert |Pending(s.outbox) - batch| == |Pending(s.outbox)| - |batch|;
  }

  lemma BatchSize(outbox: Outbox)
    ensures Batch(outbox) <= Pending(outbox)
    ensures |Batch(outbox)| == if |Pending(outbox)| <= BATCH_LIMIT then |Pending(outbox)| else BATCH_LIMIT
  {
  }

  /** Runs one after another, `clock` giving each its two times. */
  function InTurn(s: System, runs: nat, clock: nat -> (int, int)): System
    decreases runs
  {
    if runs == 0 then s
    else
      var t := InTurn(s, runs - 1, clock);
      Alone(t, 0, clock(runs).0, clock(runs).1)
  }

  /** `runs` successful runs leave exactly max(0, n - 5000 * runs) of `n` waiting events. */
  lemma {:induction false} RunsDrain(s: System, runs: nat, clock: nat -> (int, int))
    requires 0 !in s.runs
    ensures var t := InTurn(s, runs, clock);
            t.runs == s.runs && |Pending(t.outbox)| == Shrunk(|Pending(s.outbox)|, BATCH_LIMIT * runs)
  {
    hide Alone;
    if runs > 0 {
      RunsDrain(s, runs - 1, clock);
      AloneTakesABatch(InTurn(s, runs - 1, clock), 0, clock(runs).0, clock(runs).1);
    }
  }

  /** So `n` waiting events are gone after ceil(n / 5000) successful runs and not after fewer. */
  lemma DrainedExactly(s: System, runs: nat, clock: nat -> (int, int))
    requires 0 !in s.runs
    ensures Pending(InTurn(s, runs, clock).outbox) == {} <==>
        runs >= (|Pending(s.outbox)| + 4999) / 5000
  {
    RunsDrain(s, runs, clock);
    var left := Pending(InTurn(s, runs, clock).outbox);
    assert left == {} <==> |left| == 0;
  }

  /** At least once, not exactly once: a crash after the load and before the mark loads the batch again. */
  lemma CrashLoadsTwice()
    ensures var s := Run(Empty, [RecordEvent(7), Begin(0), LoadDone(0), Crash(0), Begin(1), LoadDone(1)]);
            s.loads[7] == 2
  {
    hide *;
    var first, second := [RecordEvent(7), Begin(0), LoadDone(0), Crash(0)], [Begin(1), LoadDone(1)];
    FourSteps(first[0], first[1], first[2], first[3]);
    LoadsAgain(second[0], second[1]);
    RunOneMore(first, second[0]);
    RunOneMore(first + [second[0]], second[1]);
    assert first + [second[0]] + [second[1]]
        == [RecordEvent(7), Begin(0), LoadDone(0), Crash(0), Begin(1), LoadDone(1)];
  }

  lemma LoadsAgain(a: Step, b: Step)
    requires a == Begin(1) && b == LoadDone(1)
    ensures Next(Next(LoadedThenCrashed(7), a), b).loads[7] == 2
  {
    hide Batch;
    assert Pending(map[7 := None]) == {7};
    OnlyOne(map[7 := None], 7);
  }

  function LoadedThenCrashed(id: nat): System {
    System(map[id := None], map[], [], multiset{id}, {id}, {})
  }

  lemma FourSteps(a: Step, b: Step, c: Step, d: Step)
    requires a == RecordEvent(7) && b == Begin(0) && c == LoadDone(0) && d == Crash(0)
    ensures Run(Empty, [a, b, c, d]) == LoadedThenCrashed(7)
  {
    hide *;
    CrashAfterLoad(a, b, c, d);
    RunNothing();
    RunOneMore([], a);
    RunOneMore([a], b);
    RunOneMore([a, b], c);
    RunOneMore([a, b, c], d);
    assert [] + [a] == [a] && [a] + [b] == [a, b] && [a, b] + [c] == [a, b, c] && [a, b, c] + [d] == [a, b, c, d];
  }

  lemma CrashAfterLoad(a: Step, b: Step, c: Step, d: Step)
    requires a == RecordEvent(7) && b == Begin(0) && c == LoadDone(0) && d == Crash(0)
    ensures Next(Next(Next(Next(Empty, a), b), c), d) == LoadedThenCrashed(7)
  {
    hide Batch;
    assert Pending(map[7 := None]) == {7};
    OnlyOne(map[7 := None], 7);
    assert map[0 := Marking({7})] - {0} == map[];
  }

  lemma RunNothing()
    ensures Run(Empty, []) == Empty
  {
  }

  lemma RunOneMore(steps: seq<Step>, step: Step)
    ensures Run(Empty, steps + [step]) == Next(Run(Empty, steps), step)
  {
    hide Next;
    assert (steps + [step])[..|steps|] == steps;
  }

  lemma OnlyOne(outbox: Outbox, id: nat)
    requires Pending(outbox) == {id}
    ensures Batch(outbox) == {id}
  {
    BatchSize(outbox);
    var batch := Batch(outbox);
    assert {id} == batch + ({id} - batch) && |{id}| == |batch| + |{id} - batch|;
  }

  // ---------------------------------------------------------- the export, in place

  datatype ExportResult = ExportResult(selected: nat, loaded: nat, pruned: nat)

  class Warehouse {
    var outbox: Outbox
    var loads: multiset<nat>

    constructor (outbox: Outbox)
      ensures this.outbox == outbox && loads == multiset{}
    {
      this.outbox, loads := outbox, multiset{};
    }

    /**
     * One export run. When the load raises, nothing is marked or pruned and the batch is
     * still waiting; `took` says whether the failed load had taken effect all the same.
     */
    method ExportEvents(loadSucceeds: bool, took: bool, marked: int, pruned: int) returns (result: Option<ExportResult>)
      modifies this
      ensures result.None? <==> !loadSucceeds && Batch(old(outbox)) != {}
      ensures result.None? ==> outbox == old(outbox)
      ensures result.Some? ==> Pending(outbox) == Pending(old(outbox)) - Batch(old(outbox))
      ensures result.Some? ==> forall id :: id in old(outbox) ==>
                var exported := if id in Batch(old(outbox)) then Some(marked) else old(outbox)[id];
                if exported.Some? && exported.value < pruned - 30 * 24 * 3600 then id !in outbox
                else id in outbox && outbox[id] == exported
      ensures outbox.Keys <= old(outbox).Keys
      ensures result.Some? ==> result.value.selected == result.value.loaded == |Batch(old(outbox))|
      ensures result.Some? ==> result.value.pruned == |old(outbox).Keys| - |outbox.Keys|
      ensures loads == old(loads) + if result.Some? || took then multiset(Batch(old(outbox))) else multiset{}
    {
      hide First;
      var batch := Batch(outbox);
      var loaded := 0;
      if batch != {} {
        if loadSucceeds || took { loads := loads + multiset(batch); }
        if !loadSucceeds { return None; }
        MarkLeaves(outbox, batch, marked);
        outbox := Mark(outbox, batch, marked);
        loaded := |batch|;
      }
      PruneLeaves(outbox, pruned);
      PruneShrinks(outbox, pruned);
      var before := |outbox.Keys|;
      outbox := Prune(outbox, pruned);
      assert multiset(batch) == multiset{} || batch != {};
      result := Some(ExportResult(|batch|, loaded, before - |outbox.Keys|));
    }
  }

  lemma PruneShrinks(outbox: Outbox, now: int)
    ensures |Prune(outbox, now).Keys| <= |outbox.Keys|
  {
    Subset(Prune(outbox, now).Keys, outbox.Keys);
  }

  lemma Subset(a: set<nat>, b: set<nat>)
    requires a <= b
    ensures |a| <= |b|
  {
    assert b == a + (b - a) && |b| == |a| + |b - a|;
  }
}
