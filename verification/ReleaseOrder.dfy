/**
 * What the record of a release looks like, spelled out step by step: nothing is deployed
 * before the migration has run, no candidate gets traffic before it was smoked, the worker is
 * through before the API begins, and whatever was created is cleaned up. All of it holds
 * under every schedule of failures.
 */
module ReleaseOrder {
  import opened Prelude
  import opened ReleaseDeploy

  /** The previous revision of the API is serving, both services can be reached, the migration has run. */
  function Migrated(c: Config): seq<Entry> {
    [Entry(CheckServing(c.service, c.previous), true), Entry(StableUrl(c.service), true)]
      + (if c.worker.Some? then
           [Entry(ReadServing(c.worker.value), true), Entry(StableUrl(c.worker.value), true)]
         else [])
      + [Entry(UpdateJob, true), Entry(ExecuteJob, true), Entry(CheckExecution, true)]
  }

  /** A candidate that may get traffic: it runs the image, has none yet, and passed its smoke. */
  function Smoked(s: Service, candidate: Revision, previous: Revision): seq<Entry> {
    [Entry(DeployCandidate(s, candidate), true), Entry(CheckImage(s, candidate), true),
     Entry(CheckServing(s, previous), true), Entry(TagUrl(s), true), Entry(SmokeCandidate(s), true)]
  }

  /** A service that is through: its candidate has the traffic, and the stable address passed its smoke. */
  function Through(s: Service, candidate: Revision, previous: Revision): seq<Entry> {
    Smoked(s, candidate, previous)
      + [Entry(Promote(s, candidate), true), Entry(CheckServing(s, candidate), true), Entry(SmokeStable(s), true)]
  }

  /** A traffic move back that was seen to have worked. */
  function Verified(s: Service, previous: Revision): seq<Entry> {
    [Entry(Restore(s, previous), true), Entry(CheckServing(s, previous), true), Entry(SmokeStable(s), true)]
  }

  /** What served when the release began. */
  function Before(w: World, s: Service): Revision {
    if Serving(w, s).Some? then Serving(w, s).value else ""
  }

  /** What the worker's part has put on the record once it is through. */
  function WorkerThrough(w: World, c: Config): seq<Entry> {
    if c.worker.Some? then
      Through(c.worker.value, c.worker.value + "-" + c.release, Before(w, c.worker.value))
    else []
  }

  // ----------------------------------------------------------------- what is not issued

  /** Nothing of this kind is issued between the two. */
  ghost predicate Spared(w: World, w': World, a: Action) {
    w.issued <= w'.issued && forall j :: |w.issued| <= j < |w'.issued| ==> w'.issued[j].action != a
  }

  lemma SparedThrough(w0: World, w1: World, w2: World, a: Action)
    requires Spared(w0, w1, a) && Spared(w1, w2, a)
    ensures Spared(w0, w2, a)
  {
    forall j | |w0.issued| <= j < |w2.issued| ensures w2.issued[j].action != a {
      if j < |w1.issued| { assert w1.issued[j] == w2.issued[j]; }
    }
  }

  lemma ExecuteSpares(w: World, plan: seq<Action>, a: Action)
    requires a !in plan
    ensures Spared(w, Execute(w, plan).0, a)
  {
    ExecuteRecords(w, plan);
    hide Execute;
    var (w', passed) := Execute(w, plan);
    forall j | |w.issued| <= j < |w'.issued| ensures w'.issued[j].action != a {
      assert w'.issued[j] == Recorded(plan, passed)[j - |w.issued|];
    }
  }

  lemma PerformSpares(w: World, x: Action, a: Action)
    requires x != a
    ensures Spared(w, Perform(w, x), a)
  {
  }

  /** The actions only a roll-out issues. */
  predicate InRollOut(a: Action) {
    a.DeployCandidate? || a.CheckImage? || a.TagUrl? || a.SmokeCandidate? || a.Promote?
  }

  lemma ReadsSpare(w: World, c: Config, a: Action)
    requires InRollOut(a) || a.Restore? || a.RemoveTag?
    ensures Spared(w, Execute(w, ReadPlan(c) + MigratePlan).0, a)
  {
    ExecuteSpares(w, ReadPlan(c) + MigratePlan, a);
    hide Execute, Spared;
  }

  lemma RollOutSpares(w: World, service: Service, candidate: Revision, previous: Revision, a: Action)
    requires a !in RollOutPlan(service, candidate, previous)
    ensures Spared(w, RollOut(w, service, candidate, previous).0, a)
  {
    ExecuteSpares(w, RollOutPlan(service, candidate, previous), a);
  }

  lemma RestoreSpares(w: World, service: Service, previous: Revision, a: Action)
    requires InRollOut(a) || a.RemoveTag? || (a.Restore? && a != Restore(service, previous))
    ensures Spared(w, RestoreService(w, service, previous).0, a)
  {
    var plan := RestorePlan(service, previous);
    ExecuteSpares(w, plan, a);
    hide Execute, Spared, Perform;
    var w1 := Execute(w, plan).0;
    PerformSpares(w1, Observe(service), a);
    SparedThrough(w, w1, Perform(w1, Observe(service)), a);
  }

  lemma RestoreAllSpares(w: World, c: Config, workerPrevious: Revision, api: Progress, worker: Progress, a: Action)
    requires InRollOut(a) || a.RemoveTag?
    ensures Spared(w, RestoreAll(w, c, workerPrevious, api, worker).0, a)
  {
    hide RestoreService;
    RestoreSpares(w, c.service, c.previous, a);
    var w1 := if api.attempted then RestoreService(w, c.service, c.previous).0 else w;
    if c.worker.Some? {
      RestoreSpares(w1, c.worker.value, workerPrevious, a);
      SparedThrough(w, w1, RestoreService(w1, c.worker.value, workerPrevious).0, a);
    }
  }

  lemma CleanupSpares(w: World, c: Config, api: Progress, worker: Progress, a: Action)
    requires !a.RemoveTag?
    ensures Spared(w, Cleanup(w, c, api, worker), a)
  {
  }

  /** The world when restoring, if there is any to do, is over. */
  function Settled(w: World, c: Config): World {
    var (w1, api, worker) := Main(w, c);
    if api.done then w1 else RestoreAll(w1, c, WorkerPrevious(w, c), api, worker).0
  }

  /** From there, cleaning up and reporting is all that is left. */
  lemma TailIs(w: World, c: Config)
    ensures
      var (w1, api, worker) := Main(w, c);
      Deploy(w, c).0 == Perform(Cleanup(Settled(w, c), c, api, worker), WriteSummary)
  {
    hide Main, RestoreAll, Cleanup, Perform;
  }

  lemma TailSpares(w: World, c: Config, a: Action)
    requires !a.RemoveTag? && !a.WriteSummary?
    ensures Spared(Settled(w, c), Deploy(w, c).0, a)
  {
    TailIs(w, c);
    var (w1, api, worker) := Main(w, c);
    hide *;
    CleanupSpares(Settled(w, c), c, api, worker, a);
    var w3 := Cleanup(Settled(w, c), c, api, worker);
    PerformSpares(w3, WriteSummary, a);
    SparedThrough(Settled(w, c), w3, Perform(w3, WriteSummary), a);
  }

  /** After the guarded part nothing of a roll-out is issued any more. */
  lemma NoMoreRollOut(w: World, c: Config, a: Action)
    requires InRollOut(a)
    ensures Spared(Main(w, c).0, Deploy(w, c).0, a)
  {
    TailSpares(w, c, a);
    var (w1, api, worker) := Main(w, c);
    RestoreAllSpares(w1, c, WorkerPrevious(w, c), api, worker, a);
    hide Main, RestoreAll, Deploy, InRollOut;
    SparedThrough(w1, Settled(w, c), Deploy(w, c).0, a);
  }

  // ---------------------------------------------------------- the course of the guarded part

  /** The world after the reads and the migration. */
  function AfterReads(w: World, c: Config): World { Execute(w, ReadPlan(c) + MigratePlan).0 }

  /** The world after the worker's part, if there is one. */
  function AfterWorker(w: World, c: Config): World {
    if c.worker.Some? then
      RollOut(AfterReads(w, c), c.worker.value, c.worker.value + "-" + c.release, Before(w, c.worker.value)).0
    else AfterReads(w, c)
  }

  lemma ReadsRecorded(w: World, c: Config)
    requires Execute(w, ReadPlan(c) + MigratePlan).1 == |ReadPlan(c)| + 3
    ensures AfterReads(w, c).issued == w.issued + Migrated(c)
    ensures Serving(w, c.service) == Some(c.previous) && (c.worker.Some? ==> Serving(w, c.worker.value).Some?)
  {
    var plan := ReadPlan(c) + MigratePlan;
    ExecuteRecords(w, plan);
    ReadsSucceeded(w, c);
    hide Execute;
    assert |plan| == |ReadPlan(c)| + 3;
    assert Recorded(plan, |plan|) == Migrated(c);
  }

  lemma RollOutRecorded(w: World, s: Service, candidate: Revision, previous: Revision)
    ensures
      var (w', p) := RollOut(w, s, candidate, previous);
      && w.issued <= w'.issued && |w.issued| < |w'.issued|
      && w'.issued[|w.issued|].action == DeployCandidate(s, candidate)
      && (p.done ==> w'.issued == w.issued + Through(s, candidate, previous))
  {
    var plan := RollOutPlan(s, candidate, previous);
    ExecuteRecords(w, plan);
    hide Execute;
    var passed := Execute(w, plan).1;
    assert RollOut(w, s, candidate, previous).0.issued[|w.issued|] == Recorded(plan, passed)[0];
    if passed == 8 { assert Recorded(plan, 8) == Through(s, candidate, previous); }
  }

  /** The guarded part got as far as deploying something. */
  predicate Reached(w: World, c: Config) {
    ConfigOk(c) && Execute(w, ReadPlan(c) + MigratePlan).1 == |ReadPlan(c)| + 3
  }

  lemma NothingReached(w: World, c: Config)
    requires !Reached(w, c)
    ensures Main(w, c) == (if ConfigOk(c) then AfterReads(w, c) else w, NotReached, NotReached)
  {
    hide ConfigOk, ReadPlan;
  }

  /** The guarded part, past the migration: the worker's part, and only behind it the API's. */
  lemma Course(w: World, c: Config)
    requires Reached(w, c)
    ensures
      var (w1, api, worker) := Main(w, c);
      && AfterReads(w, c).issued == w.issued + Migrated(c)
      && Serving(w, c.service) == Some(c.previous) && (c.worker.Some? ==> Serving(w, c.worker.value).Some?)
      && worker.created == c.worker.Some? && (api.created ==> worker.done == c.worker.Some?)
      && (!api.created ==> !api.attempted && !api.done && c.worker.Some? && w1 == AfterWorker(w, c))
      && (api.created ==>
            && AfterWorker(w, c).issued == w.issued + Migrated(c) + WorkerThrough(w, c)
            && (w1, api) == RollOut(AfterWorker(w, c), c.service, c.service + "-" + c.release, c.previous))
  {
    ReadsRecorded(w, c);
    hide ConfigOk, ReadPlan, MigratePlan, Execute, Through, Migrated;
    if c.worker.Some? {
      RollOutRecorded(AfterReads(w, c), c.worker.value, c.worker.value + "-" + c.release, Before(w, c.worker.value));
    }
  }

  /** Where in a roll-out its candidate is deployed, and where it is promoted. */
  lemma RollOutEntries(w: World, s: Service, candidate: Revision, previous: Revision, j: nat)
    requires |w.issued| <= j < |RollOut(w, s, candidate, previous).0.issued|
    ensures
      var w' := RollOut(w, s, candidate, previous).0;
      && w.issued <= w'.issued
      && (w'.issued[j].action.DeployCandidate? ==>
            j == |w.issued| && w'.issued[j].action == DeployCandidate(s, candidate))
      && (w'.issued[j].action.Promote? ==>
            && j == |w.issued| + 5 && w'.issued[j].action == Promote(s, candidate)
            && w'.issued[..j] == w.issued + Smoked(s, candidate, previous))
  {
    var plan := RollOutPlan(s, candidate, previous);
    var (w', passed) := Execute(w, plan);
    ExecuteRecords(w, plan);
    hide Execute;
    var k := j - |w.issued|;
    assert w'.issued[j] == Recorded(plan, passed)[k] == Entry(plan[k], k < passed);
    if w'.issued[j].action.Promote? {
      assert j == |w.issued| + 5;
      assert Recorded(plan, passed)[..5] == Smoked(s, candidate, previous);
      assert w'.issued[..j] == w.issued + Recorded(plan, passed)[..5];
    }
  }

  /** What a promotion on the record has behind it. */
  ghost predicate Backed(w: World, record: seq<Entry>, c: Config, j: nat)
    requires j < |record| && record[j].action.Promote?
  {
    var Promote(s, r) := record[j].action;
    && (s == c.service || c.worker == Some(s)) && r == s + "-" + c.release
    && |w.issued| <= j - 5 && record[j - 5..j] == Smoked(s, r, Before(w, s))
  }

  lemma BackedBy(w: World, record: seq<Entry>, c: Config, j: nat, before: seq<Entry>, s: Service)
    requires j < |record| && record[j].action == Promote(s, s + "-" + c.release)
    requires s == c.service || c.worker == Some(s)
    requires |before| >= |w.issued|
    requires record[..j] == before + Smoked(s, s + "-" + c.release, Before(w, s))
    ensures Backed(w, record, c, j)
  {
    assert record[j - 5..j] == record[..j][j - 5..];
  }

  lemma WorkerPromotes(w: World, c: Config, j: nat)
    requires Reached(w, c) && |w.issued| <= j < |AfterWorker(w, c).issued|
    requires AfterWorker(w, c).issued[j].action.Promote?
    ensures Backed(w, AfterWorker(w, c).issued, c, j)
  {
    var w1, w2 := AfterReads(w, c), AfterWorker(w, c);
    ReadsSpare(w, c, w2.issued[j].action);
    Course(w, c);
    hide Main, Reached, Smoked, Through, Migrated, RollOut, Serving, AfterReads;
    if c.worker.Some? {
      var s := c.worker.value;
      RollOutRecorded(w1, s, s + "-" + c.release, Before(w, s));
      if j < |w1.issued| {
        assert false;
      } else {
        RollOutEntries(w1, s, s + "-" + c.release, Before(w, s), j);
        BackedBy(w, w2.issued, c, j, w1.issued, s);
      }
    }
  }

  /** Not past the reads, nothing of a roll-out is on the record. */
  lemma UnreachedSpares(w: World, c: Config, a: Action)
    requires InRollOut(a) && !Reached(w, c)
    ensures Spared(w, Main(w, c).0, a)
  {
    ReadsSpare(w, c, a);
    NothingReached(w, c);
    hide Main, Reached, Execute;
  }

  lemma MainPromotes(w: World, c: Config, j: nat)
    requires |w.issued| <= j < |Main(w, c).0.issued| && Main(w, c).0.issued[j].action.Promote?
    ensures Backed(w, Main(w, c).0.issued, c, j)
  {
    hide Main, Reached, Smoked, Through, Migrated, RollOut, Serving, AfterWorker, AfterReads, Execute, WorkerThrough;
    var (w', api, worker) := Main(w, c);
    if !Reached(w, c) {
      UnreachedSpares(w, c, w'.issued[j].action);
    } else {
      Course(w, c);
      var w2 := AfterWorker(w, c);
      RollOutRecorded(w2, c.service, c.service + "-" + c.release, c.previous);
      if api.created && j >= |w2.issued| {
        RollOutEntries(w2, c.service, c.service + "-" + c.release, c.previous, j);
        BackedBy(w, w'.issued, c, j, w2.issued, c.service);
      } else {
        WorkerPromotes(w, c, j);
        BackedStill(w, w2.issued, w'.issued, c, j);
      }
    }
  }

  lemma BackedStill(w: World, record: seq<Entry>, more: seq<Entry>, c: Config, j: nat)
    requires j < |record| && record <= more && record[j].action.Promote? && Backed(w, record, c, j)
    ensures Backed(w, more, c, j)
  {
    hide Smoked, Serving;
    assert more[j - 5..j] == record[j - 5..j];
  }

  // ------------------------------------------------------------------------ the results

  /** The record only grows past the guarded part. */
  lemma MainIsKept(w: World, c: Config)
    ensures w.issued <= Main(w, c).0.issued <= Deploy(w, c).0.issued
  {
    NoMoreRollOut(w, c, TagUrl(""));
    hide Main, Deploy;
    MainExtends(w, c);
  }

  lemma MainExtends(w: World, c: Config)
    ensures w.issued <= Main(w, c).0.issued
  {
    ReadsSpare(w, c, TagUrl(""));
    if !Reached(w, c) {
      NothingReached(w, c);
    } else {
      Course(w, c);
      var w1, w2 := AfterReads(w, c), AfterWorker(w, c);
      if c.worker.Some? {
        RollOutRecorded(w1, c.worker.value, c.worker.value + "-" + c.release, Before(w, c.worker.value));
      }
      RollOutRecorded(w2, c.service, c.service + "-" + c.release, c.previous);
    }
    hide Main, Reached, RollOut;
  }

  /**
   * No candidate gets traffic unless, right before, it was deployed without any, was found to
   * run the image of the release, its service was seen still on what served at the start,
   * its tag was found and its smoke passed.
   */
  lemma PromotedOnlyWhenSmoked(w: World, c: Config, j: nat)
    requires |w.issued| <= j < |Deploy(w, c).0.issued| && Deploy(w, c).0.issued[j].action.Promote?
    ensures Backed(w, Deploy(w, c).0.issued, c, j)
  {
    hide Main, Deploy, Smoked, Serving;
    var record, all := Main(w, c).0.issued, Deploy(w, c).0.issued;
    MainIsKept(w, c);
    NoMoreRollOut(w, c, all[j].action);
    assert record[j] == all[j];
    MainPromotes(w, c, j);
    assert all[j - 5..j] == record[j - 5..j];
  }

  /** What a deployment on the record has behind it: the migration, and for the API the worker's part. */
  ghost predicate Prepared(w: World, record: seq<Entry>, c: Config, j: nat)
    requires j < |record| && record[j].action.DeployCandidate?
  {
    var DeployCandidate(s, r) := record[j].action;
    && r == s + "-" + c.release
    && (|| (c.worker == Some(s) && record[..j] == w.issued + Migrated(c))
        || (s == c.service && record[..j] == w.issued + Migrated(c) + WorkerThrough(w, c)))
  }

  lemma MainDeploys(w: World, c: Config, j: nat)
    requires |w.issued| <= j < |Main(w, c).0.issued| && Main(w, c).0.issued[j].action.DeployCandidate?
    ensures Prepared(w, Main(w, c).0.issued, c, j)
  {
    hide Main, Reached, Through, Migrated, RollOut, Serving, AfterWorker, AfterReads, Execute, WorkerThrough;
    var (w', api, worker) := Main(w, c);
    if !Reached(w, c) {
      UnreachedSpares(w, c, w'.issued[j].action);
    } else {
      Course(w, c);
      var w2 := AfterWorker(w, c);
      RollOutRecorded(w2, c.service, c.service + "-" + c.release, c.previous);
      if api.created && j >= |w2.issued| {
        RollOutEntries(w2, c.service, c.service + "-" + c.release, c.previous, j);
        assert w'.issued[..j] == w2.issued;
      } else {
        WorkerDeploys(w, c, j);
        assert w'.issued[..j] == w2.issued[..j];
      }
    }
  }

  lemma WorkerDeploys(w: World, c: Config, j: nat)
    requires Reached(w, c) && |w.issued| <= j < |AfterWorker(w, c).issued|
    requires AfterWorker(w, c).issued[j].action.DeployCandidate?
    ensures Prepared(w, AfterWorker(w, c).issued, c, j)
  {
    var w1, w2 := AfterReads(w, c), AfterWorker(w, c);
    ReadsSpare(w, c, w2.issued[j].action);
    Course(w, c);
    hide Main, Reached, Through, Migrated, RollOut, Serving, AfterReads, Execute, WorkerThrough;
    if c.worker.Some? {
      var s := c.worker.value;
      RollOutRecorded(w1, s, s + "-" + c.release, Before(w, s));
      if j < |w1.issued| {
        assert false;
      } else {
        RollOutEntries(w1, s, s + "-" + c.release, Before(w, s), j);
        assert w2.issued[..j] == w1.issued;
      }
    }
  }

  /**
   * Nothing is deployed before the migration: what a deployment has behind it is exactly the
   * reads and the migration, all passed, and for the API the worker's whole roll-out.
   */
  lemma MigratedBeforeDeploying(w: World, c: Config, j: nat)
    requires |w.issued| <= j < |Deploy(w, c).0.issued| && Deploy(w, c).0.issued[j].action.DeployCandidate?
    ensures Prepared(w, Deploy(w, c).0.issued, c, j)
  {
    hide Main, Deploy, Migrated, WorkerThrough;
    var record, all := Main(w, c).0.issued, Deploy(w, c).0.issued;
    MainIsKept(w, c);
    NoMoreRollOut(w, c, all[j].action);
    assert record[j] == all[j];
    MainDeploys(w, c, j);
    assert all[..j] == record[..j];
  }

  /** The whole record of a release that deployed, in order, up to whether tags and summary worked. */
  lemma DeployedRecord(w: World, c: Config)
    requires SaysDeployed(Deploy(w, c).1)
    ensures
      var record := Deploy(w, c).0.issued;
      var n := |w.issued + Migrated(c) + WorkerThrough(w, c)| + 8;
      && |record| == n + (if c.worker.Some? then 3 else 2)
      && record[..n] == w.issued + Migrated(c) + WorkerThrough(w, c)
                          + Through(c.service, c.service + "-" + c.release, c.previous)
      && record[n].action == RemoveTag(c.service)
      && (c.worker.Some? ==> record[n + 1].action == RemoveTag(c.worker.value))
      && record[|record| - 1].action == WriteSummary
  {
    hide Main, Reached, RollOut, Migrated, WorkerThrough, Deploy, Serving, AfterWorker, AfterReads, Cleanup, Perform,
         SaysDeployed;
    var (w1, api, worker) := Main(w, c);
    DeployedWhenDone(w, c);
    assert Reached(w, c) by { if !Reached(w, c) { NothingReached(w, c); } }
    Course(w, c);
    TailIs(w, c);
    RollOutRecorded(AfterWorker(w, c), c.service, c.service + "-" + c.release, c.previous);
    CleanupRecorded(w1, c, api, worker);
    CreatedWhenDone(w, c);
  }

  lemma DeployedWhenDone(w: World, c: Config)
    ensures SaysDeployed(Deploy(w, c).1) <==> Main(w, c).1.done
  {
    hide Main, RestoreAll, Cleanup, Perform;
  }

  lemma CreatedWhenDone(w: World, c: Config)
    ensures Main(w, c).1.done ==> Main(w, c).1.created
  {
    hide ConfigOk, Execute;
  }

  /** Cleaning up and reporting, as the record has it. */
  lemma CleanupRecorded(w: World, c: Config, api: Progress, worker: Progress)
    ensures
      var all := Perform(Cleanup(w, c, api, worker), WriteSummary).issued;
      var n := |w.issued|;
      var m := n + (if api.created then 1 else 0);
      var k := m + (if worker.created && c.worker.Some? then 1 else 0);
      && w.issued <= all && |all| == k + 1 && all[k].action == WriteSummary
      && (api.created ==> all[n].action == RemoveTag(c.service))
      && (worker.created && c.worker.Some? ==> all[m].action == RemoveTag(c.worker.value))
  {
  }

  /** The tag and the deployment of this service, in one role or the other, were attempted. */
  predicate Created(c: Config, api: Progress, worker: Progress, s: Service) {
    (api.created && s == c.service) || (worker.created && c.worker == Some(s))
  }

  lemma RollOutDeploys(w: World, service: Service, candidate: Revision, previous: Revision, s: Service, r: Revision)
    ensures
      var w' := RollOut(w, service, candidate, previous).0;
      w.issued <= w'.issued &&
      (Spared(w, w', DeployCandidate(s, r)) <==> s != service || r != candidate)
  {
    var w' := RollOut(w, service, candidate, previous).0;
    RollOutRecorded(w, service, candidate, previous);
    if s != service || r != candidate {
      RollOutSpares(w, service, candidate, previous, DeployCandidate(s, r));
    } else {
      assert w'.issued[|w.issued|] == w'.issued[|w.issued|..][0];
    }
    hide RollOut;
  }

  lemma SparedIff(w0: World, w1: World, w2: World, a: Action)
    requires w0.issued <= w1.issued <= w2.issued
    ensures Spared(w0, w2, a) <==> Spared(w0, w1, a) && Spared(w1, w2, a)
  {
    if Spared(w0, w2, a) {
      forall j | |w0.issued| <= j < |w1.issued| ensures w1.issued[j].action != a {
        assert w1.issued[j] == w2.issued[j];
      }
    } else if Spared(w0, w1, a) && Spared(w1, w2, a) {
      SparedThrough(w0, w1, w2, a);
    }
  }

  lemma CreatedIff(w: World, c: Config, s: Service)
    ensures
      var (w1, api, worker) := Main(w, c);
      Spared(w, w1, DeployCandidate(s, s + "-" + c.release)) <==> !Created(c, api, worker, s)
  {
    var a := DeployCandidate(s, s + "-" + c.release);
    var (w', api, worker) := Main(w, c);
    var w1, w2 := AfterReads(w, c), AfterWorker(w, c);
    ReadsSpare(w, c, a);
    if !Reached(w, c) {
      NothingReached(w, c);
    } else {
      Course(w, c);
      if c.worker.Some? {
        var x := c.worker.value;
        RollOutDeploys(w1, x, x + "-" + c.release, Before(w, x), s, s + "-" + c.release);
      }
      hide Main, Reached, RollOut, AfterReads, Through, Migrated;
      SparedIff(w, w1, w2, a);
      if api.created {
        RollOutDeploys(w2, c.service, c.service + "-" + c.release, c.previous, s, s + "-" + c.release);
        SparedIff(w, w2, w', a);
      }
    }
  }

  lemma Untagged(w: World, c: Config, s: Service)
    ensures Spared(w, Settled(w, c), RemoveTag(s))
  {
    var (w1, api, worker) := Main(w, c);
    MainSpares(w, c, RemoveTag(s));
    RestoreAllSpares(w1, c, WorkerPrevious(w, c), api, worker, RemoveTag(s));
    hide Main, RestoreAll;
    if !api.done { SparedThrough(w, w1, Settled(w, c), RemoveTag(s)); }
  }

  lemma CleanupRemoves(w: World, c: Config, api: Progress, worker: Progress, s: Service)
    ensures
      var w' := Perform(Cleanup(w, c, api, worker), WriteSummary);
      w.issued <= w'.issued && (Spared(w, w', RemoveTag(s)) <==> !Created(c, api, worker, s))
  {
    CleanupRecorded(w, c, api, worker);
  }

  /**
   * The tag of a service is removed at the end exactly if the deployment of its candidate was
   * attempted; the summary comes last.
   */
  lemma TagsAreRemovedIff(w: World, c: Config, s: Service)
    ensures
      var w' := Deploy(w, c).0;
      && |w.issued| < |w'.issued| && w'.issued[|w'.issued| - 1].action == WriteSummary
      && (Spared(w, w', RemoveTag(s)) <==> Spared(w, w', DeployCandidate(s, s + "-" + c.release)))
  {
    var (w1, api, worker) := Main(w, c);
    var w2, w' := Settled(w, c), Deploy(w, c).0;
    hide Main, Deploy, Cleanup, Perform, Settled, Created;
    TailIs(w, c);
    MainIsKept(w, c);
    NoMoreRollOut(w, c, DeployCandidate(s, s + "-" + c.release));
    CreatedIff(w, c, s);
    SparedIff(w, w1, w', DeployCandidate(s, s + "-" + c.release));
    Untagged(w, c, s);
    CleanupRemoves(w2, c, api, worker, s);
    CleanupRecorded(w2, c, api, worker);
    SparedIff(w, w2, w', RemoveTag(s));
  }

  /**
   * A release that cannot be named issues nothing but its summary, and only such a release:
   * revision names end at 63 characters, a service and its tag together at 46, and a release
   * too long for a tag is tagged with 13 characters.
   */
  lemma NothingIssuedIff(w: World, c: Config)
    ensures
      (|Deploy(w, c).0.issued| == |w.issued| + 1) <==>
      !(&& c.wellFormed
        && |c.service| + 1 + |c.release| <= 63 && (|c.service| + |c.release| <= 46 || |c.service| <= 33)
        && (c.worker.Some? ==>
              && |c.worker.value| + 1 + |c.release| <= 63
              && (|c.worker.value| + |c.release| <= 46 || |c.worker.value| <= 33)))
  {
    TailIs(w, c);
    MainIsKept(w, c);
    var (w1, api, worker) := Main(w, c);
    NoMoreRollOut(w, c, TagUrl(""));
    CleanupRecorded(Settled(w, c), c, api, worker);
    if ConfigOk(c) {
      SomethingRead(w, c);
      SettledKeeps(w, c);
    } else {
      NothingReached(w, c);
      NothingRestored(w, c);
    }
    hide Main, Deploy, Settled, Perform, Cleanup;
  }

  lemma SomethingRead(w: World, c: Config)
    requires ConfigOk(c)
    ensures |w.issued| < |Main(w, c).0.issued|
  {
    ExecuteRecords(w, ReadPlan(c) + MigratePlan);
    MainExtends(w, c);
    if Reached(w, c) {
      Course(w, c);
      if c.worker.Some? {
        RollOutRecorded(AfterReads(w, c), c.worker.value, c.worker.value + "-" + c.release, Before(w, c.worker.value));
      }
      RollOutRecorded(AfterWorker(w, c), c.service, c.service + "-" + c.release, c.previous);
    } else {
      NothingReached(w, c);
    }
    hide Main, Execute, RollOut, ConfigOk, Reached;
  }

  lemma SettledKeeps(w: World, c: Config)
    ensures Main(w, c).0.issued <= Settled(w, c).issued
  {
    var (w1, api, worker) := Main(w, c);
    RestoreAllSpares(w1, c, WorkerPrevious(w, c), api, worker, TagUrl(""));
    hide Main, RestoreAll;
  }

  lemma NothingRestored(w: World, c: Config)
    requires Main(w, c) == (w, NotReached, NotReached)
    ensures Settled(w, c) == w
  {
    hide Main, RestoreService;
  }

  // -------------------------------------------------------------------- restores

  /** Each traffic move back is followed by a look at the traffic and a smoke, all three passed. */
  ghost predicate RestoresHold(w: World, w': World) {
    && w.issued <= w'.issued
    && forall j :: |w.issued| <= j < |w'.issued| && w'.issued[j].action.Restore? ==>
         && j + 3 <= |w'.issued|
         && w'.issued[j..j + 3] == Verified(w'.issued[j].action.service, w'.issued[j].action.revision)
  }

  /** The record of restoring one service. */
  lemma RestoreRecorded(w: World, s: Service, previous: Revision)
    ensures
      var (w', ok) := RestoreService(w, s, previous);
      && w.issued <= w'.issued
      && (ok ==> w'.issued == w.issued + Verified(s, previous))
      && (!ok ==> |w'.issued| >= |w.issued| + 2 && w'.issued[|w.issued|].action == Restore(s, previous)
                  && w'.issued[|w'.issued| - 1].action == Observe(s)
                  && |w'.issued| <= |w.issued| + 4
                  && !w'.issued[|w'.issued| - 2].passed)
  {
    var plan := RestorePlan(s, previous);
    ExecuteRecords(w, plan);
    var (w1, passed) := Execute(w, plan);
    hide Execute;
    if passed == 3 {
      assert Recorded(plan, 3) == Verified(s, previous);
    } else {
      assert w1.issued[|w.issued|] == Recorded(plan, passed)[0];
      assert w1.issued[|w.issued| + passed] == Recorded(plan, passed)[passed];
    }
  }

  lemma HoldThrough(w0: World, w1: World, w2: World)
    requires RestoresHold(w0, w1) && RestoresHold(w1, w2)
    ensures RestoresHold(w0, w2)
  {
    forall j | |w0.issued| <= j < |w2.issued| && w2.issued[j].action.Restore?
      ensures j + 3 <= |w2.issued|
      ensures w2.issued[j..j + 3] == Verified(w2.issued[j].action.service, w2.issued[j].action.revision)
    {
      if j < |w1.issued| {
        assert w1.issued[j] == w2.issued[j];
        assert w2.issued[j..j + 3] == w1.issued[j..j + 3];
      }
    }
  }

  /** Some traffic move back is followed by something else, or one of the three failed. */
  ghost predicate RestoreBroke(w: World, w': World) {
    && w.issued <= w'.issued
    && exists j, k :: |w.issued| <= j <= k < |w'.issued| && k < j + 3 && Breaks(w'.issued, j, k)
  }

  predicate Breaks(record: seq<Entry>, j: nat, k: nat)
    requires j <= k < |record| && k < j + 3
  {
    && record[j].action.Restore?
    && record[k] != Verified(record[j].action.service, record[j].action.revision)[k - j]
  }

  lemma BrokenDoesNotHold(w: World, w': World)
    requires RestoreBroke(w, w')
    ensures !RestoresHold(w, w')
  {
    var j, k :| |w.issued| <= j <= k < |w'.issued| && k < j + 3 && Breaks(w'.issued, j, k);
    if RestoresHold(w, w') {
      assert false;
    }
  }

  lemma BrokenThrough(w0: World, w1: World, w2: World)
    requires w0.issued <= w1.issued <= w2.issued
    requires RestoreBroke(w0, w1) || RestoreBroke(w1, w2)
    ensures RestoreBroke(w0, w2)
  {
    if RestoreBroke(w0, w1) {
      var j, k :| |w0.issued| <= j <= k < |w1.issued| && k < j + 3 && Breaks(w1.issued, j, k);
      assert Breaks(w2.issued, j, k);
    }
  }

  lemma RestoreOutcome(w: World, s: Service, previous: Revision)
    ensures
      var (w', ok) := RestoreService(w, s, previous);
      w.issued <= w'.issued && (if ok then RestoresHold(w, w') else RestoreBroke(w, w'))
  {
    var (w', ok) := RestoreService(w, s, previous);
    RestoreRecorded(w, s, previous);
    hide RestoreService;
    if !ok {
      var n := |w.issued|;
      var k := |w'.issued| - 2;
      assert Breaks(w'.issued, n, k);
    }
  }

  lemma RestoreAllOutcome(w: World, c: Config, workerPrevious: Revision, api: Progress, worker: Progress)
    ensures
      var (w', restored) := RestoreAll(w, c, workerPrevious, api, worker);
      w.issued <= w'.issued && (if restored then RestoresHold(w, w') else RestoreBroke(w, w'))
  {
    hide RestoreService, RestoresHold, RestoreBroke;
    NoRestoreHolds(w, w);
    var w1 := w;
    if api.attempted {
      w1 := RestoreService(w, c.service, c.previous).0;
      RestoreOutcome(w, c.service, c.previous);
    }
    var w2 := w1;
    NoRestoreHolds(w1, w1);
    if worker.attempted && c.worker.Some? {
      w2 := RestoreService(w1, c.worker.value, workerPrevious).0;
      RestoreOutcome(w1, c.worker.value, workerPrevious);
    }
    Joined(w, w1, w2);
  }

  lemma NoRestoreHolds(w: World, w': World)
    requires w.issued <= w'.issued
    requires forall j :: |w.issued| <= j < |w'.issued| ==> !w'.issued[j].action.Restore?
    ensures RestoresHold(w, w')
  {
  }

  /** Two stretches, each holding or broken, make one. */
  lemma Joined(w0: World, w1: World, w2: World)
    requires w0.issued <= w1.issued <= w2.issued
    requires RestoresHold(w0, w1) || RestoreBroke(w0, w1)
    requires RestoresHold(w1, w2) || RestoreBroke(w1, w2)
    ensures RestoreBroke(w0, w1) || RestoreBroke(w1, w2) ==> RestoreBroke(w0, w2)
    ensures RestoresHold(w0, w1) && RestoresHold(w1, w2) ==> RestoresHold(w0, w2)
  {
    hide RestoresHold, RestoreBroke;
    if RestoreBroke(w0, w1) || RestoreBroke(w1, w2) {
      BrokenThrough(w0, w1, w2);
    }
    if RestoresHold(w0, w1) && RestoresHold(w1, w2) {
      HoldThrough(w0, w1, w2);
    }
  }

  lemma MainRestoresNothing(w: World, c: Config)
    ensures RestoresHold(w, Main(w, c).0)
  {
    MainExtends(w, c);
    var w' := Main(w, c).0;
    forall j | |w.issued| <= j < |w'.issued| ensures !w'.issued[j].action.Restore? {
      var a := w'.issued[j].action;
      if a.Restore? {
        MainSpares(w, c, a);
        assert false;
      }
    }
    hide Main;
  }

  lemma WorkerSpares(w: World, c: Config, a: Action)
    requires a.Restore? || a.RemoveTag?
    ensures Spared(w, AfterWorker(w, c), a)
  {
    ReadsSpare(w, c, a);
    hide Reached, RollOut, Spared, Execute;
    if c.worker.Some? {
      var x := c.worker.value;
      RollOutSpares(AfterReads(w, c), x, x + "-" + c.release, Before(w, x), a);
      SparedThrough(w, AfterReads(w, c), AfterWorker(w, c), a);
    }
  }

  lemma MainSpares(w: World, c: Config, a: Action)
    requires a.Restore? || a.RemoveTag?
    ensures Spared(w, Main(w, c).0, a)
  {
    hide Main, Reached, RollOut, Execute, AfterWorker, Migrated, Through;
    WorkerSpares(w, c, a);
    if !Reached(w, c) {
      ReadsSpare(w, c, a);
      NothingReached(w, c);
    } else {
      Course(w, c);
      var w2 := AfterWorker(w, c);
      if Main(w, c).1.created {
        RollOutSpares(w2, c.service, c.service + "-" + c.release, c.previous, a);
        SparedThrough(w, w2, Main(w, c).0, a);
      }
    }
  }

  /**
   * A release says that a restore failed exactly if on its record some traffic move back is not
   * followed at once by a look at the traffic and a smoke of the stable address, all three passed.
   */
  lemma RestoreFailedIff(w: World, c: Config)
    ensures SaysRestoreFailed(Deploy(w, c).1) <==> !RestoresHold(w, Deploy(w, c).0)
  {
    var (w1, api, worker) := Main(w, c);
    var w2, w' := Settled(w, c), Deploy(w, c).0;
    SaysItFailed(w, c);
    TailIs(w, c);
    MainRestoresNothing(w, c);
    MainIsKept(w, c);
    RestoreAllOutcome(w1, c, WorkerPrevious(w, c), api, worker);
    NoRestoreHolds(w1, w1);
    TailRestoresNothing(w, c);
    hide Main, Deploy, RestoreAll, RestoresHold, RestoreBroke, SaysRestoreFailed;
    Joined(w, w1, w2);
    Joined(w, w2, w');
    if RestoreBroke(w, w') { BrokenDoesNotHold(w, w'); }
  }

  lemma SaysItFailed(w: World, c: Config)
    ensures
      var (w1, api, worker) := Main(w, c);
      SaysRestoreFailed(Deploy(w, c).1) <==>
      !api.done && !RestoreAll(w1, c, WorkerPrevious(w, c), api, worker).1
  {
    hide Main, RestoreAll, Cleanup, Perform;
  }

  lemma TailRestoresNothing(w: World, c: Config)
    ensures Settled(w, c).issued <= Deploy(w, c).0.issued && RestoresHold(Settled(w, c), Deploy(w, c).0)
  {
    var w2, w' := Settled(w, c), Deploy(w, c).0;
    TailSpares(w, c, TagUrl(""));
    forall j | |w2.issued| <= j < |w'.issued| ensures !w'.issued[j].action.Restore? {
      var a := w'.issued[j].action;
      if a.Restore? {
        TailSpares(w, c, a);
        assert false;
      }
    }
    hide Deploy, Settled;
  }
}
