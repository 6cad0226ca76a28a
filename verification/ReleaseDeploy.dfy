/**
 * The release saga: candidates are deployed without traffic, smoke-checked, promoted
 * and smoke-checked again, the worker before the API; a failure restores attempted
 * promotions, the API before the worker. Every call may fail before or after
 * taking effect. The theorems hold for every schedule of failures.
 */
module ReleaseDeploy {
  import opened Prelude

  type Service = string
  type Revision = string

  /** What becomes of one external call or check. */
  datatype Fate = Succeeds | FailsBefore | FailsAfter

  /** One external call, or one check of what a call returned, in the order of the source. */
  datatype Action =
    | CheckServing(service: Service, revision: Revision)
    | ReadServing(service: Service)
    | StableUrl(service: Service)
    | UpdateJob
    | ExecuteJob
    | CheckExecution
    | DeployCandidate(service: Service, revision: Revision)
    | CheckImage(service: Service, revision: Revision)
    | TagUrl(service: Service)
    | SmokeCandidate(service: Service)
    | Promote(service: Service, revision: Revision)
    | SmokeStable(service: Service)
    | Restore(service: Service, revision: Revision)
    | Observe(service: Service)
    | RemoveTag(service: Service)
    | WriteSummary

  datatype Entry = Entry(action: Action, passed: bool)

  /** Traffic by service (None when it is split), the schedule of fates, and what was issued so far. */
  datatype World = World(traffic: map<Service, Option<Revision>>, fates: nat -> Fate, issued: seq<Entry>)

  function Serving(w: World, service: Service): Option<Revision> {
    if service in w.traffic then w.traffic[service] else None
  }

  predicate Routes(a: Action) { a.Promote? || a.Restore? }

  /** Whether the action succeeds; a check also looks at the traffic it observes. */
  predicate Passes(w: World, a: Action) {
    && w.fates(|w.issued|) == Succeeds
    && (a.CheckServing? ==> Serving(w, a.service) == Some(a.revision))
    && (a.ReadServing? ==> Serving(w, a.service).Some?)
  }

  function Perform(w: World, a: Action): World {
    var moved := Routes(a) && w.fates(|w.issued|) != FailsBefore;
    w.(traffic := if moved then w.traffic[a.service := Some(a.revision)] else w.traffic,
       issued := w.issued + [Entry(a, Passes(w, a))])
  }

  /** Actions one after another until one fails; `passed` counts the ones that did not. */
  function Execute(w: World, plan: seq<Action>): (World, nat)
    ensures Execute(w, plan).1 <= |plan|
    decreases |plan|
  {
    if plan == [] then (w, 0)
    else
      var w' := Perform(w, plan[0]);
      if !Passes(w, plan[0]) then (w', 0)
      else
        var (last, passed) := Execute(w', plan[1..]);
        (last, passed + 1)
  }

  // ------------------------------------------------------------------- plans

  datatype Config = Config(
    service: Service,
    previous: Revision,
    worker: Option<Service>,
    release: string,
    wellFormed: bool      // registry digest, resource and release names, and required variables
  )

  const MAX_REVISION_NAME := 63
  const MAX_TAGGED_NAME := 46
  const HASHED_TAG := 13

  function Candidate(service: Service, release: string): Revision { service + "-" + release }

  predicate Nameable(service: Service, release: string) {
    && |Candidate(service, release)| <= MAX_REVISION_NAME
    && (|service| + |release| <= MAX_TAGGED_NAME || |service| + HASHED_TAG <= MAX_TAGGED_NAME)
  }

  predicate ConfigOk(c: Config) {
    c.wellFormed && Nameable(c.service, c.release) && (c.worker.Some? ==> Nameable(c.worker.value, c.release))
  }

  function ReadPlan(c: Config): seq<Action> {
    [CheckServing(c.service, c.previous), StableUrl(c.service)]
      + (if c.worker.Some? then [ReadServing(c.worker.value), StableUrl(c.worker.value)] else [])
  }

  const MigratePlan := [UpdateJob, ExecuteJob, CheckExecution]

  /** One service: candidate, candidate smoke, promotion, stable smoke. */
  function RollOutPlan(service: Service, candidate: Revision, previous: Revision): seq<Action> {
    [DeployCandidate(service, candidate), CheckImage(service, candidate), CheckServing(service, previous),
     TagUrl(service), SmokeCandidate(service), Promote(service, candidate),
     CheckServing(service, candidate), SmokeStable(service)]
  }

  function RestorePlan(service: Service, previous: Revision): seq<Action> {
    [Restore(service, previous), CheckServing(service, previous), SmokeStable(service)]
  }

  // ---------------------------------------------------------- the deployment

  datatype Outcome =
    | Deployed
    | DeployFailed(restoreFailed: bool)
    | SummaryFailed(deployed: bool, restoreFailed: bool)

  /** How far one service's rollout came: whether its promotion was attempted, and whether all of it passed. */
  datatype Progress = Progress(created: bool, attempted: bool, done: bool)

  const NotReached := Progress(false, false, false)

  function RollOut(w: World, service: Service, candidate: Revision, previous: Revision): (World, Progress) {
    var (w', passed) := Execute(w, RollOutPlan(service, candidate, previous));
    (w', Progress(true, passed >= 5, passed == 8))
  }

  /** The worker revision serving when the deployment began. */
  function WorkerPrevious(w: World, c: Config): Revision {
    if c.worker.Some? && Serving(w, c.worker.value).Some? then Serving(w, c.worker.value).value else ""
  }

  /** The guarded part: how the API rollout and the worker rollout came out. */
  function Main(w: World, c: Config): (World, Progress, Progress) {
    if !ConfigOk(c) then (w, NotReached, NotReached)
    else
      var (w1, passed) := Execute(w, ReadPlan(c) + MigratePlan);
      if passed < |ReadPlan(c)| + 3 then (w1, NotReached, NotReached)
      else
        var (w2, worker) :=
          if c.worker.Some? then
            RollOut(w1, c.worker.value, Candidate(c.worker.value, c.release), WorkerPrevious(w, c))
          else (w1, NotReached);
        if c.worker.Some? && !worker.done then (w2, NotReached, worker)
        else
          var (w3, api) := RollOut(w2, c.service, Candidate(c.service, c.release), c.previous);
          (w3, api, worker)
  }

  /** Restoring one service: on failure its traffic is looked at once more, for the report. */
  function RestoreService(w: World, service: Service, previous: Revision): (World, bool) {
    var (w', passed) := Execute(w, RestorePlan(service, previous));
    if passed == 3 then (w', true) else (Perform(w', Observe(service)), false)
  }

  /** The exception handler: the API first, then the worker, whatever happened to the first. */
  function RestoreAll(w: World, c: Config, workerPrevious: Revision, api: Progress, worker: Progress): (World, bool) {
    var (w1, ok1) := if api.attempted then RestoreService(w, c.service, c.previous) else (w, true);
    var (w2, ok2) :=
      if worker.attempted && c.worker.Some? then RestoreService(w1, c.worker.value, workerPrevious) else (w1, true);
    (w2, ok1 && ok2)
  }

  /** The candidate tags that may exist are removed; failures only show in the report. */
  function Cleanup(w: World, c: Config, api: Progress, worker: Progress): World {
    var w1 := if api.created then Perform(w, RemoveTag(c.service)) else w;
    if worker.created && c.worker.Some? then Perform(w1, RemoveTag(c.worker.value)) else w1
  }

  function Conclude(w: World, deployed: bool, restoreFailed: bool): (World, Outcome) {
    var outcome :=
      if !Passes(w, WriteSummary) then SummaryFailed(deployed, restoreFailed)
      else if deployed then Deployed
      else DeployFailed(restoreFailed);
    (Perform(w, WriteSummary), outcome)
  }

  function Deploy(w: World, c: Config): (World, Outcome) {
    var (w1, api, worker) := Main(w, c);
    if api.done then Conclude(Cleanup(w1, c, api, worker), true, false)
    else
      var (w2, restored) := RestoreAll(w1, c, WorkerPrevious(w, c), api, worker);
      Conclude(Cleanup(w2, c, api, worker), false, !restored)
  }

  // -------------------------------------------------------------- executions

  /** What `plan` adds to the record when `passed` of its actions pass. */
  function Recorded(plan: seq<Action>, passed: nat): (r: seq<Entry>)
    requires passed <= |plan|
    ensures |r| == if passed < |plan| then passed + 1 else passed
  {
    seq(if passed < |plan| then passed + 1 else passed,
        i requires 0 <= i < (if passed < |plan| then passed + 1 else passed) => Entry(plan[i], i < passed))
  }

  /** What is issued and how it ended is exactly the record of the plan up to its first failure. */
  lemma {:induction false} ExecuteRecords(w: World, plan: seq<Action>)
    ensures
      var (w', passed) := Execute(w, plan);
      w'.issued == w.issued + Recorded(plan, passed) && w'.fates == w.fates
    decreases |plan|
  {
    if plan != [] {
      ExecuteRecords(Perform(w, plan[0]), plan[1..]);
    }
  }

  /** Only a routing action moves a service's traffic. */
  lemma {:induction false} ExecuteKeepsTraffic(w: World, plan: seq<Action>, service: Service)
    requires
      var passed := Execute(w, plan).1;
      forall i :: 0 <= i < |plan| && i <= passed && Routes(plan[i]) ==> plan[i].service != service
    ensures Serving(Execute(w, plan).0, service) == Serving(w, service)
    decreases |plan|
  {
    if plan != [] && Passes(w, plan[0]) {
      var rest := plan[1..];
      assert forall i :: 0 <= i < |rest| ==> rest[i] == plan[i + 1];
      ExecuteKeepsTraffic(Perform(w, plan[0]), rest, service);
    }
  }

  lemma {:induction false} ExecuteSplits(w: World, a: seq<Action>, b: seq<Action>)
    ensures
      var (w', passed) := Execute(w, a);
      Execute(w, a + b) ==
        if passed < |a| then (w', passed) else (Execute(w', b).0, passed + Execute(w', b).1)
    decreases |a|
  {
    if a == [] {
      assert a + b == b;
    } else {
      assert (a + b)[1..] == a[1..] + b;
      ExecuteSplits(Perform(w, a[0]), a[1..], b);
    }
  }

  // ----------------------------------------------------------------- traffic

  ghost predicate OthersKeepTraffic(w: World, w': World, service: Service) {
    forall s :: s != service ==> Serving(w', s) == Serving(w, s)
  }

  lemma OthersUntouched(w: World, plan: seq<Action>, service: Service)
    requires forall i :: 0 <= i < |plan| && Routes(plan[i]) ==> plan[i].service == service
    ensures OthersKeepTraffic(w, Execute(w, plan).0, service)
  {
    forall s | s != service ensures Serving(Execute(w, plan).0, s) == Serving(w, s) {
      ExecuteKeepsTraffic(w, plan, s);
    }
  }

  /** A routing action followed by actions that do not route: if all pass, the route stands. */
  lemma RouteStands(w: World, before: seq<Action>, route: Action, after: seq<Action>)
    requires Routes(route)
    requires forall i :: 0 <= i < |after| ==> !Routes(after[i])
    ensures
      var plan := before + [route] + after;
      Execute(w, plan).1 == |plan| ==> Serving(Execute(w, plan).0, route.service) == Some(route.revision)
  {
    var plan := before + [route] + after;
    var (w1, n1) := Execute(w, before);
    var w2 := Perform(w1, route);
    ExecuteSplits(w, before + [route], after);
    ExecuteSplits(w, before, [route]);
    ExecuteKeepsTraffic(Execute(w, before + [route]).0, after, route.service);
    assert Execute(w1, [route]).0 == w2;
  }

  lemma RollOutTraffic(w: World, service: Service, candidate: Revision, previous: Revision)
    ensures
      var (w', p) := RollOut(w, service, candidate, previous);
      && OthersKeepTraffic(w, w', service)
      && (!p.attempted ==> Serving(w', service) == Serving(w, service))
      && (p.done ==> p.attempted && Serving(w', service) == Some(candidate))
  {
    var plan := RollOutPlan(service, candidate, previous);
    OthersUntouched(w, plan, service);
    if Execute(w, plan).1 < 5 { ExecuteKeepsTraffic(w, plan, service); }
    RouteStands(w, plan[..5], plan[5], plan[6..]);
    assert plan == plan[..5] + [plan[5]] + plan[6..];
    hide Execute;
  }

  lemma RestoreTraffic(w: World, service: Service, previous: Revision)
    ensures
      var (w', ok) := RestoreService(w, service, previous);
      OthersKeepTraffic(w, w', service) && (ok ==> Serving(w', service) == Some(previous))
  {
    var plan := RestorePlan(service, previous);
    OthersUntouched(w, plan, service);
    RouteStands(w, [], plan[0], plan[1..]);
    assert plan == [] + [plan[0]] + plan[1..];
    hide Execute;
  }

  lemma {:induction false} PassedChecksHold(w: World, plan: seq<Action>, k: nat)
    requires k < Execute(w, plan).1
    requires forall i :: 0 <= i < |plan| ==> !Routes(plan[i])
    ensures plan[k].CheckServing? ==> Serving(w, plan[k].service) == Some(plan[k].revision)
    ensures plan[k].ReadServing? ==> Serving(w, plan[k].service).Some?
    decreases |plan|
  {
    if k > 0 {
      assert plan[1..][k - 1] == plan[k];
      PassedChecksHold(Perform(w, plan[0]), plan[1..], k - 1);
    }
  }

  /** Past the reads, the deployment knows what served at its start. */
  lemma ReadsSucceeded(w: World, c: Config)
    requires Execute(w, ReadPlan(c) + MigratePlan).1 == |ReadPlan(c)| + 3
    ensures Serving(w, c.service) == Some(c.previous)
    ensures c.worker.Some? ==> Serving(w, c.worker.value) == Some(WorkerPrevious(w, c))
  {
    var plan := ReadPlan(c) + MigratePlan;
    assert forall i :: 0 <= i < |plan| ==> !Routes(plan[i]);
    assert plan[0] == CheckServing(c.service, c.previous);
    PassedChecksHold(w, plan, 0);
    if c.worker.Some? {
      assert plan[2] == ReadServing(c.worker.value);
      PassedChecksHold(w, plan, 2);
    }
  }

  /** A promotion of `service` was attempted. */
  predicate Attempted(c: Config, api: Progress, worker: Progress, service: Service) {
    (api.attempted && service == c.service) || (worker.attempted && c.worker == Some(service))
  }

  lemma MainTraffic(w: World, c: Config)
    ensures
      var (w1, api, worker) := Main(w, c);
      && (forall s :: !Attempted(c, api, worker, s) ==> Serving(w1, s) == Serving(w, s))
      && (api.attempted || worker.attempted ==> Serving(w, c.service) == Some(c.previous))
      && (worker.attempted ==> c.worker.Some? && Serving(w, c.worker.value) == Some(WorkerPrevious(w, c)))
      && (api.done ==>
            && Serving(w1, c.service) == Some(Candidate(c.service, c.release))
            && (c.worker.Some? ==>
                  worker.done && Serving(w1, c.worker.value) == Some(Candidate(c.worker.value, c.release))))
  {
    if ConfigOk(c) {
      var plan := ReadPlan(c) + MigratePlan;
      var (w1, passed) := Execute(w, plan);
      assert forall i :: 0 <= i < |plan| ==> !Routes(plan[i]);
      forall s ensures Serving(w1, s) == Serving(w, s) { ExecuteKeepsTraffic(w, plan, s); }
      if passed == |plan| {
        ReadsSucceeded(w, c);
        hide Execute, RollOut, Serving;
        if c.worker.Some? {
          var candidate := Candidate(c.worker.value, c.release);
          RollOutTraffic(w1, c.worker.value, candidate, WorkerPrevious(w, c));
          RollOutTraffic(RollOut(w1, c.worker.value, candidate, WorkerPrevious(w, c)).0,
                         c.service, Candidate(c.service, c.release), c.previous);
        } else {
          RollOutTraffic(w1, c.service, Candidate(c.service, c.release), c.previous);
        }
      }
    }
  }

  lemma TailKeepsTraffic(w: World, c: Config, api: Progress, worker: Progress, deployed: bool, restoreFailed: bool,
                         s: Service)
    ensures Serving(Conclude(Cleanup(w, c, api, worker), deployed, restoreFailed).0, s) == Serving(w, s)
  {
  }

  predicate SaysDeployed(outcome: Outcome) {
    outcome.Deployed? || (outcome.SummaryFailed? && outcome.deployed)
  }

  predicate SaysRestoreFailed(outcome: Outcome) {
    !outcome.Deployed? && outcome.restoreFailed
  }

  /** After a successful main part, whatever the report does, every configured service serves its candidate. */
  lemma DeployedServesCandidates(w: World, c: Config)
    requires SaysDeployed(Deploy(w, c).1)
    ensures
      var w' := Deploy(w, c).0;
      && Serving(w', c.service) == Some(Candidate(c.service, c.release))
      && (c.worker.Some? ==> Serving(w', c.worker.value) == Some(Candidate(c.worker.value, c.release)))
  {
    MainTraffic(w, c);
    var (w1, api, worker) := Main(w, c);
    hide Main, RestoreAll;
    TailKeepsTraffic(w1, c, api, worker, true, false, c.service);
    if c.worker.Some? { TailKeepsTraffic(w1, c, api, worker, true, false, c.worker.value); }
  }

  lemma RestoreAllTraffic(w: World, w1: World, c: Config, api: Progress, worker: Progress)
    requires forall s :: !Attempted(c, api, worker, s) ==> Serving(w1, s) == Serving(w, s)
    requires api.attempted ==> Serving(w, c.service) == Some(c.previous)
    requires worker.attempted ==> c.worker.Some? && Serving(w, c.worker.value) == Some(WorkerPrevious(w, c))
    ensures
      var (w2, restored) := RestoreAll(w1, c, WorkerPrevious(w, c), api, worker);
      restored ==> forall s :: Serving(w2, s) == Serving(w, s)
  {
    RestoreTraffic(w1, c.service, c.previous);
    var w2 := if api.attempted then RestoreService(w1, c.service, c.previous).0 else w1;
    if c.worker.Some? { RestoreTraffic(w2, c.worker.value, WorkerPrevious(w, c)); }
    hide RestoreService, Serving;
  }

  /**
   * All or nothing: a release that did not get through, and in which no restore failed,
   * leaves all traffic as it was.
   */
  lemma FailureLeavesTraffic(w: World, c: Config, s: Service)
    requires !Main(w, c).1.done && !SaysRestoreFailed(Deploy(w, c).1)
    ensures Serving(Deploy(w, c).0, s) == Serving(w, s)
  {
    MainTraffic(w, c);
    var (w1, api, worker) := Main(w, c);
    RestoreAllTraffic(w, w1, c, api, worker);
    var (w2, restored) := RestoreAll(w1, c, WorkerPrevious(w, c), api, worker);
    hide Main, RestoreAll;
    TailKeepsTraffic(w2, c, api, worker, false, !restored, s);
    hide Cleanup, Serving;
  }

  /** The release would move no traffic: each configured service already serves its candidate. */
  predicate NothingToMove(w: World, c: Config) {
    && Candidate(c.service, c.release) == c.previous
    && (c.worker.Some? ==> Candidate(c.worker.value, c.release) == WorkerPrevious(w, c))
  }

  /**
   * Exactly when a release in which no restore failed, returning or raising, leaves all
   * traffic as it was: when its guarded part did not get through, or had nothing to move.
   */
  lemma TrafficStandsIff(w: World, c: Config)
    requires !SaysRestoreFailed(Deploy(w, c).1)
    ensures (forall s :: Serving(Deploy(w, c).0, s) == Serving(w, s)) <==> !Main(w, c).1.done || NothingToMove(w, c)
  {
    MainTraffic(w, c);
    MainDone(w, c);
    var (w1, api, worker) := Main(w, c);
    var w' := Deploy(w, c).0;
    hide Main, Serving, Candidate, WorkerPrevious;
    if api.done {
      DeployedServesCandidates(w, c);
      forall s | !Attempted(c, api, worker, s) ensures Serving(w', s) == Serving(w, s) {
        TailKeepsTraffic(w1, c, api, worker, true, false, s);
      }
      hide Deploy;
      if forall s :: Serving(w', s) == Serving(w, s) {
        assert Serving(w', c.service) == Serving(w, c.service);
        if c.worker.Some? { assert Serving(w', c.worker.value) == Serving(w, c.worker.value); }
      }
    } else {
      hide Deploy;
      forall s ensures Serving(w', s) == Serving(w, s) { FailureLeavesTraffic(w, c, s); }
    }
  }

  /** A release that deployed raises all the same exactly when the write of its summary fails. */
  lemma SummaryLostIff(w: World, c: Config)
    ensures
      var (w1, api, worker) := Main(w, c);
      Deploy(w, c).1 == SummaryFailed(true, false) <==> api.done && !Passes(Cleanup(w1, c, api, worker), WriteSummary)
  {
    hide Main, Cleanup, RestoreAll;
  }

  // ------------------------------------------------------------------- order

  predicate Mutates(a: Action) {
    a.UpdateJob? || a.ExecuteJob? || a.DeployCandidate? || a.Promote? || a.Restore? || a.RemoveTag?
  }

  /** The place of each mutation of the two services in the release. */
  function Place(c: Config, a: Action): nat {
    match a
    case UpdateJob => 1
    case ExecuteJob => 2
    case DeployCandidate(s, _) => if s == c.service then 5 else 3
    case Promote(s, _) => if s == c.service then 6 else 4
    case Restore(s, _) => if s == c.service then 7 else 8
    case RemoveTag(s) => if s == c.service then 9 else 10
    case _ => 0
  }

  /** The mutations of the record come in strictly increasing place, all in (low, high]. */
  ghost predicate InOrder(c: Config, record: seq<Entry>, low: nat, high: nat) {
    && (forall i :: 0 <= i < |record| && Mutates(record[i].action) ==> low < Place(c, record[i].action) <= high)
    && (forall i, j :: 0 <= i < j < |record| && Mutates(record[i].action) && Mutates(record[j].action) ==>
          Place(c, record[i].action) < Place(c, record[j].action))
  }

  lemma OrderJoins(c: Config, a: seq<Entry>, b: seq<Entry>, low: nat, middle: nat, high: nat)
    requires low <= middle <= high
    requires InOrder(c, a, low, middle) && InOrder(c, b, middle, high)
    ensures InOrder(c, a + b, low, high)
  {
  }

  ghost predicate PlanInOrder(c: Config, plan: seq<Action>, low: nat, high: nat) {
    && (forall i :: 0 <= i < |plan| && Mutates(plan[i]) ==> low < Place(c, plan[i]) <= high)
    && (forall i, j :: 0 <= i < j < |plan| && Mutates(plan[i]) && Mutates(plan[j]) ==>
        Place(c, plan[i]) < Place(c, plan[j]))
  }

  /** What a phase adds to the record. */
  ghost function Added(w: World, w': World): seq<Entry> {
    if w.issued <= w'.issued then w'.issued[|w.issued|..] else []
  }

  ghost predicate Adds(c: Config, w: World, w': World, low: nat, high: nat) {
    w.issued <= w'.issued && InOrder(c, Added(w, w'), low, high)
  }

  lemma AddsThrough(c: Config, a: World, b: World, d: World, low: nat, middle: nat, high: nat)
    requires low <= middle <= high
    requires Adds(c, a, b, low, middle) && Adds(c, b, d, middle, high)
    ensures Adds(c, a, d, low, high)
  {
    assert Added(a, d) == Added(a, b) + Added(b, d);
    OrderJoins(c, Added(a, b), Added(b, d), low, middle, high);
  }

  lemma ExecuteAdds(c: Config, w: World, plan: seq<Action>, low: nat, high: nat)
    requires PlanInOrder(c, plan, low, high)
    ensures Adds(c, w, Execute(w, plan).0, low, high)
  {
    ExecuteRecords(w, plan);
    var (w', passed) := Execute(w, plan);
    assert Added(w, w') == Recorded(plan, passed);
    hide Place, Execute;
  }

  lemma PerformAdds(c: Config, w: World, a: Action, low: nat, high: nat)
    requires low <= high && (Mutates(a) ==> low < Place(c, a) <= high)
    ensures Adds(c, w, Perform(w, a), low, high)
  {
    assert Added(w, Perform(w, a)) == [Entry(a, Passes(w, a))];
  }

  lemma NothingAdds(c: Config, w: World, low: nat, high: nat)
    ensures Adds(c, w, w, low, high)
  {
  }

  lemma ReadsInOrder(c: Config)
    ensures PlanInOrder(c, ReadPlan(c) + MigratePlan, 0, 2)
  {
  }

  lemma RollOutInOrder(c: Config, w: World, service: Service, candidate: Revision, previous: Revision, low: nat)
    requires Place(c, DeployCandidate(service, candidate)) == low + 1
    ensures Adds(c, w, RollOut(w, service, candidate, previous).0, low, low + 2)
  {
    ExecuteAdds(c, w, RollOutPlan(service, candidate, previous), low, low + 2);
    hide Execute, Adds;
  }

  lemma MainInOrder(w: World, c: Config)
    requires c.worker != Some(c.service)
    ensures Adds(c, w, Main(w, c).0, 0, 6)
  {
    NothingAdds(c, w, 0, 6);
    if ConfigOk(c) {
      hide Execute, Adds, PlanInOrder, RollOut, ConfigOk;
      ReadsInOrder(c);
      ExecuteAdds(c, w, ReadPlan(c) + MigratePlan, 0, 2);
      hide ReadPlan;
      var w1 := Execute(w, ReadPlan(c) + MigratePlan).0;
      var w2 := w1;
      if c.worker.Some? {
        var candidate := Candidate(c.worker.value, c.release);
        RollOutInOrder(c, w1, c.worker.value, candidate, WorkerPrevious(w, c), 2);
        w2 := RollOut(w1, c.worker.value, candidate, WorkerPrevious(w, c)).0;
      } else {
        NothingAdds(c, w1, 2, 4);
      }
      var candidate := Candidate(c.service, c.release);
      RollOutInOrder(c, w2, c.service, candidate, c.previous, 4);
      var w3 := RollOut(w2, c.service, candidate, c.previous).0;
      hide Place, Candidate, WorkerPrevious;
      NothingAdds(c, w1, 2, 6);
      AddsThrough(c, w, w1, w1, 0, 2, 6);
      AddsThrough(c, w, w1, w2, 0, 2, 4);
      NothingAdds(c, w2, 4, 6);
      AddsThrough(c, w, w2, w2, 0, 4, 6);
      AddsThrough(c, w, w2, w3, 0, 4, 6);
    }
  }

  lemma RestoreServiceInOrder(c: Config, w: World, service: Service, previous: Revision, low: nat)
    requires Place(c, Restore(service, previous)) == low + 1
    ensures Adds(c, w, RestoreService(w, service, previous).0, low, low + 1)
  {
    var plan := RestorePlan(service, previous);
    ExecuteAdds(c, w, plan, low, low + 1);
    var w1 := Execute(w, plan).0;
    PerformAdds(c, w1, Observe(service), low + 1, low + 1);
    AddsThrough(c, w, w1, Perform(w1, Observe(service)), low, low + 1, low + 1);
    hide Execute, Adds;
  }

  lemma RestoreAllInOrder(w: World, c: Config, workerPrevious: Revision, api: Progress, worker: Progress)
    requires c.worker != Some(c.service)
    ensures Adds(c, w, RestoreAll(w, c, workerPrevious, api, worker).0, 6, 8)
  {
    RestoreServiceInOrder(c, w, c.service, c.previous, 6);
    NothingAdds(c, w, 6, 7);
    var w1 := if api.attempted then RestoreService(w, c.service, c.previous).0 else w;
    NothingAdds(c, w1, 7, 8);
    if c.worker.Some? { RestoreServiceInOrder(c, w1, c.worker.value, workerPrevious, 7); }
    AddsThrough(c, w, w1, RestoreAll(w, c, workerPrevious, api, worker).0, 6, 7, 8);
    hide RestoreService, Adds;
  }

  lemma TailInOrder(w: World, c: Config, api: Progress, worker: Progress, deployed: bool, restoreFailed: bool)
    requires c.worker != Some(c.service)
    ensures Adds(c, w, Conclude(Cleanup(w, c, api, worker), deployed, restoreFailed).0, 8, 10)
  {
    PerformAdds(c, w, RemoveTag(c.service), 8, 9);
    NothingAdds(c, w, 8, 9);
    var w1 := if api.created then Perform(w, RemoveTag(c.service)) else w;
    NothingAdds(c, w1, 9, 10);
    if c.worker.Some? { PerformAdds(c, w1, RemoveTag(c.worker.value), 9, 10); }
    var w2 := Cleanup(w, c, api, worker);
    AddsThrough(c, w, w1, w2, 8, 9, 10);
    PerformAdds(c, w2, WriteSummary, 10, 10);
    AddsThrough(c, w, w2, Perform(w2, WriteSummary), 8, 10, 10);
    hide Perform, Adds;
  }

  /**
   * With two different services, the mutations of a release come in one strict
   * order whatever fails: no mutation is issued twice for a service, restores
   * follow every promotion, and the API is restored before the worker.
   */
  lemma MutationsInOrder(w: World, c: Config)
    requires c.worker != Some(c.service)
    ensures Adds(c, w, Deploy(w, c).0, 0, 10)
  {
    MainInOrder(w, c);
    var (w1, api, worker) := Main(w, c);
    NothingAdds(c, w1, 6, 8);
    var w2 := if api.done then w1 else RestoreAll(w1, c, WorkerPrevious(w, c), api, worker).0;
    RestoreAllInOrder(w1, c, WorkerPrevious(w, c), api, worker);
    AddsThrough(c, w, w1, w2, 0, 6, 8);
    TailInOrder(w2, c, api, worker, api.done, SaysRestoreFailed(Deploy(w, c).1));
    hide Main, RestoreAll, Cleanup, Adds;
    AddsThrough(c, w, w2, Deploy(w, c).0, 0, 8, 10);
  }

  // ------------------------------------------------------- restores and smokes

  ghost predicate IssuedSince(w: World, w': World, e: Entry)
  {
    w.issued <= w'.issued && e in w'.issued[|w.issued|..]
  }

  ghost predicate RoutedSince(w: World, w': World, a: Action) {
    IssuedSince(w, w', Entry(a, true)) || IssuedSince(w, w', Entry(a, false))
  }

  lemma SinceThrough(a: World, b: World, d: World, e: Entry)
    requires a.issued <= b.issued <= d.issued
    ensures IssuedSince(a, d, e) <==> IssuedSince(a, b, e) || IssuedSince(b, d, e)
  {
    assert d.issued[|a.issued|..] == b.issued[|a.issued|..] + d.issued[|b.issued|..];
  }

  lemma RoutedThrough(a: World, b: World, d: World, action: Action)
    requires a.issued <= b.issued <= d.issued
    ensures RoutedSince(a, d, action) <==> RoutedSince(a, b, action) || RoutedSince(b, d, action)
  {
    SinceThrough(a, b, d, Entry(action, true));
    SinceThrough(a, b, d, Entry(action, false));
  }

  /** An action of the plan is on the record exactly when execution got that far. */
  lemma ExecuteIssues(w: World, plan: seq<Action>, a: Action)
    ensures
      var (w', passed) := Execute(w, plan);
      && w.issued <= w'.issued
      && (RoutedSince(w, w', a) <==> exists i :: 0 <= i < |plan| && i <= passed && plan[i] == a)
      && (forall i :: 0 <= i < passed ==> IssuedSince(w, w', Entry(plan[i], true)))
  {
    ExecuteRecords(w, plan);
    var (w', passed) := Execute(w, plan);
    var added := w'.issued[|w.issued|..];
    assert added == Recorded(plan, passed);
    hide Execute;
    RecordedEntries(plan, passed, a);
    forall i | 0 <= i < passed ensures IssuedSince(w, w', Entry(plan[i], true)) {
      assert added[i] == Entry(plan[i], true);
    }
    hide Recorded;
  }

  lemma RecordedEntries(plan: seq<Action>, passed: nat, a: Action)
    requires passed <= |plan|
    ensures
      (Entry(a, true) in Recorded(plan, passed) || Entry(a, false) in Recorded(plan, passed))
      <==> exists i :: 0 <= i < |plan| && i <= passed && plan[i] == a
  {
    var r := Recorded(plan, passed);
    forall i | 0 <= i < |plan| && i <= passed && plan[i] == a
      ensures Entry(a, true) in r || Entry(a, false) in r
    {
      assert r[i] == Entry(a, i < passed);
    }
    forall e | e in r && e.action == a ensures exists i :: 0 <= i < |plan| && i <= passed && plan[i] == a {
      var k :| 0 <= k < |r| && r[k] == e;
      assert plan[k] == a;
    }
    assert Entry(a, true).action == a && Entry(a, false).action == a;
  }

  lemma RollOutIssues(w: World, service: Service, candidate: Revision, previous: Revision, a: Action)
    requires Routes(a)
    ensures
      var (w', p) := RollOut(w, service, candidate, previous);
      && w.issued <= w'.issued
      && (RoutedSince(w, w', a) <==> a == Promote(service, candidate) && p.attempted)
      && (p.done ==>
            && IssuedSince(w, w', Entry(SmokeCandidate(service), true))
            && IssuedSince(w, w', Entry(SmokeStable(service), true)))
  {
    var plan := RollOutPlan(service, candidate, previous);
    ExecuteIssues(w, plan, a);
    hide Execute, IssuedSince;
    assert plan[5] == Promote(service, candidate) && plan[4] == SmokeCandidate(service) &&
        plan[7] == SmokeStable(service);
  }

  lemma QuietAction(w: World, a: Action, route: Action)
    requires !Routes(a) && Routes(route)
    ensures w.issued <= Perform(w, a).issued && !RoutedSince(w, Perform(w, a), route)
  {
  }

  lemma RestoreIssues(w: World, service: Service, previous: Revision, a: Action)
    requires Routes(a)
    ensures
      var (w', ok) := RestoreService(w, service, previous);
      && w.issued <= w'.issued
      && (RoutedSince(w, w', a) <==> a == Restore(service, previous))
  {
    var plan := RestorePlan(service, previous);
    ExecuteIssues(w, plan, a);
    var w1 := Execute(w, plan).0;
    QuietAction(w1, Observe(service), a);
    RoutedThrough(w, w1, Perform(w1, Observe(service)), a);
    hide Execute, IssuedSince, RoutedSince, Perform;
    assert plan[0] == Restore(service, previous);
  }

  function Promotion(c: Config, s: Service): Action { Promote(s, Candidate(s, c.release)) }

  lemma ReadsRouteNothing(w: World, c: Config, a: Action)
    requires Routes(a)
    ensures var w1 := Execute(w, ReadPlan(c) + MigratePlan).0; w.issued <= w1.issued && !RoutedSince(w, w1, a)
  {
    hide Execute, IssuedSince, RoutedSince;
    var plan := ReadPlan(c) + MigratePlan;
    ExecuteIssues(w, plan, a);
    assert forall i :: 0 <= i < |plan| ==> !Routes(plan[i]);
  }

  lemma NothingRouted(w: World, a: Action)
    ensures !RoutedSince(w, w, a)
  {
  }

  /** The routing actions of the guarded part are the attempted promotions. */
  lemma MainIssues(w: World, c: Config, a: Action)
    requires Routes(a)
    ensures
      var (w1, api, worker) := Main(w, c);
      && w.issued <= w1.issued
      && (RoutedSince(w, w1, a) <==>
            || (api.attempted && a == Promotion(c, c.service))
            || (worker.attempted && c.worker.Some? && a == Promotion(c, c.worker.value)))
  {
    hide Execute, IssuedSince, RoutedSince, RollOut, ConfigOk, Candidate, WorkerPrevious, ReadPlan, MigratePlan;
    NothingRouted(w, a);
    if ConfigOk(c) {
      ReadsRouteNothing(w, c, a);
      var w1 := Execute(w, ReadPlan(c) + MigratePlan).0;
      var w2 := w1;
      if c.worker.Some? {
        var candidate := Candidate(c.worker.value, c.release);
        RollOutIssues(w1, c.worker.value, candidate, WorkerPrevious(w, c), a);
        w2 := RollOut(w1, c.worker.value, candidate, WorkerPrevious(w, c)).0;
        RoutedThrough(w, w1, w2, a);
      }
      var candidate := Candidate(c.service, c.release);
      RollOutIssues(w2, c.service, candidate, c.previous, a);
      RoutedThrough(w, w2, RollOut(w2, c.service, candidate, c.previous).0, a);
    }
  }

  lemma RestoreAllIssues(w: World, c: Config, workerPrevious: Revision, api: Progress, worker: Progress, a: Action)
    requires Routes(a)
    ensures
      var w2 := RestoreAll(w, c, workerPrevious, api, worker).0;
      && w.issued <= w2.issued
      && (RoutedSince(w, w2, a) <==>
            || (api.attempted && a == Restore(c.service, c.previous))
            || (worker.attempted && c.worker.Some? && a == Restore(c.worker.value, workerPrevious)))
  {
    RestoreIssues(w, c.service, c.previous, a);
    var w1 := if api.attempted then RestoreService(w, c.service, c.previous).0 else w;
    if c.worker.Some? {
      RestoreIssues(w1, c.worker.value, workerPrevious, a);
      RoutedThrough(w, w1, RestoreService(w1, c.worker.value, workerPrevious).0, a);
    }
    hide RestoreService;
  }

  lemma TailIssues(w: World, c: Config, api: Progress, worker: Progress, deployed: bool, restoreFailed: bool, a: Action)
    requires Routes(a)
    ensures
      var w' := Conclude(Cleanup(w, c, api, worker), deployed, restoreFailed).0;
      w.issued <= w'.issued && !RoutedSince(w, w', a)
  {
    var w1 := if api.created then Perform(w, RemoveTag(c.service)) else w;
    QuietAction(w, RemoveTag(c.service), a);
    var w2 := Cleanup(w, c, api, worker);
    if c.worker.Some? { QuietAction(w1, RemoveTag(c.worker.value), a); }
    RoutedThrough(w, w1, w2, a);
    QuietAction(w2, WriteSummary, a);
    RoutedThrough(w, w2, Perform(w2, WriteSummary), a);
    hide Perform;
  }

  /**
   * Exactly which traffic moves are issued: a promotion where it was attempted
   * and, when the release fails, one restore for each attempted promotion.
   */
  lemma RoutesIssued(w: World, c: Config, a: Action)
    requires Routes(a)
    ensures
      var (w', outcome) := Deploy(w, c);
      var (w1, api, worker) := Main(w, c);
      && (SaysDeployed(outcome) <==> api.done)
      && (RoutedSince(w, w', a) <==>
            || (api.attempted && a == Promotion(c, c.service))
            || (worker.attempted && c.worker.Some? && a == Promotion(c, c.worker.value))
            || (!api.done && api.attempted && a == Restore(c.service, c.previous))
            || (!api.done && worker.attempted && c.worker.Some? && a == Restore(c.worker.value, WorkerPrevious(w, c))))
  {
    MainIssues(w, c, a);
    var (w1, api, worker) := Main(w, c);
    RestoreAllIssues(w1, c, WorkerPrevious(w, c), api, worker, a);
    var w2 := if api.done then w1 else RestoreAll(w1, c, WorkerPrevious(w, c), api, worker).0;
    RoutedThrough(w, w1, w2, a);
    TailIssues(w2, c, api, worker, api.done, SaysRestoreFailed(Deploy(w, c).1), a);
    RoutedThrough(w, w2, Deploy(w, c).0, a);
    hide Main, RestoreAll, Cleanup, RoutedSince;
  }

  /** A failed release restores a service exactly when it tried to promote it; a successful one restores nothing. */
  lemma RestoredExactlyWhenPromoted(w: World, c: Config, s: Service, previous: Revision)
    requires c.worker != Some(c.service)
    requires (s == c.service && previous == c.previous) || (c.worker == Some(s) && previous == WorkerPrevious(w, c))
    ensures
      var (w', outcome) := Deploy(w, c);
      if SaysDeployed(outcome) then
        RoutedSince(w, w', Promotion(c, s)) && !RoutedSince(w, w', Restore(s, previous))
      else RoutedSince(w, w', Promotion(c, s)) <==> RoutedSince(w, w', Restore(s, previous))
  {
    RoutesIssued(w, c, Promotion(c, s));
    RoutesIssued(w, c, Restore(s, previous));
    MainTraffic(w, c);
    MainDone(w, c);
    hide Deploy, Main, RoutedSince, Candidate, WorkerPrevious, Serving;
  }

  lemma MainDone(w: World, c: Config)
    ensures
      var (w1, api, worker) := Main(w, c);
      && (api.done ==> api.attempted && (c.worker.Some? ==> worker.done && worker.attempted))
      && (worker.attempted ==> c.worker.Some?)
  {
    hide Execute;
  }

  lemma MainSmokes(w: World, c: Config)
    requires Main(w, c).1.done
    ensures
      var w1 := Main(w, c).0;
      && w.issued <= w1.issued
      && forall s :: s == c.service || c.worker == Some(s) ==>
           IssuedSince(w, w1, Entry(SmokeCandidate(s), true)) && IssuedSince(w, w1, Entry(SmokeStable(s), true))
  {
    var plan := ReadPlan(c) + MigratePlan;
    ExecuteIssues(w, plan, WriteSummary);
    hide Execute, IssuedSince, RoutedSince, RollOut;
    var w1 := Execute(w, plan).0;
    var w2 := w1;
    var route := Promotion(c, c.service);
    if c.worker.Some? {
      var candidate := Candidate(c.worker.value, c.release);
      RollOutIssues(w1, c.worker.value, candidate, WorkerPrevious(w, c), route);
      w2 := RollOut(w1, c.worker.value, candidate, WorkerPrevious(w, c)).0;
    }
    RollOutIssues(w2, c.service, Candidate(c.service, c.release), c.previous, route);
    var w3 := RollOut(w2, c.service, Candidate(c.service, c.release), c.previous).0;
    hide Candidate, WorkerPrevious;
    forall s | s == c.service || c.worker == Some(s)
      ensures IssuedSince(w, w3, Entry(SmokeCandidate(s), true)) && IssuedSince(w, w3, Entry(SmokeStable(s), true))
    {
      SinceThrough(w, w1, w2, Entry(SmokeCandidate(s), true));
      SinceThrough(w, w1, w2, Entry(SmokeStable(s), true));
      SinceThrough(w, w2, w3, Entry(SmokeCandidate(s), true));
      SinceThrough(w, w2, w3, Entry(SmokeStable(s), true));
    }
  }

  lemma TailKeepsRecord(w: World, c: Config, api: Progress, worker: Progress, deployed: bool, restoreFailed: bool)
    ensures w.issued <= Conclude(Cleanup(w, c, api, worker), deployed, restoreFailed).0.issued
  {
  }

  /** A release that says it deployed passed both smokes of every configured service. */
  lemma DeployedPassedSmokes(w: World, c: Config, s: Service)
    requires SaysDeployed(Deploy(w, c).1) && (s == c.service || c.worker == Some(s))
    ensures
      var w' := Deploy(w, c).0;
      IssuedSince(w, w', Entry(SmokeCandidate(s), true)) && IssuedSince(w, w', Entry(SmokeStable(s), true))
  {
    var (w1, api, worker) := Main(w, c);
    MainSmokes(w, c);
    TailKeepsRecord(w1, c, api, worker, true, false);
    SinceThrough(w, w1, Deploy(w, c).0, Entry(SmokeCandidate(s), true));
    SinceThrough(w, w1, Deploy(w, c).0, Entry(SmokeStable(s), true));
    hide Main, Cleanup, IssuedSince, RestoreAll;
  }

  /** The next `n` calls and checks do not fail on their own. */
  ghost predicate QuietFor(w: World, n: nat) {
    forall k :: |w.issued| <= k < |w.issued| + n ==> w.fates(k) == Succeeds
  }

  lemma {:induction false} QuietPlanPasses(w: World, plan: seq<Action>)
    requires QuietFor(w, |plan|)
    requires forall i :: 0 <= i < |plan| ==>
               && !Routes(plan[i])
               && (plan[i].CheckServing? ==> Serving(w, plan[i].service) == Some(plan[i].revision))
               && (plan[i].ReadServing? ==> Serving(w, plan[i].service).Some?)
    ensures Execute(w, plan).1 == |plan|
    decreases |plan|
  {
    if plan != [] {
      assert forall i :: 0 <= i < |plan[1..]| ==> plan[1..][i] == plan[i + 1];
      QuietPlanPasses(Perform(w, plan[0]), plan[1..]);
    }
  }

  lemma RollOutPasses(w: World, service: Service, candidate: Revision, previous: Revision)
    requires QuietFor(w, 8)
    requires Serving(w, service) == Some(previous)
    ensures RollOut(w, service, candidate, previous).1 == Progress(true, true, true)
    ensures RollOut(w, service, candidate, previous).0.fates == w.fates
    ensures |RollOut(w, service, candidate, previous).0.issued| == |w.issued| + 8
  {
    var plan := RollOutPlan(service, candidate, previous);
    var before, promote, after := plan[..5], plan[5], plan[6..];
    assert plan == before + [promote] + after;
    QuietPlanPasses(w, before);
    var w1 := Execute(w, before).0;
    ExecuteRecords(w, before);
    ExecuteSplits(w, before, [promote]);
    var w2 := Perform(w1, promote);
    assert Execute(w1, [promote]) == (w2, 1);
    QuietPlanPasses(w2, after);
    ExecuteSplits(w, before + [promote], after);
    ExecuteRecords(w, plan);
    hide Execute, Perform;
  }

  lemma FirstActionIssued(w: World, plan: seq<Action>)
    requires plan != []
    ensures
      var w' := Execute(w, plan).0;
      |w.issued| < |w'.issued| && w.issued <= w'.issued && w'.issued[|w.issued|].action == plan[0]
  {
    ExecuteRecords(w, plan);
    hide Execute;
  }

  /** Some mutation is issued twice between `w` and `w'`. */
  ghost predicate MutatesTwice(w: World, w': World) {
    exists i, j :: |w.issued| <= i < j < |w'.issued|
      && w'.issued[i].action == w'.issued[j].action && Mutates(w'.issued[i].action)
  }

  lemma OrderedOnce(c: Config, w: World, w': World)
    requires Adds(c, w, w', 0, 10)
    ensures !MutatesTwice(w, w')
  {
    forall i, j | |w.issued| <= i < j < |w'.issued| && Mutates(w'.issued[i].action)
      ensures w'.issued[i].action != w'.issued[j].action
    {
      var a, b := Added(w, w')[i - |w.issued|], Added(w, w')[j - |w.issued|];
      assert a == w'.issued[i] && b == w'.issued[j];
      assert Mutates(b.action) ==> Place(c, a.action) < Place(c, b.action);
    }
  }

  lemma StoppedRestoreAdds(w: World, c: Config, previous: Revision, worker: Progress)
    requires c.worker == Some(c.service)
    ensures Adds(c, w, RestoreAll(w, c, previous, NotReached, worker).0, 6, 8)
  {
    hide Adds, RestoreService;
    NothingAdds(c, w, 6, 8);
    if worker.attempted {
      var w1 := RestoreService(w, c.service, previous).0;
      RestoreServiceInOrder(c, w, c.service, previous, 6);
      NothingAdds(c, w1, 7, 8);
      AddsThrough(c, w, w1, w1, 6, 7, 8);
    }
  }

  lemma StoppedTailAdds(w: World, c: Config, worker: Progress)
    requires c.worker == Some(c.service)
    ensures Adds(c, w, Perform(Cleanup(w, c, NotReached, worker), WriteSummary), 8, 10)
  {
    hide Adds, Perform;
    NothingAdds(c, w, 8, 10);
    if worker.created { PerformAdds(c, w, RemoveTag(c.service), 8, 10); }
    var w1 := Cleanup(w, c, NotReached, worker);
    PerformAdds(c, w1, WriteSummary, 10, 10);
    AddsThrough(c, w, w1, Perform(w1, WriteSummary), 8, 10, 10);
  }

  /** A release whose guarded part fails restores, cleans up and writes its summary. */
  lemma FailedDeploy(w: World, c: Config)
    requires !Main(w, c).1.done
    ensures
      var (w1, api, worker) := Main(w, c);
      var w2 := RestoreAll(w1, c, WorkerPrevious(w, c), api, worker).0;
      Deploy(w, c).0 == Perform(Cleanup(w2, c, api, worker), WriteSummary)
  {
    hide Main, RestoreAll, Cleanup, Perform, WorkerPrevious;
  }

  /** With one service in both roles, a roll-out that stops at the worker still keeps the order. */
  lemma StoppedAtWorkerInOrder(w: World, c: Config)
    requires c.worker == Some(c.service) && !Main(w, c).2.done
    ensures Adds(c, w, Deploy(w, c).0, 0, 10)
  {
    hide *;
    StoppedMainInOrder(w, c);
    var (w1, api, worker) := Main(w, c);
    NotReachedIs();
    FailedDeploy(w, c);
    var w2 := RestoreAll(w1, c, WorkerPrevious(w, c), api, worker).0;
    StoppedRestoreAdds(w1, c, WorkerPrevious(w, c), worker);
    StoppedTailAdds(w2, c, worker);
    AddsThrough(c, w, w1, w2, 0, 6, 8);
    AddsThrough(c, w, w2, Deploy(w, c).0, 0, 8, 10);
  }

  lemma NotReachedIs()
    ensures !NotReached.done
  {
  }

  lemma StoppedMainInOrder(w: World, c: Config)
    requires c.worker == Some(c.service) && !Main(w, c).2.done
    ensures var (w1, api, worker) := Main(w, c); api == NotReached && Adds(c, w, w1, 0, 6)
  {
    NothingAdds(c, w, 0, 6);
    if ConfigOk(c) {
      hide Execute, Adds, PlanInOrder, RollOut, ConfigOk;
      ReadsInOrder(c);
      ExecuteAdds(c, w, ReadPlan(c) + MigratePlan, 0, 2);
      hide ReadPlan;
      var w1 := Execute(w, ReadPlan(c) + MigratePlan).0;
      NothingAdds(c, w1, 2, 6);
      AddsThrough(c, w, w1, w1, 0, 2, 6);
      var candidate := Candidate(c.service, c.release);
      RollOutInOrder(c, w1, c.service, candidate, WorkerPrevious(w, c), 4);
      var w2 := RollOut(w1, c.service, candidate, WorkerPrevious(w, c)).0;
      hide Place, Candidate, WorkerPrevious;
      NothingAdds(c, w1, 2, 4);
      AddsThrough(c, w1, w1, w2, 2, 4, 6);
      AddsThrough(c, w, w1, w2, 0, 2, 6);
    }
  }

  lemma DeployExtendsMain(w: World, c: Config)
    ensures Main(w, c).0.issued <= Deploy(w, c).0.issued
  {
    var (w1, api, worker) := Main(w, c);
    var w2 := RestoreAll(w1, c, WorkerPrevious(w, c), api, worker).0;
    RestoreAllIssues(w1, c, WorkerPrevious(w, c), api, worker, Promotion(c, c.service));
    TailKeepsRecord(w1, c, api, worker, true, false);
    TailKeepsRecord(w2, c, api, worker, false, SaysRestoreFailed(Deploy(w, c).1));
    hide Main, RestoreAll, Cleanup, RoutedSince;
  }

  /** With one service in both roles, once the worker's roll-out is through the candidate is deployed again. */
  lemma DeploysAgain(w: World, c: Config)
    requires c.worker == Some(c.service) && Main(w, c).2.done
    ensures MutatesTwice(w, Deploy(w, c).0)
  {
    var plan := ReadPlan(c) + MigratePlan;
    var w1 := Execute(w, plan).0;
    ExecuteRecords(w, plan);
    hide Execute, ConfigOk;
    var candidate := Candidate(c.service, c.release);
    FirstActionIssued(w1, RollOutPlan(c.service, candidate, WorkerPrevious(w, c)));
    var w2 := RollOut(w1, c.service, candidate, WorkerPrevious(w, c)).0;
    FirstActionIssued(w2, RollOutPlan(c.service, candidate, c.previous));
    var record := Main(w, c).0.issued;
    assert record == RollOut(w2, c.service, candidate, c.previous).0.issued;
    assert record[|w1.issued|] == w2.issued[|w1.issued|];
    DeployExtendsMain(w, c);
    var all := Deploy(w, c).0.issued;
    assert all[|w1.issued|] == record[|w1.issued|] && all[|w2.issued|] == record[|w2.issued|];
    assert all[|w1.issued|].action == all[|w2.issued|].action == DeployCandidate(c.service, candidate);
    hide Deploy, Main, RollOut;
  }

  /**
   * Exactly when some mutation is issued twice: when one service is configured in both
   * roles and its roll-out as the worker gets through, so that it is rolled out again.
   */
  lemma MutatesTwiceIff(w: World, c: Config)
    ensures MutatesTwice(w, Deploy(w, c).0) <==> c.worker == Some(c.service) && Main(w, c).2.done
  {
    hide Deploy, Main, Adds, MutatesTwice;
    if c.worker != Some(c.service) {
      MutationsInOrder(w, c);
      OrderedOnce(c, w, Deploy(w, c).0);
    } else if !Main(w, c).2.done {
      StoppedAtWorkerInOrder(w, c);
      OrderedOnce(c, w, Deploy(w, c).0);
    } else {
      DeploysAgain(w, c);
    }
  }

  /** One of those: with one service in both roles, a release in which nothing fails deploys its candidate twice. */
  lemma OneServiceTwice(w: World, c: Config)
    requires c.worker == Some(c.service) && ConfigOk(c)
    requires forall n :: w.fates(n) == Succeeds
    requires Serving(w, c.service) == Some(c.previous)
    ensures MutatesTwice(w, Deploy(w, c).0)
  {
    var plan := ReadPlan(c) + MigratePlan;
    QuietPlanPasses(w, plan);
    var w1 := Execute(w, plan).0;
    ExecuteRecords(w, plan);
    ExecuteKeepsTraffic(w, plan, c.service);
    RollOutPasses(w1, c.service, Candidate(c.service, c.release), c.previous);
    hide Execute, ConfigOk, RollOut, MutatesTwice;
    DeploysAgain(w, c);
  }

  // ------------------------------------------------------------ a lost summary

  /** A release in which only the write of the summary fails: it has moved the traffic, and raises. */
  lemma OnlyTheSummaryFails(w: World, c: Config)
    requires c.worker.None? && ConfigOk(c) && Serving(w, c.service) == Some(c.previous)
    requires QuietFor(w, 14) && w.fates(|w.issued| + 14) != Succeeds
    ensures
      var (w', outcome) := Deploy(w, c);
      outcome == SummaryFailed(true, false) && Serving(w', c.service) == Some(Candidate(c.service, c.release))
  {
    hide *;
    QuietMain(w, c);
    QuietTail(w, c);
    SummaryLostIff(w, c);
    SaysSo(w, c);
    DeployedServesCandidates(w, c);
  }

  lemma SaysSo(w: World, c: Config)
    ensures Deploy(w, c).1 == SummaryFailed(true, false) ==> SaysDeployed(Deploy(w, c).1)
  {
  }

  /** With no worker and nothing failing, the guarded part passes after 13 actions. */
  lemma QuietMain(w: World, c: Config)
    requires c.worker.None? && ConfigOk(c) && Serving(w, c.service) == Some(c.previous) && QuietFor(w, 14)
    ensures
      var (w2, api, worker) := Main(w, c);
      && api == Progress(true, true, true) && worker == NotReached
      && |w2.issued| == |w.issued| + 13 && w2.fates == w.fates
  {
    hide Execute, ConfigOk, RollOut, Candidate, Serving;
    var plan := ReadPlan(c) + MigratePlan;
    assert |plan| == 5;
    QuietPlanPasses(w, plan);
    ExecuteRecords(w, plan);
    ExecuteKeepsTraffic(w, plan, c.service);
    RollOutPasses(Execute(w, plan).0, c.service, Candidate(c.service, c.release), c.previous);
  }

  lemma QuietTail(w: World, c: Config)
    requires
      var (w2, api, worker) := Main(w, c);
      && api == Progress(true, true, true) && worker == NotReached
      && |w2.issued| == |w.issued| + 13 && w2.fates == w.fates
    requires w.fates(|w.issued| + 14) != Succeeds
    ensures var (w2, api, worker) := Main(w, c); !Passes(Cleanup(w2, c, api, worker), WriteSummary)
  {
    hide Main;
  }

  /** Such a release exists: the property that raising means nothing was deployed fails here. */
  lemma RaisingAfterDeploying()
    ensures
      var c := Config("api", "api-1", None, "2", true);
      var w := World(map["api" := Some("api-1")], n => if n == 14 then FailsBefore else Succeeds, []);
      var (w', outcome) := Deploy(w, c);
      && outcome == SummaryFailed(true, false)
      && Serving(w, "api") == Some("api-1") && Serving(w', "api") == Some("api-2")
  {
    var c := Config("api", "api-1", None, "2", true);
    var w := World(map["api" := Some("api-1")], n => if n == 14 then FailsBefore else Succeeds, []);
    assert Candidate("api", "2") == "api-2";
    assert ConfigOk(c);
    OnlyTheSummaryFails(w, c);
    hide Deploy;
  }

  // ------------------------------------------------------------ the script

  /** One action off the front of a plan. */
  lemma Advance(w: World, plan: seq<Action>)
    requires plan != []
    ensures Passes(w, plan[0]) ==>
              Execute(w, plan) == (Execute(Perform(w, plan[0]), plan[1..]).0,
                                   Execute(Perform(w, plan[0]), plan[1..]).1 + 1)
    ensures !Passes(w, plan[0]) ==> Execute(w, plan) == (Perform(w, plan[0]), 0)
  {
  }

  /** What the reads observe is the traffic at the start, and they leave it there. */
  lemma ReadsSeeTraffic(w: World, c: Config)
    ensures
      var (w', passed) := Execute(w, ReadPlan(c));
      passed == |ReadPlan(c)| && c.worker.Some? ==>
        && Serving(w', c.worker.value).Some? && c.worker.value in w'.traffic
        && w'.traffic[c.worker.value] == Some(WorkerPrevious(w, c))
  {
    var plan := ReadPlan(c);
    assert forall i :: 0 <= i < |plan| ==> !Routes(plan[i]);
    if c.worker.Some? && Execute(w, plan).1 == |plan| {
      ExecuteKeepsTraffic(w, plan, c.worker.value);
      assert plan[2] == ReadServing(c.worker.value);
      PassedChecksHold(w, plan, 2);
    }
  }

  /** The cloud the script drives: traffic that calls move, and the record of what was issued. */
  class Cloud {
    var traffic: map<Service, Option<Revision>>
    var issued: seq<Entry>
    const fates: nat -> Fate

    constructor (initial: map<Service, Option<Revision>>, schedule: nat -> Fate)
      ensures Now() == World(initial, schedule, [])
    {
      traffic, issued, fates := initial, [], schedule;
    }

    function Now(): World
      reads this
    {
      World(traffic, fates, issued)
    }

    /** One call or check; `ok` is false where the script would see an exception. */
    method Do(a: Action) returns (ok: bool)
      modifies this
      ensures Now() == Perform(old(Now()), a) && ok == Passes(old(Now()), a)
    {
      var fate := fates(|issued|);
      ok := fate == Succeeds;
      if a.CheckServing? { ok := ok && a.service in traffic && traffic[a.service] == Some(a.revision); }
      if a.ReadServing? { ok := ok && a.service in traffic && traffic[a.service].Some?; }
      if (a.Promote? || a.Restore?) && fate != FailsBefore { traffic := traffic[a.service := Some(a.revision)]; }
      issued := issued + [Entry(a, ok)];
    }

    /** `plan`, issued from its start until something fails. */
    method DoAll(plan: seq<Action>) returns (passed: nat)
      modifies this
      ensures (Now(), passed) == Execute(old(Now()), plan)
    {
      passed := 0;
      while passed < |plan|
        invariant passed <= |plan|
        invariant Execute(old(Now()), plan) == (Execute(Now(), plan[passed..]).0,
                                                passed + Execute(Now(), plan[passed..]).1)
      {
        assert plan[passed..][1..] == plan[passed + 1..];
        Advance(Now(), plan[passed..]);
        var ok := Do(plan[passed]);
        if !ok { return; }
        passed := passed + 1;
      }
    }

    /** One service's part of the script; `attempted` is set just before the traffic is moved. */
    method RollOutService(service: Service, candidate: Revision, previous: Revision)
      returns (attempted: bool, done: bool)
      modifies this
      ensures (Now(), Progress(true, attempted, done)) == RollOut(old(Now()), service, candidate, previous)
    {
      attempted, done := false, false;
      ghost var start := Now();
      ghost var plan := RollOutPlan(service, candidate, previous);
      ExecuteSplits(start, plan[..5], plan[5..]);
      assert plan == plan[..5] + plan[5..];
      var passed := DoAll([DeployCandidate(service, candidate), CheckImage(service, candidate),
                           CheckServing(service, previous), TagUrl(service), SmokeCandidate(service)]);
      assert plan[..5] == [DeployCandidate(service, candidate), CheckImage(service, candidate),
                           CheckServing(service, previous), TagUrl(service), SmokeCandidate(service)];
      if passed < 5 { return; }
      attempted := true;
      ghost var middle := Now();
      assert plan[5..][1..] == plan[6..];
      Advance(middle, plan[5..]);
      var promoted := Do(Promote(service, candidate));
      if !promoted { return; }
      passed := DoAll([CheckServing(service, candidate), SmokeStable(service)]);
      assert plan[6..] == [CheckServing(service, candidate), SmokeStable(service)];
      done := passed == 2;
    }

    /** The handler's part for one service. */
    method Restored(service: Service, previous: Revision) returns (ok: bool)
      modifies this
      ensures (Now(), ok) == RestoreService(old(Now()), service, previous)
    {
      var passed := DoAll(RestorePlan(service, previous));
      ok := passed == 3;
      if !ok { var seen := Do(Observe(service)); }
    }

    /** The whole script, with the flags it keeps to know what to undo. */
    method RunScript(c: Config) returns (outcome: Outcome)
      modifies this
      ensures (Now(), outcome) == Deploy(old(Now()), c)
    {
      var workerCreated, workerAttempted, apiCreated, apiAttempted := false, false, false, false;
      var succeeded, workerDone, restoreFailed := false, false, false;
      var workerPrevious: Revision := "";
      label Attempt: {
        if !ConfigOk(c) { break Attempt; }
        ExecuteSplits(Now(), ReadPlan(c), MigratePlan);
        ReadsSeeTraffic(Now(), c);
        var passed := DoAll(ReadPlan(c));
        if passed < |ReadPlan(c)| { break Attempt; }
        if c.worker.Some? { workerPrevious := traffic[c.worker.value].value; }
        passed := DoAll(MigratePlan);
        if passed < 3 { break Attempt; }
        if c.worker.Some? {
          workerCreated := true;
          workerAttempted, workerDone := RollOutService(c.worker.value, Candidate(c.worker.value, c.release),
                                                        workerPrevious);
          if !workerDone { break Attempt; }
        }
        apiCreated := true;
        apiAttempted, succeeded := RollOutService(c.service, Candidate(c.service, c.release), c.previous);
      }
      ghost var api := Progress(apiCreated, apiAttempted, succeeded);
      ghost var worker := Progress(workerCreated, workerAttempted, workerDone);
      assert (Now(), api, worker) == Main(old(Now()), c);
      MainDone(old(Now()), c);
      if !succeeded {
        if apiAttempted {
          var ok := Restored(c.service, c.previous);
          restoreFailed := !ok;
        }
        if workerAttempted {
          var ok := Restored(c.worker.value, workerPrevious);
          restoreFailed := restoreFailed || !ok;
        }
      }
      if apiCreated { var removed := Do(RemoveTag(c.service)); }
      if workerCreated { var removed := Do(RemoveTag(c.worker.value)); }
      var written := Do(WriteSummary);
      outcome :=
        if !written then SummaryFailed(succeeded, restoreFailed)
        else if succeeded then Deployed
        else DeployFailed(restoreFailed);
    }
  }
}
