/**
 * The circuit breaker around the span exporter: failures are counted, and after enough
 * in a row batches are dropped until a cooldown has passed.
 */
module ResilientExporter {
  import opened Prelude

  datatype Config = Config(maxFailures: int, cooldown: real)

  datatype State = State(
    attempts: nat,
    failures: nat,
    dropped: nat,
    consecutive: nat,
    openUntil: real
  )

  const Fresh := State(0, 0, 0, 0, 0.0)

  /**
   * One export call: the batch (its size, or None when it has no size), whether the
   * delegate takes it, and the two clock readings the call may make.
   */
  datatype Call = Call(size: Option<nat>, succeeds: bool, before: real, after: real)

  /** Whether the circuit is open, and the state after asking. */
  function CircuitOpen(c: Config, s: State, now: real): (bool, State) {
    if s.consecutive < c.maxFailures then (false, s)
    else if now >= s.openUntil then (false, s.(consecutive := 0))
    else (true, s)
  }

  function Weight(call: Call): nat {
    if call.size.Some? then call.size.value else 1
  }

  function Export(c: Config, s: State, call: Call): State {
    var (open, t) := CircuitOpen(c, s, call.before);
    if open then t.(dropped := t.dropped + Weight(call))
    else
      var tried := t.(attempts := t.attempts + 1);
      if call.succeeds then tried.(consecutive := 0)
      else
        var failed := tried.(failures := tried.failures + 1, consecutive := tried.consecutive + 1);
        if failed.consecutive >= c.maxFailures then failed.(openUntil := call.after + c.cooldown) else failed
  }

  function Run(c: Config, start: State, calls: seq<Call>): State {
    if calls == [] then start
    else Export(c, Run(c, start, calls[..|calls| - 1]), calls[|calls| - 1])
  }

  // --------------------------------------------------------------------- conservation

  /** The batches handed to the delegate, and the batches that were not. */
  function Passed(c: Config, start: State, calls: seq<Call>): nat {
    if calls == [] then 0
    else
      var last := |calls| - 1;
      Passed(c, start, calls[..last])
      + if CircuitOpen(c, Run(c, start, calls[..last]), calls[last].before).0 then 0 else Weight(calls[last])
  }

  function Offered(calls: seq<Call>): nat {
    if calls == [] then 0 else Offered(calls[..|calls| - 1]) + Weight(calls[|calls| - 1])
  }

  /** Every span handed in was handed to the delegate or counted as dropped. */
  lemma {:induction false} NothingVanishes(c: Config, start: State, calls: seq<Call>)
    ensures Offered(calls) == Passed(c, start, calls) + (Run(c, start, calls).dropped - start.dropped)
  {
    if calls != [] { NothingVanishes(c, start, calls[..|calls| - 1]); }
  }

  /** The calls that reached a delegate that refused them. */
  function Refused(c: Config, start: State, calls: seq<Call>): nat {
    if calls == [] then 0
    else
      var last := |calls| - 1;
      Refused(c, start, calls[..last])
      + if !CircuitOpen(c, Run(c, start, calls[..last]), calls[last].before).0 && !calls[last].succeeds then 1 else 0
  }

  /** The counters tell what happened: failures are the refused attempts, and the streak is part of them. */
  lemma {:induction false} FailuresAreCounted(c: Config, calls: seq<Call>)
    ensures var s := Run(c, Fresh, calls);
            s.failures == Refused(c, Fresh, calls) <= s.attempts && s.consecutive <= s.failures
  {
    if calls != [] { FailuresAreCounted(c, calls[..|calls| - 1]); }
  }

  /** The call whose failure opened, or would open, the circuit. */
  ghost predicate OpenedBy(c: Config, s: State, calls: seq<Call>, k: nat) {
    k < |calls| && !calls[k].succeeds && s.openUntil == calls[k].after + c.cooldown
  }

  lemma {:induction false} StreaksOpen(c: Config, calls: seq<Call>)
    requires c.maxFailures >= 1
    ensures var s := Run(c, Fresh, calls);
            s.consecutive >= c.maxFailures ==> exists k: nat :: OpenedBy(c, s, calls, k)
  {
    if calls != [] {
      var last := |calls| - 1;
      var s, t := Run(c, Fresh, calls[..last]), Run(c, Fresh, calls);
      StreaksOpen(c, calls[..last]);
      if t.consecutive >= c.maxFailures {
        if t.attempts > s.attempts {
          assert OpenedBy(c, t, calls, last);
        } else {
          var k: nat :| OpenedBy(c, s, calls[..last], k);
          assert OpenedBy(c, t, calls, k);
        }
      }
    }
  }

  /** Spans are only ever dropped within one cooldown of a call that failed, at the end of a full streak. */
  lemma DropsOnlyInCooldown(c: Config, calls: seq<Call>, now: real)
    requires c.maxFailures >= 1 && CircuitOpen(c, Run(c, Fresh, calls), now).0
    ensures Run(c, Fresh, calls).consecutive >= c.maxFailures
    ensures exists k :: 0 <= k < |calls| && !calls[k].succeeds && now < calls[k].after + c.cooldown
  {
    StreaksOpen(c, calls);
    hide Run;
    var k: nat :| OpenedBy(c, Run(c, Fresh, calls), calls, k);
    assert !calls[k].succeeds && now < calls[k].after + c.cooldown;
  }

  // ------------------------------------------------------------- the breaker, exactly

  /** The failed attempts at the end, back to the last one that succeeded. */
  function Streak(tried: seq<Call>): (n: nat)
    ensures n <= |tried|
  {
    if tried == [] || tried[|tried| - 1].succeeds then 0 else 1 + Streak(tried[..|tried| - 1])
  }

  /** The last attempt ended a group of `maxFailures` failures in a row, less than a cooldown ago. */
  predicate HeldBack(c: Config, tried: seq<Call>, now: real)
    requires c.maxFailures >= 1
  {
    && Streak(tried) > 0 && Streak(tried) % c.maxFailures == 0
    && now < tried[|tried| - 1].after + c.cooldown
  }

  /** The calls that are to reach the delegate, by that rule alone. */
  function Tried(c: Config, calls: seq<Call>): seq<Call>
    requires c.maxFailures >= 1
  {
    if calls == [] then []
    else
      var tried, last := Tried(c, calls[..|calls| - 1]), calls[|calls| - 1];
      if HeldBack(c, tried, last.before) then tried else tried + [last]
  }

  /** The counters, told from the attempts: the streak counts from the last group's end. */
  ghost predicate Tells(c: Config, s: State, tried: seq<Call>)
    requires c.maxFailures >= 1
  {
    && s.attempts == |tried| && s.failures == Count(tried, (call: Call) => !call.succeeds)
    && s.consecutive == (if Streak(tried) == 0 then 0 else (Streak(tried) - 1) % c.maxFailures + 1)
    && (Streak(tried) > 0 && Streak(tried) % c.maxFailures == 0 ==>
          s.openUntil == tried[|tried| - 1].after + c.cooldown)
  }

  lemma GroupEnds(n: nat, g: nat)
    requires n >= 1 && g >= 1
    ensures (n - 1) % g + 1 <= g
    ensures (n - 1) % g + 1 == g <==> n % g == 0
    ensures n % g == if (n - 1) % g + 1 == g then 0 else (n - 1) % g + 1
  {
    NextDivMod(n - 1, g);
  }

  lemma OpenTells(c: Config, s: State, tried: seq<Call>, now: real)
    requires c.maxFailures >= 1 && Tells(c, s, tried)
    ensures CircuitOpen(c, s, now).0 <==> HeldBack(c, tried, now)
    ensures !CircuitOpen(c, s, now).0 ==>
              CircuitOpen(c, s, now).1.consecutive == Streak(tried) % c.maxFailures
  {
    if Streak(tried) > 0 { GroupEnds(Streak(tried), c.maxFailures); }
    hide Count;
  }

  lemma AttemptTells(c: Config, s: State, tried: seq<Call>, call: Call)
    requires c.maxFailures >= 1 && Tells(c, s, tried) && !HeldBack(c, tried, call.before)
    ensures Tells(c, Export(c, s, call), tried + [call])
  {
    OpenTells(c, s, tried, call.before);
    hide Count, HeldBack, CircuitOpen;
    CountAppend(tried, call, (x: Call) => !x.succeeds);
    assert (tried + [call])[..|tried|] == tried;
    GroupEnds(Streak(tried) + 1, c.maxFailures);
  }

  /**
   * The breaker is exactly this rule: a call reaches the delegate unless the attempts before it
   * end with whole groups of failures and the last is less than a cooldown ago. The counters
   * tell the attempts, the failures among them, and the spans of all other calls.
   */
  lemma {:induction false} BreakerIsExact(c: Config, calls: seq<Call>, now: real)
    requires c.maxFailures >= 1
    ensures
      var s, tried := Run(c, Fresh, calls), Tried(c, calls);
      && s.attempts == |tried| && s.failures == Count(tried, (call: Call) => !call.succeeds)
      && s.dropped == Offered(calls) - Offered(tried)
      && (CircuitOpen(c, s, now).0 <==> HeldBack(c, tried, now))
  {
    TellsTheRun(c, calls);
    OpenTells(c, Run(c, Fresh, calls), Tried(c, calls), now);
  }

  lemma {:induction false} TellsTheRun(c: Config, calls: seq<Call>)
    requires c.maxFailures >= 1
    ensures
      var s, tried := Run(c, Fresh, calls), Tried(c, calls);
      Tells(c, s, tried) && s.dropped == Offered(calls) - Offered(tried)
  {
    hide Tells, HeldBack;
    if calls == [] {
      FreshTells(c);
    } else {
      var last := |calls| - 1;
      TellsTheRun(c, calls[..last]);
      var s, tried := Run(c, Fresh, calls[..last]), Tried(c, calls[..last]);
      OpenTells(c, s, tried, calls[last].before);
      if HeldBack(c, tried, calls[last].before) {
        DropTells(c, s, tried, calls[last]);
      } else {
        AttemptTells(c, s, tried, calls[last]);
        assert (tried + [calls[last]])[..|tried|] == tried;
      }
    }
  }

  lemma FreshTells(c: Config)
    requires c.maxFailures >= 1
    ensures Tells(c, Fresh, [])
  {
  }

  lemma DropTells(c: Config, s: State, tried: seq<Call>, call: Call)
    requires c.maxFailures >= 1 && Tells(c, s, tried) && CircuitOpen(c, s, call.before).0
    ensures Tells(c, Export(c, s, call), tried)
  {
    hide Count, Streak;
  }

  // -------------------------------------------------------------------- attempt bound

  /** Clock readings never decrease, within and across calls, and none lies outside the stretch. */
  predicate Clocked(calls: seq<Call>, from: real, to: real) {
    && (forall i :: 0 <= i < |calls| ==> from <= calls[i].before <= calls[i].after <= to)
    && (forall i, j :: 0 <= i < j < |calls| ==> calls[i].after <= calls[j].before)
  }

  predicate AllFail(calls: seq<Call>) {
    forall i :: 0 <= i < |calls| ==> !calls[i].succeeds
  }

  function Group(c: Config): (g: nat)
    ensures g >= 1
  {
    if c.maxFailures >= 1 then c.maxFailures else 1
  }

  function LastReading(calls: seq<Call>, from: real): real {
    if calls == [] then from else calls[|calls| - 1].after
  }

  /** The moment `n` cooldowns after `from`. */
  function Later(c: Config, from: real, n: int): real { from + n as real * c.cooldown }

  /** The attempts of `n` full groups. */
  function Attempts(c: Config, n: int): int { Group(c) * n }

  lemma OneMore(c: Config, from: real, n: int)
    ensures Later(c, from, n + 1) == Later(c, from, n) + c.cooldown
    ensures Attempts(c, n + 1) == Attempts(c, n) + Group(c)
  {
    assert (n + 1) as real * c.cooldown == n as real * c.cooldown + c.cooldown;
  }

  /**
   * `made` attempts into a stretch of failures that began at `from`, with the clock at
   * `now` and `trips` cooldowns behind: every full group of attempts costs a cooldown.
   */
  ghost predicate Paced(c: Config, s: State, made: nat, trips: int, from: real, now: real) {
    && now >= Later(c, from, trips) && now >= from
    && if s.consecutive < Group(c) then
         trips >= 0 && made <= Attempts(c, trips) + s.consecutive
       else
         && made <= Attempts(c, trips + 1)
         && (now >= Later(c, from, trips + 1) || s.openUntil >= Later(c, from, trips + 1))
         && trips >= -1
  }

  lemma PacedStep(c: Config, s: State, call: Call, made: nat, trips: int, from: real, now: real) returns (more: int)
    requires c.cooldown > 0.0 && Paced(c, s, made, trips, from, now)
    requires !call.succeeds && now <= call.before <= call.after
    ensures var t := Export(c, s, call);
            t.attempts >= s.attempts && Paced(c, t, made + (t.attempts - s.attempts), more, from, call.after)
  {
    hide Later, Attempts;
    var (open, _) := CircuitOpen(c, s, call.before);
    more := if !open && s.consecutive >= Group(c) then trips + 1 else trips;
    OneMore(c, from, trips);
    OneMore(c, from, trips + 1);
  }

  lemma PacedStart(c: Config, s: State, from: real) returns (trips: int)
    requires c.cooldown > 0.0
    ensures Paced(c, s, 0, trips, from, from)
  {
    trips := if s.consecutive < Group(c) then 0 else -1;
  }

  lemma {:induction false} PacedRun(c: Config, start: State, calls: seq<Call>, from: real, to: real)
    returns (trips: int)
    requires c.cooldown > 0.0 && AllFail(calls) && Clocked(calls, from, to)
    ensures var s := Run(c, start, calls);
            && s.attempts >= start.attempts
            && Paced(c, s, s.attempts - start.attempts, trips, from, LastReading(calls, from))
  {
    hide Paced;
    if calls == [] {
      trips := PacedStart(c, start, from);
    } else {
      var last := |calls| - 1;
      trips := PacedRun(c, start, calls[..last], from, to);
      var s := Run(c, start, calls[..last]);
      trips := PacedStep(c, s, calls[last], s.attempts - start.attempts, trips, from, LastReading(calls[..last], from));
    }
  }

  /**
   * Through any stretch of failures lasting from `from` to `to`, from any state, the
   * delegate is tried at most max(1, maxFailures) times per started cooldown.
   */
  lemma AttemptsAreBounded(c: Config, start: State, calls: seq<Call>, from: real, to: real)
    requires c.cooldown > 0.0 && from <= to && AllFail(calls) && Clocked(calls, from, to)
    ensures Run(c, start, calls).attempts - start.attempts <= Attempts(c, 1 + Cooldowns(c, to - from))
  {
    var trips := PacedRun(c, start, calls, from, to);
    var s := Run(c, start, calls);
    assert LastReading(calls, from) <= to;
    hide *;
    PacedMade(c, s, s.attempts - start.attempts, trips, from, LastReading(calls, from));
    LaterIsWithin(c, trips, from, to);
    GroupsGrow(c, trips + 1, 1 + Cooldowns(c, to - from));
  }

  /** The whole cooldowns in a stretch. */
  function Cooldowns(c: Config, elapsed: real): int
    requires c.cooldown > 0.0
  {
    (elapsed / c.cooldown).Floor
  }

  lemma PacedMade(c: Config, s: State, made: nat, trips: int, from: real, now: real)
    requires Paced(c, s, made, trips, from, now)
    ensures made <= Attempts(c, trips + 1) && now >= Later(c, from, trips)
  {
    hide Attempts, Later;
    OneMore(c, from, trips);
  }

  lemma LaterIsWithin(c: Config, n: int, from: real, to: real)
    requires c.cooldown > 0.0 && Later(c, from, n) <= to
    ensures n <= Cooldowns(c, to - from)
  {
    var elapsed := to - from;
    assert elapsed / c.cooldown * c.cooldown == elapsed;
    assert elapsed / c.cooldown >= n as real;
  }

  lemma GroupsGrow(c: Config, a: int, b: int)
    ensures a <= b ==> Attempts(c, a) <= Attempts(c, b)
  {
    Multiples(Group(c), a, b);
  }

  /** A failing call at the end of the `k`-th cooldown. */
  function Burst(c: Config, k: nat): Call {
    Call(Some(1), false, Later(c, 0.0, k), Later(c, 0.0, k))
  }

  /** The failing calls that use the whole bound: a full group at the start and at each cooldown's end. */
  function Bursts(c: Config, n: nat): (calls: seq<Call>)
    ensures |calls| == n
  {
    seq(n, i requires 0 <= i < n => Burst(c, i / Group(c)))
  }

  /** After `q` full groups and `r` more attempts of the burst schedule. */
  ghost predicate Bursting(c: Config, s: State, q: nat, r: nat) {
    && s.attempts == Group(c) * q + r
    && if q > 0 && r == 0 then s.consecutive == Group(c) && s.openUntil == Later(c, 0.0, q) else s.consecutive == r
  }

  lemma BurstTries(c: Config, s: State, q: nat, r: nat)
    requires c.maxFailures >= 1 && c.cooldown > 0.0
    requires r < Group(c) && Bursting(c, s, q, r)
    ensures var t := Export(c, s, Burst(c, q));
            if r + 1 < Group(c) then Bursting(c, t, q, r + 1) else Bursting(c, t, q + 1, 0)
  {
    hide Later;
    OneMore(c, 0.0, q);
    assert Group(c) * (q + 1) == Group(c) * q + Group(c);
  }

  /** The last call of a burst schedule belongs to the group its number falls into. */
  lemma OneBurstMore(c: Config, m: nat)
    ensures Run(c, Fresh, Bursts(c, m + 1)) == Export(c, Run(c, Fresh, Bursts(c, m)), Burst(c, m / Group(c)))
  {
    hide Export, Burst;
    assert Bursts(c, m + 1)[..m] == Bursts(c, m);
  }

  lemma NextDivMod(m: nat, g: nat)
    requires g > 0
    ensures if m % g + 1 < g then (m + 1) / g == m / g && (m + 1) % g == m % g + 1
            else (m + 1) / g == m / g + 1 && (m + 1) % g == 0
  {
    var q, r := m / g, m % g;
    assert m == g * q + r;
    if r + 1 < g {
      Quotient(m + 1, g, q, r + 1);
    } else {
      assert g * (q + 1) == g * q + g;
      Quotient(m + 1, g, q + 1, 0);
    }
  }

  lemma {:induction false} BurstsAllTry(c: Config, n: nat)
    requires c.maxFailures >= 1 && c.cooldown > 0.0
    ensures Bursting(c, Run(c, Fresh, Bursts(c, n)), n / Group(c), n % Group(c))
  {
    hide *;
    if n == 0 {
      FreshBursts(c);
    } else {
      var m := n - 1;
      BurstsAllTry(c, m);
      OneBurstMore(c, m);
      BurstTries(c, Run(c, Fresh, Bursts(c, m)), m / Group(c), m % Group(c));
      NextDivMod(m, Group(c));
    }
  }

  lemma FreshBursts(c: Config)
    ensures Bursting(c, Run(c, Fresh, Bursts(c, 0)), 0, 0)
    ensures 0 / Group(c) == 0 == 0 % Group(c)
  {
  }

  /** The bound is met: for any number of cooldowns, some failing stretch makes that many attempts. */
  lemma TheBoundIsMet(c: Config, cooldowns: nat)
    requires c.maxFailures >= 1 && c.cooldown > 0.0
    ensures var calls := Bursts(c, Group(c) * (1 + cooldowns));
            && AllFail(calls) && Clocked(calls, 0.0, Later(c, 0.0, cooldowns))
            && Run(c, Fresh, calls).attempts == Attempts(c, 1 + cooldowns)
  {
    var n := Group(c) * (1 + cooldowns);
    BurstsAllTry(c, n);
    Quotient(n, Group(c), 1 + cooldowns, 0);
    hide Run, Group;
    BurstsAreClocked(c, n, cooldowns);
  }

  lemma BurstsAreClocked(c: Config, n: nat, cooldowns: nat)
    requires c.cooldown > 0.0 && n == Group(c) * (1 + cooldowns)
    ensures AllFail(Bursts(c, n)) && Clocked(Bursts(c, n), 0.0, Later(c, 0.0, cooldowns))
  {
    hide Group, Later, Burst, Bursts;
    var calls := Bursts(c, n);
    forall i | 0 <= i < n
      ensures !calls[i].succeeds && 0.0 <= calls[i].before == calls[i].after <= Later(c, 0.0, cooldowns)
    {
      BurstsInOrder(c, n, i, i, cooldowns);
    }
    forall i, j | 0 <= i < j < n ensures calls[i].after <= calls[j].before {
      BurstsInOrder(c, n, i, j, cooldowns);
    }
  }

  lemma BurstsInOrder(c: Config, n: nat, i: nat, j: nat, cooldowns: nat)
    requires c.cooldown > 0.0 && n == Group(c) * (1 + cooldowns) && i <= j < n
    ensures
      var a, b := Bursts(c, n)[i], Bursts(c, n)[j];
      && !a.succeeds && !b.succeeds && a.before == a.after && b.before == b.after
      && 0.0 <= a.after <= b.before <= Later(c, 0.0, cooldowns)
  {
    hide Group, Later;
    BurstTimes(c, i, j, cooldowns);
    assert Bursts(c, n)[i] == Burst(c, i / Group(c)) && Bursts(c, n)[j] == Burst(c, j / Group(c));
  }

  lemma TimesGrow(c: Config, a: int, b: int)
    requires a <= b && c.cooldown > 0.0
    ensures Later(c, 0.0, a) <= Later(c, 0.0, b)
  {
    assert (b - a) as real * c.cooldown >= 0.0;
    assert b as real * c.cooldown == a as real * c.cooldown + (b - a) as real * c.cooldown;
  }

  lemma BurstTimes(c: Config, i: nat, j: nat, cooldowns: nat)
    requires i <= j < Group(c) * (1 + cooldowns) && c.cooldown > 0.0
    ensures 0.0 <= Later(c, 0.0, i / Group(c)) <= Later(c, 0.0, j / Group(c)) <= Later(c, 0.0, cooldowns)
  {
    hide Group, Later;
    InGroups(i, j, Group(c), cooldowns);
    TimesGrow(c, 0, i / Group(c));
    TimesGrow(c, i / Group(c), j / Group(c));
    TimesGrow(c, j / Group(c), cooldowns);
    NoCooldown(c);
  }

  lemma InGroups(i: nat, j: nat, g: nat, n: nat)
    requires g > 0 && i <= j < g * (1 + n)
    ensures 0 <= i / g <= j / g <= n
  {
    assert j == g * (j / g) + j % g;
    Below(j, g, n + 1);
    assert g * (j / g + 1) == g * (j / g) + g;
    Below(i, g, j / g + 1);
  }

  lemma Below(i: nat, g: nat, n: nat)
    requires g > 0 && i < g * n
    ensures i / g < n
  {
    assert i == g * (i / g) + i % g;
    Multiples(g, n, i / g);
  }

  lemma NoCooldown(c: Config)
    ensures Later(c, 0.0, 0) == 0.0
  {
  }

  /** The bound as plainly stated: maxFailures attempts per started cooldown. */
  predicate PlainBound(c: Config, start: State, calls: seq<Call>, from: real, to: real)
    requires c.cooldown > 0.0
  {
    Run(c, start, calls).attempts - start.attempts <= c.maxFailures * (1 + Cooldowns(c, to - from))
  }

  function OneFailure(): seq<Call> {
    [Call(Some(1), false, 0.0, 0.0)]
  }

  /** With maxFailures below 1 the plain bound promises no attempt at all, and the first call makes one. */
  lemma ZeroFailuresStillTries(c: Config)
    requires c.maxFailures < 1 && c.cooldown > 0.0
    ensures AllFail(OneFailure()) && Clocked(OneFailure(), 0.0, 0.0)
    ensures Run(c, Fresh, OneFailure()).attempts == 1 && !PlainBound(c, Fresh, OneFailure(), 0.0, 0.0)
  {
    assert OneFailure()[..0] == [];
    assert Cooldowns(c, 0.0) == 0;
  }

  /**
   * So the plain bound holds for every stretch of failures from every state if and only if
   * maxFailures is at least 1.
   */
  lemma PlainBoundIff(c: Config)
    requires c.cooldown > 0.0
    ensures (forall start, calls, from, to ::
               from <= to && AllFail(calls) && Clocked(calls, from, to) ==> PlainBound(c, start, calls, from, to))
       <==> c.maxFailures >= 1
  {
    if c.maxFailures >= 1 {
      forall start, calls, from, to | from <= to && AllFail(calls) && Clocked(calls, from, to)
        ensures PlainBound(c, start, calls, from, to)
      {
        AttemptsAreBounded(c, start, calls, from, to);
      }
    } else {
      ZeroFailuresStillTries(c);
    }
  }

  // ---------------------------------------------------------- the exporter, in place

  class Exporter {
    const config: Config
    var attempts: nat
    var failures: nat
    var dropped: nat
    var consecutive: nat
    var openUntil: real

    function Value(): State
      reads this
    {
      State(attempts, failures, dropped, consecutive, openUntil)
    }

    constructor (config: Config)
      ensures Value() == Fresh && this.config == config
    {
      this.config := config;
      attempts, failures, dropped, consecutive, openUntil := 0, 0, 0, 0, 0.0;
    }

    method IsOpen(now: real) returns (open: bool)
      modifies this
      ensures (open, Value()) == CircuitOpen(config, old(Value()), now)
    {
      if consecutive < config.maxFailures { return false; }
      if now >= openUntil {
        consecutive := 0;
        return false;
      }
      return true;
    }

    /** The reply is success whatever happened: a failed batch is not handed in again. */
    method ExportBatch(call: Call) returns (success: bool)
      modifies this
      ensures Value() == Export(config, old(Value()), call) && success
    {
      success := true;
      var open := IsOpen(call.before);
      if open {
        dropped := dropped + if call.size.Some? then call.size.value else 1;
        return;
      }
      attempts := attempts + 1;
      if call.succeeds {
        consecutive := 0;
      } else {
        failures := failures + 1;
        consecutive := consecutive + 1;
        if consecutive >= config.maxFailures { openUntil := call.after + config.cooldown; }
      }
    }
  }
}
