/**
 * The client's write-ahead slot: one record per owner in raw storage, written and read
 * back before anything is sent, behind a queue that runs one save or clear at a time.
 * Every await of a raw storage call is a step of its own; the calls may fail before or
 * after taking effect, lose or garble what they write, or read nothing back.
 */
module PendingWrite {
  import opened Prelude
  import opened Titles
  import opened WorkflowDomain
  import opened Tables

  datatype Write =
    | StartWrite(title: Text)
    | AdvanceWrite(workflow: Uuid, revision: int, step: StepId, command: Command)
    | SuggestWrite(workflow: Uuid, revision: int, step: StepId, clarification: Option<Clarification>)

  datatype Record = Record(owner: int, request: Uuid, write: Write)

  /** Stored bytes: the serialisation of a record, some other text that parses to one, or anything else. */
  datatype Bytes = Written(record: Record) | Respelled(record: Record, spelling: nat) | Junk(text: nat)

  type Slot = Option<Bytes>

  /** The shape checks of a parsed record, as an arbitrary predicate. */
  type Validator = Record -> bool

  /** The record an owner finds in a slot: parsed, well-formed and its own. */
  function Held(valid: Validator, owner: int, slot: Slot): Option<Record> {
    if slot.None? || slot.value.Junk? then None
    else if valid(slot.value.record) && slot.value.record.owner == owner then Some(slot.value.record)
    else None
  }

  datatype Op = Save(record: Record) | Clear(request: Uuid)

  /** Which raw call the running operation is waiting for. */
  datatype Phase = Checking | Writing | ReadingBack | Rechecking | Discarding

  /** A read returns the slot, or nothing although the slot may hold something, or fails. */
  datatype Sight = True | Blank | ReadFails

  /** What a write leaves behind. */
  datatype Landing = Landed | Lost | Garbled(text: nat) | Emptied

  datatype RawCall =
    | GetItem(sight: Sight)
    | SetItem(landing: Landing, fails: bool)
    | RemoveItem(removed: bool, fails: bool)

  /**
   * One owner's store. `phase` is that of the head of the queue; `blind` says that its
   * check came back blank over another request's record. `confirmed` lists, with the slot as it was, the records whose
   * save resolved; `ready` those not yet sent; `sent` those handed to the network.
   */
  datatype Store = Store(
    owner: int,
    slot: Slot,
    queue: seq<Op>,
    phase: Phase,
    blind: bool,
    confirmed: seq<(Record, Slot)>,
    ready: seq<Record>,
    sent: seq<Record>
  )

  function NewStore(owner: int, slot: Slot): Store {
    Store(owner, slot, [], Checking, false, [], [], [])
  }

  datatype Step =
    | Enqueue(op: Op)
    | Resume(call: RawCall)
    | Dispatch(i: nat, sessionCurrent: bool)
    | Crash

  function Seen(slot: Slot, sight: Sight): Slot {
    if sight == True then slot else None
  }

  /** The running operation settles and the next one in the queue takes over. */
  function Settle(s: Store): Store
    requires s.queue != []
  {
    s.(queue := s.queue[1..], phase := Checking, blind := false)
  }

  function Wait(s: Store, phase: Phase): Store { s.(phase := phase) }

  function Confirmed(s: Store, record: Record): Store
    requires s.queue != []
  {
    Settle(s.(confirmed := s.confirmed + [(record, s.slot)], ready := s.ready + [record]))
  }

  /** Some other request's record, found where `record` would go. */
  predicate Competes(found: Option<Record>, record: Record) {
    found.Some? && found.value.request != record.request
  }

  function AfterSet(slot: Slot, record: Record, landing: Landing): Slot {
    match landing
    case Landed => Some(Written(record))
    case Lost => slot
    case Garbled(text) => Some(Junk(text))
    case Emptied => None
  }

  function AfterRemove(slot: Slot, removed: bool): Slot {
    if removed then None else slot
  }

  function ResumeSave(valid: Validator, s: Store, record: Record, call: RawCall): Store
    requires s.queue != []
  {
    match s.phase
    case Checking =>
      if !valid(record) || record.owner != s.owner then Settle(s)
      else if !call.GetItem? then s
      else if call.sight == ReadFails then Settle(s)
      else if Competes(Held(valid, s.owner, Seen(s.slot, call.sight)), record) then Settle(s)
      else Wait(s, Writing).(blind := call.sight == Blank && Competes(Held(valid, s.owner, s.slot), record))
    case Writing =>
      if !call.SetItem? then s
      else
        var t := s.(slot := AfterSet(s.slot, record, call.landing));
        if call.fails then Settle(t) else Wait(t, ReadingBack)
    case ReadingBack =>
      if !call.GetItem? then s
      else if call.sight == ReadFails then Settle(s)
      else if Seen(s.slot, call.sight) == Some(Written(record)) then Confirmed(s, record)
      else Wait(s, Rechecking)
    case Rechecking =>
      if !call.GetItem? then s
      else if call.sight == ReadFails then Settle(s)
      else if Seen(s.slot, call.sight) == Some(Written(record)) then Confirmed(s, record)
      else if Competes(Held(valid, s.owner, Seen(s.slot, call.sight)), record) then Settle(s)
      else Wait(s, Discarding)
    case Discarding =>
      if !call.RemoveItem? then s else Settle(s.(slot := AfterRemove(s.slot, call.removed)))
  }

  function ResumeClear(valid: Validator, s: Store, request: Uuid, call: RawCall): Store
    requires s.queue != []
  {
    match s.phase
    case Checking =>
      if !call.GetItem? then s
      else if call.sight == ReadFails then Settle(s)
      else
        var found := Held(valid, s.owner, Seen(s.slot, call.sight));
        if found.None? || found.value.request != request then Settle(s) else Wait(s, Discarding)
    case Discarding =>
      if !call.RemoveItem? then s else Settle(s.(slot := AfterRemove(s.slot, call.removed)))
    case _ => s
  }

  function Next(valid: Validator, s: Store, step: Step): Store {
    match step
    case Enqueue(op) => s.(queue := s.queue + [op])
    case Resume(call) =>
      if s.queue == [] then s
      else (match s.queue[0]
            case Save(record) => ResumeSave(valid, s, record, call)
            case Clear(request) => ResumeClear(valid, s, request, call))
    case Dispatch(i, sessionCurrent) =>
      if i >= |s.ready| then s
      else
        s.(ready := s.ready[..i] + s.ready[i + 1..],
           sent := if sessionCurrent then s.sent + [s.ready[i]] else s.sent)
    case Crash => s.(queue := [], phase := Checking, blind := false, ready := [])
  }

  function Run(valid: Validator, start: Store, steps: seq<Step>): Store {
    if steps == [] then start else Next(valid, Run(valid, start, steps[..|steps| - 1]), steps[|steps| - 1])
  }

  // ------------------------------------------------------------------------ invariant

  /** What the running operation has established about the slot. */
  ghost predicate Exclusive(valid: Validator, s: Store) {
    if s.queue == [] || s.phase == Checking then s.phase == Checking
    else
      match s.queue[0]
      case Save(record) =>
        && valid(record) && record.owner == s.owner
        && (!s.blind ==> !Competes(Held(valid, s.owner, s.slot), record))
        && (s.phase == Writing && s.blind ==> Competes(Held(valid, s.owner, s.slot), record))
      case Clear(request) =>
        && s.phase == Discarding
        && Held(valid, s.owner, s.slot).Some? && Held(valid, s.owner, s.slot).value.request == request
  }

  ghost predicate Read(s: Store, record: Record) {
    exists i :: 0 <= i < |s.confirmed| && s.confirmed[i].0 == record
  }

  /** Only what was read back is ready or sent, and each was in the slot byte for byte when its save resolved. */
  ghost predicate Honest(s: Store) {
    && (forall i :: 0 <= i < |s.confirmed| ==> s.confirmed[i].1 == Some(Written(s.confirmed[i].0)))
    && (forall i :: 0 <= i < |s.ready| ==> Read(s, s.ready[i]))
    && (forall i :: 0 <= i < |s.sent| ==> Read(s, s.sent[i]))
  }

  lemma ResumeKeepsExclusive(valid: Validator, s: Store, call: RawCall)
    requires Exclusive(valid, s) && s.queue != []
    ensures Exclusive(valid, Next(valid, s, Resume(call))) && Next(valid, s, Resume(call)).owner == s.owner
  {
    match s.queue[0] {
      case Save(record) =>
        var t := ResumeSave(valid, s, record, call);
        assert t.queue == s.queue || t.phase == Checking;
      case Clear(request) =>
        var t := ResumeClear(valid, s, request, call);
        assert t.queue == s.queue || t.phase == Checking;
    }
  }

  lemma StepKeepsExclusive(valid: Validator, s: Store, step: Step)
    requires Exclusive(valid, s)
    ensures Exclusive(valid, Next(valid, s, step)) && Next(valid, s, step).owner == s.owner
  {
    if step.Resume? && s.queue != [] {
      ResumeKeepsExclusive(valid, s, step.call);
    } else if step.Enqueue? && s.queue != [] {
      assert (s.queue + [step.op])[0] == s.queue[0];
    }
  }

  lemma ReadGrows(s: Store, t: Store, record: Record)
    requires Read(s, record) && s.confirmed <= t.confirmed
    ensures Read(t, record)
  {
    var i :| 0 <= i < |s.confirmed| && s.confirmed[i].0 == record;
    assert t.confirmed[i] == s.confirmed[i];
  }

  lemma LastIsRead(s: Store)
    requires s.confirmed != []
    ensures Read(s, s.confirmed[|s.confirmed| - 1].0)
  {
  }

  lemma ConfirmKeepsHonest(s: Store, record: Record)
    requires Honest(s) && s.queue != [] && s.slot == Some(Written(record))
    ensures Honest(Confirmed(s, record))
  {
    hide Read;
    var t := Confirmed(s, record);
    assert t.confirmed[|s.confirmed|] == (record, s.slot);
    LastIsRead(t);
    forall i | 0 <= i < |t.ready| ensures Read(t, t.ready[i]) {
      if i < |s.ready| { ReadGrows(s, t, s.ready[i]); }
    }
    forall i | 0 <= i < |t.sent| ensures Read(t, t.sent[i]) { ReadGrows(s, t, s.sent[i]); }
  }

  lemma StepKeepsHonest(valid: Validator, s: Store, step: Step)
    requires Exclusive(valid, s) && Honest(s)
    ensures Honest(Next(valid, s, step))
  {
    hide Honest, Exclusive;
    match step
    case Resume(call) =>
      if s.queue != [] { ResumeKeepsHonest(valid, s, call); }
    case Dispatch(i, sessionCurrent) =>
      if i < |s.ready| { DispatchKeepsHonest(s, i, sessionCurrent); }
    case Enqueue(op) => SameReadings(s, Next(valid, s, step));
    case Crash => SameReadings(s, Next(valid, s, step));
  }

  /** Whatever becomes of the slot and the queue, as long as nothing new is confirmed, ready or sent. */
  lemma SameReadings(s: Store, t: Store)
    requires Honest(s) && t.confirmed == s.confirmed && t.sent == s.sent
    requires t.ready == s.ready || t.ready == []
    ensures Honest(t)
  {
    forall record ensures Read(t, record) <==> Read(s, record) { SameRead(s, t, record); }
    hide Read;
  }

  lemma SameRead(s: Store, t: Store, record: Record)
    requires t.confirmed == s.confirmed
    ensures Read(t, record) <==> Read(s, record)
  {
  }

  lemma ResumeKeepsHonest(valid: Validator, s: Store, call: RawCall)
    requires Honest(s) && s.queue != []
    ensures Honest(Next(valid, s, Resume(call)))
  {
    hide Honest, Held, Competes, AfterSet, AfterRemove, Confirmed;
    var t := Next(valid, s, Resume(call));
    if s.queue[0].Save? && s.slot == Some(Written(s.queue[0].record)) && t == Confirmed(s, s.queue[0].record) {
      ConfirmKeepsHonest(s, s.queue[0].record);
    } else {
      SameReadings(s, t);
    }
  }

  lemma DispatchKeepsHonest(s: Store, i: nat, sessionCurrent: bool)
    requires Honest(s) && i < |s.ready|
    ensures Honest(s.(ready := s.ready[..i] + s.ready[i + 1..],
                      sent := if sessionCurrent then s.sent + [s.ready[i]] else s.sent))
  {
    var t := s.(ready := s.ready[..i] + s.ready[i + 1..],
                sent := if sessionCurrent then s.sent + [s.ready[i]] else s.sent);
    forall record ensures Read(t, record) <==> Read(s, record) { SameRead(s, t, record); }
    hide Read;
  }

  lemma {:induction false} RunKeepsHonest(valid: Validator, start: Store, steps: seq<Step>)
    requires Exclusive(valid, start) && Honest(start)
    ensures var s := Run(valid, start, steps);
            Exclusive(valid, s) && Honest(s) && s.owner == start.owner
  {
    hide Next, Exclusive, Honest;
    if steps != [] {
      var s := Run(valid, start, steps[..|steps| - 1]);
      RunKeepsHonest(valid, start, steps[..|steps| - 1]);
      StepKeepsExclusive(valid, s, steps[|steps| - 1]);
      StepKeepsHonest(valid, s, steps[|steps| - 1]);
    }
  }

  /**
   * In every interleaving of one owner's saves, clears, dispatches and crashes, over
   * storage that may fail anywhere: a record is sent only after its own bytes were read
   * back from the slot.
   */
  lemma SentOnlyAfterReadBack(valid: Validator, owner: int, slot: Slot, steps: seq<Step>, k: nat)
    requires k < |Run(valid, NewStore(owner, slot), steps).sent|
    ensures var s := Run(valid, NewStore(owner, slot), steps);
            exists i :: 0 <= i < |s.confirmed| && s.confirmed[i] == (s.sent[k], Some(Written(s.sent[k])))
  {
    hide Run;
    RunKeepsHonest(valid, NewStore(owner, slot), steps);
    var s := Run(valid, NewStore(owner, slot), steps);
    assert Read(s, s.sent[k]);
    var i :| 0 <= i < |s.confirmed| && s.confirmed[i].0 == s.sent[k];
    assert s.confirmed[i] == (s.sent[k], Some(Written(s.sent[k])));
  }

  /** A save resolves exactly when a read after its write returns its own bytes. */
  lemma ConfirmsIffReadBack(valid: Validator, s: Store, call: RawCall)
    requires s.queue != [] && s.queue[0].Save?
    ensures var t := Next(valid, s, Resume(call));
            t.confirmed != s.confirmed <==>
              && (s.phase == ReadingBack || s.phase == Rechecking) && call == GetItem(True)
              && s.slot == Some(Written(s.queue[0].record))
  {
  }

  // ----------------------------------------------------------- what can happen to a record

  /** The operation is about this request. */
  predicate Concerns(op: Op, request: Uuid) {
    match op
    case Save(record) => record.request == request
    case Clear(r) => r == request
  }

  /**
   * A well-formed record leaves the slot only by an operation on its own request, or by a
   * save whose check was blind.
   */
  lemma RecordsLeaveOnlyBy(valid: Validator, s: Store, step: Step)
    requires Exclusive(valid, s)
    requires Held(valid, s.owner, s.slot).Some? && Next(valid, s, step).slot != s.slot
    ensures step.Resume? && s.queue != []
    ensures Concerns(s.queue[0], Held(valid, s.owner, s.slot).value.request) || (s.queue[0].Save? && s.blind)
  {
    if step.Resume? && s.queue != [] && s.queue[0].Clear? { assert s.phase == Discarding; }
  }

  /** The check lets a save pass over another request's record exactly when it came back blank. */
  lemma PassesIffBlank(valid: Validator, s: Store, sight: Sight)
    requires s.queue != [] && s.queue[0].Save? && s.phase == Checking && sight != ReadFails
    requires valid(s.queue[0].record) && s.queue[0].record.owner == s.owner
    requires Competes(Held(valid, s.owner, s.slot), s.queue[0].record)
    ensures var t := Next(valid, s, Resume(GetItem(sight)));
            && t.slot == s.slot
            && (t.queue == s.queue && t.phase == Writing && t.blind <==> sight == Blank)
            && (t.queue == s.queue[1..] <==> sight == True)
  {
    assert |s.queue[1..]| != |s.queue|;
  }

  /** And the write then replaces that record exactly when the check had been blind and the write is not lost. */
  lemma ReplacesIffBlind(valid: Validator, s: Store, landing: Landing, fails: bool)
    requires Exclusive(valid, s) && s.queue != [] && s.queue[0].Save? && s.phase == Writing
    ensures var record := s.queue[0].record;
            var t := Next(valid, s, Resume(SetItem(landing, fails)));
            Competes(Held(valid, s.owner, s.slot), record) && t.slot != s.slot <==> s.blind && landing != Lost
  {
  }

  /** No operation on `request` is queued, and none comes. */
  predicate Unconcerned(queue: seq<Op>, steps: seq<Step>, request: Uuid) {
    && (forall i :: 0 <= i < |queue| ==> !Concerns(queue[i], request))
    && (forall i :: 0 <= i < |steps| && steps[i].Enqueue? ==> !Concerns(steps[i].op, request))
  }

  /** The next raw call is the first read of a save. */
  predicate ChecksNext(s: Store) {
    s.queue != [] && s.queue[0].Save? && s.phase == Checking
  }

  /** No first read of a save is answered with nothing. */
  predicate ChecksSee(valid: Validator, start: Store, steps: seq<Step>) {
    forall i :: 0 <= i < |steps| && steps[i] == Resume(GetItem(Blank)) ==> !ChecksNext(Run(valid, start, steps[..i]))
  }

  lemma UnconcernedStep(valid: Validator, s: Store, step: Step, request: Uuid)
    requires Exclusive(valid, s) && !s.blind
    requires Held(valid, s.owner, s.slot).Some? && Held(valid, s.owner, s.slot).value.request == request
    requires Unconcerned(s.queue, [step], request)
    ensures var t := Next(valid, s, step);
            t.slot == s.slot && forall i :: 0 <= i < |t.queue| ==> !Concerns(t.queue[i], request)
  {
    assert [step][0] == step;
    var t := Next(valid, s, step);
    if t.slot != s.slot { RecordsLeaveOnlyBy(valid, s, step); }
    assert t.queue == s.queue || t.queue == [] || (s.queue != [] && t.queue == s.queue[1..])
           || (step.Enqueue? && t.queue == s.queue + [step.op]);
  }

  lemma SightedStep(valid: Validator, s: Store, step: Step)
    requires !s.blind && !(step == Resume(GetItem(Blank)) && ChecksNext(s))
    ensures !Next(valid, s, step).blind
  {
  }

  /** When every check sees what is there, no save is ever under way over another request's record. */
  lemma {:induction false} SightedRun(valid: Validator, owner: int, slot: Slot, steps: seq<Step>)
    requires ChecksSee(valid, NewStore(owner, slot), steps)
    ensures var s := Run(valid, NewStore(owner, slot), steps); !s.blind && Exclusive(valid, s) && s.owner == owner
  {
    hide Next, Exclusive;
    if steps != [] {
      var last := |steps| - 1;
      assert forall i :: 0 <= i <= last ==> steps[..last][..i] == steps[..i];
      SightedRun(valid, owner, slot, steps[..last]);
      SightedStep(valid, Run(valid, NewStore(owner, slot), steps[..last]), steps[last]);
      StepKeepsExclusive(valid, Run(valid, NewStore(owner, slot), steps[..last]), steps[last]);
    } else {
      NewStoreIsExclusive(valid, owner, slot);
    }
  }

  lemma NewStoreIsExclusive(valid: Validator, owner: int, slot: Slot)
    ensures Exclusive(valid, NewStore(owner, slot))
  {
  }

  lemma RunOn(valid: Validator, start: Store, before: seq<Step>, step: Step)
    ensures Run(valid, start, before + [step]) == Next(valid, Run(valid, start, before), step)
  {
    assert (before + [step])[..|before|] == before;
  }

  /**
   * A held record outlives everything that is not about it: other saves and clears, failed
   * calls and crashes, over any run in which no first read of a save comes back empty.
   */
  lemma {:induction false} RecordsStay(valid: Validator, owner: int, slot: Slot, before: seq<Step>, steps: seq<Step>,
                                       record: Record)
    requires ChecksSee(valid, NewStore(owner, slot), before + steps)
    requires Held(valid, owner, Run(valid, NewStore(owner, slot), before).slot) == Some(record)
    requires Unconcerned(Run(valid, NewStore(owner, slot), before).queue, steps, record.request)
    ensures var start := Run(valid, NewStore(owner, slot), before);
            var s := Run(valid, NewStore(owner, slot), before + steps);
            s.slot == start.slot && forall i :: 0 <= i < |s.queue| ==> !Concerns(s.queue[i], record.request)
  {
    hide Next, Exclusive, Concerns, Held;
    if steps == [] {
      assert before + steps == before;
    } else {
      var last := |steps| - 1;
      var earlier := before + steps[..last];
      assert before + steps == earlier + [steps[last]];
      assert forall i :: 0 <= i < |earlier| ==>
          (before + steps)[..i] == earlier[..i] && (before + steps)[i] == earlier[i];
      RecordsStay(valid, owner, slot, before, steps[..last], record);
      SightedRun(valid, owner, slot, earlier);
      var s := Run(valid, NewStore(owner, slot), earlier);
      UnconcernedStep(valid, s, steps[last], record.request);
      RunOn(valid, NewStore(owner, slot), earlier, steps[last]);
    }
  }

  /** In particular, over any run in which no read at all comes back empty. */
  lemma RecordsStayUnderTrueReads(valid: Validator, owner: int, slot: Slot, before: seq<Step>, steps: seq<Step>,
                                  record: Record)
    requires forall i :: 0 <= i < |before + steps| ==> (before + steps)[i] != Resume(GetItem(Blank))
    requires Held(valid, owner, Run(valid, NewStore(owner, slot), before).slot) == Some(record)
    requires Unconcerned(Run(valid, NewStore(owner, slot), before).queue, steps, record.request)
    ensures Run(valid, NewStore(owner, slot), before + steps).slot == Run(valid, NewStore(owner, slot), before).slot
  {
    hide Run, Held, Unconcerned;
    RecordsStay(valid, owner, slot, before, steps, record);
  }

  /** One empty first read is enough: another request's record is overwritten, and is gone. */
  lemma BlankCheckOverwrites(valid: Validator, held: Record, next: Record)
    requires valid(held) && valid(next) && held.owner == next.owner && held.request != next.request
    ensures
      var start := NewStore(held.owner, Some(Written(held)));
      var s := Run(valid, start, [Enqueue(Save(next)), Resume(GetItem(Blank)), Resume(SetItem(Landed, false))]);
      && Held(valid, held.owner, start.slot) == Some(held)
      && s.slot == Some(Written(next)) && Held(valid, held.owner, s.slot) == Some(next)
  {
    var start := NewStore(held.owner, Some(Written(held)));
    var a, b, d := Enqueue(Save(next)), Resume(GetItem(Blank)), Resume(SetItem(Landed, false));
    RunOn(valid, start, [], a);
    RunOn(valid, start, [a], b);
    RunOn(valid, start, [a, b], d);
    assert [] + [a] == [a] && [a] + [b] == [a, b] && [a, b] + [d] == [a, b, d];
    assert Run(valid, start, []) == start;
  }

  /** With storage that works, a save confirms, and the slot holds exactly what is then sent. */
  lemma SaveWorks(valid: Validator, s: Store, record: Record)
    requires s.queue == [Save(record)] && s.phase == Checking && valid(record) && record.owner == s.owner
    requires !Competes(Held(valid, s.owner, s.slot), record)
    ensures var t := Next(valid, Next(valid, Next(valid, s, Resume(GetItem(True))), Resume(SetItem(Landed, false))),
                          Resume(GetItem(True)));
            t.slot == Some(Written(record)) && t.ready == s.ready + [record] && t.queue == []
  {
  }

  /** How far the running operation has come. */
  function Position(phase: Phase): nat {
    match phase
    case Checking => 0
    case Writing => 1
    case ReadingBack => 2
    case Rechecking => 3
    case Discarding => 4
  }

  predicate Answers(s: Store, call: RawCall)
    requires s.queue != []
  {
    match s.phase
    case Writing => call.SetItem?
    case Discarding => call.RemoveItem?
    case _ => call.GetItem?
  }

  /** Every answer moves the running operation on or settles it, so each takes at most five raw calls. */
  lemma AnswersMoveOn(valid: Validator, s: Store, call: RawCall)
    requires Exclusive(valid, s) && s.queue != [] && Answers(s, call)
    ensures var t := Next(valid, s, Resume(call));
            t.queue == s.queue[1..] || (t.queue == s.queue && Position(s.phase) < Position(t.phase))
  {
  }

  // ------------------------------------------------------------- the store, in place

  /** One owner's queue and slot, updated in place as each awaited raw call returns. */
  class OwnerQueue {
    const owner: int
    const valid: Validator
    var slot: Slot
    var queue: seq<Op>
    var phase: Phase
    var blind: bool
    var confirmed: seq<(Record, Slot)>
    var ready: seq<Record>
    var sent: seq<Record>

    function Value(): Store
      reads this
    {
      Store(owner, slot, queue, phase, blind, confirmed, ready, sent)
    }

    constructor (owner: int, valid: Validator, slot: Slot)
      ensures Value() == NewStore(owner, slot) && this.valid == valid
    {
      this.owner, this.valid, this.slot := owner, valid, slot;
      queue, phase, blind, confirmed, ready, sent := [], Checking, false, [], [], [];
    }

    /** runOwnerExclusive: the operation waits for everything queued before it, settled either way. */
    method RunExclusive(op: Op)
      modifies this
      ensures Value() == Next(valid, old(Value()), Enqueue(op))
    {
      queue := queue + [op];
    }

    method SettleHead()
      requires queue != []
      modifies this
      ensures Value() == Settle(old(Value()))
    {
      queue, phase, blind := queue[1..], Checking, false;
    }

    method ConfirmHead(record: Record)
      requires queue != []
      modifies this
      ensures Value() == Confirmed(old(Value()), record)
    {
      confirmed, ready := confirmed + [(record, slot)], ready + [record];
      SettleHead();
    }

    /** The running save goes on with what a getItem returned. */
    method SaveSees(record: Record, sight: Sight)
      requires queue != [] && (phase == Checking || phase == ReadingBack || phase == Rechecking)
      modifies this
      ensures Value() == ResumeSave(valid, old(Value()), record, GetItem(sight))
    {
      hide Held, Competes, Confirmed;
      if phase == Checking && (!valid(record) || record.owner != owner) {
        SettleHead();
        return;
      }
      if sight == ReadFails {
        SettleHead();
        return;
      }
      var seen := Seen(slot, sight);
      if phase == Checking {
        if Competes(Held(valid, owner, seen), record) {
          SettleHead();
        } else {
          phase, blind := Writing, sight == Blank && Competes(Held(valid, owner, slot), record);
        }
        return;
      }
      if seen == Some(Written(record)) {
        ConfirmHead(record);
      } else if phase == ReadingBack {
        phase := Rechecking;
      } else if Competes(Held(valid, owner, seen), record) {
        SettleHead();
      } else {
        phase := Discarding;
      }
    }

    method SaveWrites(record: Record, landing: Landing, fails: bool)
      requires queue != [] && phase == Writing
      modifies this
      ensures Value() == ResumeSave(valid, old(Value()), record, SetItem(landing, fails))
    {
      slot := AfterSet(slot, record, landing);
      if fails { SettleHead(); } else { phase := ReadingBack; }
    }

    method ClearSees(request: Uuid, sight: Sight)
      requires queue != [] && phase == Checking
      modifies this
      ensures Value() == ResumeClear(valid, old(Value()), request, GetItem(sight))
    {
      hide Held;
      if sight == ReadFails {
        SettleHead();
        return;
      }
      var found := Held(valid, owner, Seen(slot, sight));
      if found.None? || found.value.request != request {
        SettleHead();
      } else {
        phase := Discarding;
      }
    }

    /** removeItem, the last call of a clear or of a failed save's clean-up. */
    method Removes(removed: bool, fails: bool)
      requires queue != [] && phase == Discarding
      modifies this
      ensures Value() == Next(valid, old(Value()), Resume(RemoveItem(removed, fails)))
    {
      slot := AfterRemove(slot, removed);
      SettleHead();
    }

    /** After its save resolved, a record is sent, or kept for a later retry if the session has changed. */
    method SendReady(i: nat, sessionCurrent: bool)
      modifies this
      ensures Value() == Next(valid, old(Value()), Dispatch(i, sessionCurrent))
    {
      if i < |ready| {
        if sessionCurrent { sent := sent + [ready[i]]; }
        ready := ready[..i] + ready[i + 1..];
      }
    }
  }
}
