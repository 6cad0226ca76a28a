/** What a whole save, a whole clear and a dispatch come to, from what their raw calls answer. */
module PendingDecisions {
  import opened Prelude
  import opened WorkflowDomain
  import opened PendingWrite

  /** The store once the running operation is over, with this in the slot and nothing new to send. */
  function Over(s: Store, slot: Slot): Store
    requires s.queue != []
  {
    Store(s.owner, slot, s.queue[1..], Checking, false, s.confirmed, s.ready, s.sent)
  }

  /** The store once the running save has resolved: its record may be sent. */
  function Resolved(s: Store, slot: Slot, record: Record): Store
    requires s.queue != []
  {
    Store(s.owner, slot, s.queue[1..], Checking, false, s.confirmed + [(record, slot)], s.ready + [record], s.sent)
  }

  /** A read of `slot` that finds a well-formed record of this owner under another request. */
  predicate FindsAnother(valid: Validator, owner: int, slot: Slot, sight: Sight, request: Uuid) {
    && sight == True && slot.Some? && !slot.value.Junk?
    && valid(slot.value.record) && slot.value.record.owner == owner && slot.value.record.request != request
  }

  function Given(s: Store, valid: Validator, call: RawCall): Store { Next(valid, s, Resume(call)) }

  /** What a write leaves in the slot. */
  function Put(slot: Slot, record: Record, landing: Landing): Slot {
    match landing
    case Landed => Some(Written(record))
    case Lost => slot
    case Garbled(text) => Some(Junk(text))
    case Emptied => None
  }

  /** A save up to its write. */
  lemma CheckDecides(valid: Validator, s: Store, record: Record, first: Sight, landing: Landing, fails: bool)
    requires s.queue != [] && s.queue[0] == Save(record) && s.phase == Checking
    ensures
      var checked := Given(s, valid, GetItem(first));
      var written := Given(checked, valid, SetItem(landing, fails));
      if || !valid(record) || record.owner != s.owner || first == ReadFails
         || FindsAnother(valid, s.owner, s.slot, first, record.request) then checked == Over(s, s.slot)
      else if fails then written == Over(s, Put(s.slot, record, landing))
      else written == s.(slot := Put(s.slot, record, landing), phase := ReadingBack, blind := written.blind)
  {
  }

  /** A save from its write on. */
  lemma ReadsDecide(valid: Validator, s: Store, record: Record, second: Sight, third: Sight, removed: bool,
                    removeFails: bool)
    requires s.queue != [] && s.queue[0] == Save(record) && s.phase == ReadingBack
    ensures
      var read := Given(s, valid, GetItem(second));
      var again := Given(read, valid, GetItem(third));
      var done := Given(again, valid, RemoveItem(removed, removeFails));
      var own := s.slot == Some(Written(record));
      if second == ReadFails then read == Over(s, s.slot)
      else if second == True && own then read == Resolved(s, s.slot, record)
      else if third == ReadFails then again == Over(s, s.slot)
      else if third == True && own then again == Resolved(s, s.slot, record)
      else if FindsAnother(valid, s.owner, s.slot, third, record.request) then again == Over(s, s.slot)
      else done == Over(s, if removed then None else s.slot)
  {
  }

  /**
   * A save as a whole, from the answers to its first read, its write and the reads after it.
   * It gives up before writing if its record is malformed or another owner's, or the read
   * fails or finds another request; it resolves if a read after the write returns its own
   * bytes; otherwise it is rejected, and removes what it finds, unless a read fails or finds
   * another request.
   */
  lemma SaveDecides(valid: Validator, s: Store, record: Record, first: Sight, landing: Landing, fails: bool,
                    second: Sight, third: Sight, removed: bool, removeFails: bool)
    requires s.queue != [] && s.queue[0] == Save(record) && s.phase == Checking
    ensures
      var checked := Given(s, valid, GetItem(first));
      var written := Given(checked, valid, SetItem(landing, fails));
      var read := Given(written, valid, GetItem(second));
      var again := Given(read, valid, GetItem(third));
      var done := Given(again, valid, RemoveItem(removed, removeFails));
      var slot := Put(s.slot, record, landing);
      var own := slot == Some(Written(record));
      if || !valid(record) || record.owner != s.owner || first == ReadFails
         || FindsAnother(valid, s.owner, s.slot, first, record.request) then checked == Over(s, s.slot)
      else if fails then written == Over(s, slot)
      else if second == ReadFails then read == Over(s, slot)
      else if second == True && own then read == Resolved(s, slot, record)
      else if third == ReadFails then again == Over(s, slot)
      else if third == True && own then again == Resolved(s, slot, record)
      else if FindsAnother(valid, s.owner, slot, third, record.request) then again == Over(s, slot)
      else done == Over(s, if removed then None else slot)
  {
    hide Next, Put, FindsAnother;
    CheckDecides(valid, s, record, first, landing, fails);
    var written := Given(Given(s, valid, GetItem(first)), valid, SetItem(landing, fails));
    if written.queue == s.queue && written.phase == ReadingBack {
      ReadsDecide(valid, written, record, second, third, removed, removeFails);
    }
  }

  /** A clear as a whole: it removes the record of its own request, and leaves anything else it finds. */
  lemma ClearDecides(valid: Validator, s: Store, request: Uuid, sight: Sight, removed: bool, removeFails: bool)
    requires s.queue != [] && s.queue[0] == Clear(request) && s.phase == Checking && !s.blind
    ensures
      var checked := Given(s, valid, GetItem(sight));
      var done := Given(checked, valid, RemoveItem(removed, removeFails));
      if && sight == True && s.slot.Some? && !s.slot.value.Junk?
         && valid(s.slot.value.record) && s.slot.value.record.owner == s.owner
         && s.slot.value.record.request == request
      then done == Over(s, if removed then None else s.slot)
      else checked == Over(s, s.slot)
  {
  }

  /** A resolved save is sent exactly if the session is still the one it was made in; the slot stays either way. */
  lemma SentIfCurrent(valid: Validator, s: Store, i: nat, sessionCurrent: bool)
    requires i < |s.ready|
    ensures
      Next(valid, s, Dispatch(i, sessionCurrent)) ==
      Store(s.owner, s.slot, s.queue, s.phase, s.blind, s.confirmed, s.ready[..i] + s.ready[i + 1..],
            s.sent + if sessionCurrent then [s.ready[i]] else [])
  {
  }

  // ---------------------------------------------------------- what a send leaves behind

  /** Nothing is sent by any other step, so each record is sent at most as often as it was confirmed. */
  function TimesConfirmed(s: Store, record: Record): nat {
    Count(s.confirmed, (c: (Record, Slot)) => c.0 == record)
  }

  function Times(records: seq<Record>, record: Record): nat {
    Count(records, r => r == record)
  }

  lemma StepSpends(valid: Validator, s: Store, step: Step, record: Record)
    requires Times(s.sent, record) + Times(s.ready, record) <= TimesConfirmed(s, record)
    ensures
      var t := Next(valid, s, step);
      Times(t.sent, record) + Times(t.ready, record) <= TimesConfirmed(t, record)
  {
    hide Held, Competes, Count;
    match step
    case Resume(call) =>
      if s.queue != [] && s.queue[0].Save? {
        var own := s.queue[0].record;
        CountAppend(s.confirmed, (own, s.slot), (c: (Record, Slot)) => c.0 == record);
        CountAppend(s.ready, own, r => r == record);
      }
    case Dispatch(i, sessionCurrent) =>
      if i < |s.ready| {
        CountAppend(s.sent, s.ready[i], r => r == record);
        CountRemoved(s.ready, i, record);
      }
    case Crash => NoneReady(record);
    case Enqueue(op) =>
  }

  lemma NoneReady(record: Record)
    ensures Times([], record) == 0
  {
  }

  lemma {:induction false} CountRemoved(records: seq<Record>, i: nat, record: Record)
    requires i < |records|
    ensures Times(records, record)
         == Times(records[..i] + records[i + 1..], record) + if records[i] == record then 1 else 0
  {
    var last := |records| - 1;
    if i == last {
      assert records[..i] + records[i + 1..] == records[..last];
    } else {
      CountRemoved(records[..last], i, record);
      assert (records[..i] + records[i + 1..])[..last - 1] == records[..last][..i] + records[..last][i + 1..];
    }
  }

  /** In every run a record is sent at most once for each save of it that resolved. */
  lemma {:induction false} SentOncePerSave(valid: Validator, owner: int, slot: Slot, steps: seq<Step>, record: Record)
    ensures
      var s := Run(valid, NewStore(owner, slot), steps);
      Times(s.sent, record) + Times(s.ready, record) <= TimesConfirmed(s, record)
  {
    hide Next, Count;
    if steps == [] {
      NoneReady(record);
    } else {
      SentOncePerSave(valid, owner, slot, steps[..|steps| - 1], record);
      StepSpends(valid, Run(valid, NewStore(owner, slot), steps[..|steps| - 1]), steps[|steps| - 1], record);
    }
  }
}
