/** The coordinator's receipts frame by frame: a queue in memory, and one durable slot for each message. */
module ReceiptSlots {
  type Id = nat

  /** A receipt frame for message `id`, on its way to the station `hop` through one of the radios. */
  datatype Receipt = Receipt(radio: nat, id: Id, hop: string)

  /** `pending_receipt` of every message, and `_receipt_queue`. */
  datatype State = State(slots: map<Id, Receipt>, queue: seq<Receipt>)

  datatype Event =
    | Transmit(frame: Receipt, writeOk: bool)
    | Flush(frame: Receipt, writeOk: bool)
    | Restart(listed: seq<Id>)

  /** `list.remove`. */
  function Removed(queue: seq<Receipt>, f: Receipt): (r: seq<Receipt>)
    ensures forall g :: g in r ==> g in queue
    ensures forall g :: g in queue && g != f ==> g in r
  {
    if queue == [] then [] else if queue[0] == f then queue[1..] else [queue[0]] + Removed(queue[1..], f)
  }

  /** `transmit_receipt`: the slot first, then the queue. */
  function TransmitStep(s: State, f: Receipt, writeOk: bool): State {
    if !writeOk then s
    else State(s.slots[f.id := f], if f in s.queue then s.queue else s.queue + [f])
  }

  /** One frame of `flush_receipts`, handed over; its message's slot is cleared, whatever it holds. */
  function FlushStep(s: State, f: Receipt, writeOk: bool): State {
    if f !in s.queue then s
    else State(if writeOk then s.slots - {f.id} else s.slots, Removed(s.queue, f))
  }

  /** The slots in the order the mailbox lists its messages. */
  function Loaded(slots: map<Id, Receipt>, listed: seq<Id>): (queue: seq<Receipt>)
    ensures forall id :: id in listed && id in slots ==> slots[id] in queue
  {
    if listed == [] then []
    else (if listed[0] in slots then [slots[listed[0]]] else []) + Loaded(slots, listed[1..])
  }

  function Apply(s: State, e: Event): State {
    match e
    case Transmit(f, ok) => TransmitStep(s, f, ok)
    case Flush(f, ok) => FlushStep(s, f, ok)
    case Restart(listed) => s.(queue := Loaded(s.slots, listed))
  }

  function Run(s: State, events: seq<Event>): State {
    if events == [] then s else Apply(Run(s, events[..|events| - 1]), events[|events| - 1])
  }

  /** A restart finds the frame again. */
  predicate Durable(s: State, f: Receipt) { f.id in s.slots && s.slots[f.id] == f }

  /** A frame that waits and would not survive a restart. */
  predicate Exposed(s: State, f: Receipt) { f in s.queue && !Durable(s, f) }

  /** Another frame for the same message takes the slot, or clears it on its way out. */
  predicate Displaces(s: State, e: Event, f: Receipt) {
    && !e.Restart? && e.writeOk && e.frame != f && e.frame.id == f.id && f in s.queue
    && (e.Flush? ==> e.frame in s.queue)
  }

  /** What the slots and the queue are to each other: no frame waits twice, and every slot's frame is its
      own message's. */
  predicate Sound(s: State) {
    && (forall i, j :: 0 <= i < j < |s.queue| ==> s.queue[i] != s.queue[j])
    && (forall id :: id in s.slots ==> s.slots[id].id == id)
  }

  lemma {:induction false} RemovedSound(queue: seq<Receipt>, f: Receipt)
    requires forall i, j :: 0 <= i < j < |queue| ==> queue[i] != queue[j]
    ensures var r := Removed(queue, f);
            f !in r && forall i, j :: 0 <= i < j < |r| ==> r[i] != r[j]
  {
    if queue != [] {
      var rest := queue[1..];
      assert forall i :: 0 <= i < |rest| ==> rest[i] == queue[i + 1];
      RemovedSound(rest, f);
      assert queue[0] !in rest && queue[0] !in Removed(rest, f);
    }
  }

  /** The mailbox lists each message once. */
  predicate Lists(e: Event) {
    e.Restart? ==> forall i, j :: 0 <= i < j < |e.listed| ==> e.listed[i] != e.listed[j]
  }

  lemma {:induction false} LoadedSound(slots: map<Id, Receipt>, listed: seq<Id>)
    requires forall id :: id in slots ==> slots[id].id == id
    requires forall i, j :: 0 <= i < j < |listed| ==> listed[i] != listed[j]
    ensures var r := Loaded(slots, listed);
            && (forall i, j :: 0 <= i < j < |r| ==> r[i] != r[j])
            && (forall f :: f in r ==> f.id in listed && f.id in slots && slots[f.id] == f)
  {
    if listed != [] {
      LoadedSound(slots, listed[1..]);
      assert listed[0] !in listed[1..];
    }
  }

  lemma ApplySound(s: State, e: Event)
    requires Sound(s) && Lists(e)
    ensures Sound(Apply(s, e))
  {
    match e
    case Transmit(f, ok) =>
    case Flush(f, ok) => RemovedSound(s.queue, f);
    case Restart(listed) => LoadedSound(s.slots, listed);
  }

  /** Exactly when a frame loses its place on disk while it waits: when a different frame for the same
      message is made durable over it, or is handed over and clears the slot they share. */
  lemma ExposedExactly(s: State, e: Event, f: Receipt)
    requires Sound(s) && Lists(e) && !Exposed(s, f)
    ensures Exposed(Apply(s, e), f) <==> Displaces(s, e, f)
  {
    match e
    case Transmit(g, ok) =>
    case Flush(g, ok) => RemovedSound(s.queue, g);
    case Restart(listed) => LoadedSound(s.slots, listed);
  }

  /** In every run from a restart on, each waiting frame is durable unless a step of the run displaced it. */
  lemma {:induction false} WaitingIsDurable(s: State, events: seq<Event>, f: Receipt)
    requires Sound(s) && s.queue == [] && forall e :: e in events ==> Lists(e)
    ensures Sound(Run(s, events))
    ensures Exposed(Run(s, events), f) ==>
              exists i :: 0 <= i < |events| && Displaces(Run(s, events[..i]), events[i], f)
  {
    hide Apply, Sound, Displaces, Exposed, Lists;
    if events == [] {
      NothingExposed(s, f);
    } else {
      var n := |events| - 1;
      assert events[n] in events;
      WaitingIsDurable(s, events[..n], f);
      ApplySound(Run(s, events[..n]), events[n]);
      if Exposed(Run(s, events[..n]), f) {
        var i :| 0 <= i < n && Displaces(Run(s, events[..n][..i]), events[..n][i], f);
        assert events[..n][..i] == events[..i];
      } else {
        ExposedExactly(Run(s, events[..n]), events[n], f);
      }
    }
  }

  lemma NothingExposed(s: State, f: Receipt)
    requires s.queue == []
    ensures !Exposed(s, f)
  {
  }
}

/** The same in the form the coordinator runs it. */
module ReceiptCoordinator {
  import opened ReceiptSlots

  class RadioCoordinator {
    var slots: map<Id, Receipt>
    var queue: seq<Receipt>

    ghost function View(): State
      reads this
    {
      State(slots, queue)
    }

    /** The receipts a restart finds, in the order the mailbox lists its messages. */
    constructor (onDisk: map<Id, Receipt>, listed: seq<Id>)
      ensures View() == Apply(State(onDisk, []), Restart(listed))
    {
      slots, queue := onDisk, Loaded(onDisk, listed);
    }

    /** `transmit_receipt`. */
    method TransmitReceipt(frame: Receipt, writeOk: bool) returns (ok: bool)
      modifies this
      ensures ok == writeOk && View() == Apply(old(View()), Transmit(frame, writeOk))
    {
      if !writeOk { return false; }
      slots := slots[frame.id := frame];
      if frame !in queue {
        queue := queue + [frame];
      }
      ok := true;
    }

    /** `flush_receipts`, over a copy of the queue: `ready` are the radios that can transmit, `bad` the
        messages whose slot cannot be written; the first of these ends the pass. */
    method FlushReceipts(ready: set<nat>, bad: set<Id>) returns (ok: bool, ghost events: seq<Event>)
      requires Sound(View())
      modifies this
      ensures View() == Run(old(View()), events) && Sound(View())
      ensures ok ==> forall f :: f in queue <==> f in old(queue) && f.radio !in ready
      ensures !ok ==> exists f :: f in old(queue) && f !in queue && f.id in bad
    {
      var copy := queue;
      events := [];
      var i := 0;
      while i < |copy|
        invariant 0 <= i <= |copy| && Sound(View()) && copy == old(queue)
        invariant forall f :: f in queue <==> f in copy && !(f in copy[..i] && f.radio in ready)
        invariant View() == Run(old(View()), events)
      {
        var frame := copy[i];
        if frame.radio in ready {
          hide Run;
          ghost var before := View();
          assert frame in queue;
          queue := Removed(queue, frame);
          var writeOk := frame.id !in bad;
          if writeOk {
            slots := slots - {frame.id};
          }
          assert View() == Apply(before, Flush(frame, writeOk));
          ApplySound(before, Flush(frame, writeOk));
          RemovedSound(before.queue, frame);
          RunAppend(old(View()), events, Flush(frame, writeOk));
          events := events + [Flush(frame, writeOk)];
          if !writeOk { return false, events; }
        }
        i := i + 1;
      }
      ok := true;
    }
  }

  lemma RunAppend(s: State, events: seq<Event>, e: Event)
    ensures Run(s, events + [e]) == Apply(Run(s, events), e)
  {
    assert (events + [e])[..|events|] == events;
  }
}
