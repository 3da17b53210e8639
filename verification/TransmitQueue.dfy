/** The control transmitter's queue.  Frames are admitted under one condition variable and sent by a
    worker thread each; a step below is one critical section or one action of a worker between two. */
module TxProtocol {
  import opened Wrappers

  type Token = nat
  type Callback = nat

  /** Frame types as the queue distinguishes them: offers may wait with a callback, all requests are
      withdrawn with their message, queries with their discovery. */
  datatype Kind = Offer | Request | Query | Other

  /** A frame object: `obj` is its identity, the rest is what equality compares. */
  datatype Frame = Frame(obj: nat, kind: Kind, msg: nat, content: nat)

  predicate SameFrame(a: Frame, b: Frame) { a.kind == b.kind && a.msg == b.msg && a.content == b.content }

  datatype Item = FrameItem(frame: Frame) | MorseItem(text: nat)

  /** A held item on its way back into the queue, with the callback it was held with. */
  datatype Held = Held(item: Item, cb: Option<Callback>)

  /** Where a worker stands: waiting for earlier frames (Morse only), for the transmitter lock, in
      possession of it, of the channel, of the keyed radio, releasing, or about to report. */
  datatype Pc = AwaitFrames | AwaitLock | Locked | Acquired | Keyed | Releasing | Ending

  datatype Worker = Worker(pc: Pc, morse: bool, cb: Option<Callback>)

  /** History: who has to fire a callback, that it fired, or that nobody will. */
  datatype Place = AtWorker(token: Token) | AtHeld(obj: nat) | AtResume(obj: nat) | Fired | Lost

  datatype State = State(
    stopped: bool, suspended: bool,
    pendingTx: int, postPending: int, nextToken: nat,
    pendingFrames: map<Token, Option<Frame>>, cancelled: set<Token>,
    deferred: seq<Item>, completions: map<nat, Callback>, resuming: seq<Held>,
    workers: map<Token, Worker>, txLock: Option<Token>, transmitting: bool,
    place: map<Callback, Place>, fired: multiset<Callback>)

  datatype Event =
    | Send(frame: Frame, cb: Option<Callback>)
    | SendMorse(text: nat)
    | Suspend
    | Resume
    | ResumeOne
    | Stop
    | Start
    | Discard(msg: nat, query: Option<nat>)
    | MorseGo(t: Token)
    | NoDevice(t: Token)
    | TakeLock(t: Token)
    | Fail(t: Token)
    | Acquire(t: Token, allowed: bool, quiet: bool)
    | PttOn(t: Token, hardwareOk: bool)
    | PttOff(t: Token)
    | Release(t: Token)
    | Finish(t: Token)

  function Fire(s: State, cb: Option<Callback>): State {
    if cb.None? then s
    else s.(place := s.place[cb.value := Fired], fired := s.fired + multiset{cb.value})
  }

  /** `_control_tx_cancelled`. */
  predicate TxCancelled(s: State, t: Token) { s.stopped || t in s.cancelled }

  predicate Waits(deferred: seq<Item>, frame: Frame) {
    exists i :: 0 <= i < |deferred| && deferred[i].FrameItem? && SameFrame(deferred[i].frame, frame)
  }

  /** A callback registered under the same frame object is replaced. */
  function Overwritten(s: State, obj: nat): map<Callback, Place> {
    if obj in s.completions then s.place[s.completions[obj] := Lost] else s.place
  }

  /** `send`. */
  function SendStep(s: State, frame: Frame, cb: Option<Callback>): State {
    if s.stopped then Fire(s, cb)
    else if s.suspended then
      if cb.Some? && !frame.kind.Offer? then Fire(s, cb)
      else
        var s1 := if Waits(s.deferred, frame) then s else s.(deferred := s.deferred + [FrameItem(frame)]);
        if cb.None? then s1
        else s1.(completions := s1.completions[frame.obj := cb.value],
                 place := Overwritten(s1, frame.obj)[cb.value := AtHeld(frame.obj)])
    else
      var t := s.nextToken + 1;
      var s1 := s.(pendingTx := s.pendingTx + 1, nextToken := t, pendingFrames := s.pendingFrames[t := Some(frame)],
                   workers := s.workers[t := Worker(AwaitLock, false, cb)]);
      if cb.None? then s1 else s1.(place := s1.place[cb.value := AtWorker(t)])
  }

  /** `send_morse_after_pending`, for a text that is not empty. */
  function MorseStep(s: State, text: nat): State {
    if s.stopped then s
    else if s.suspended then s.(deferred := s.deferred + [MorseItem(text)])
    else
      var t := s.nextToken + 1;
      s.(pendingTx := s.pendingTx + 1, postPending := s.postPending + 1, nextToken := t,
         pendingFrames := s.pendingFrames[t := None], workers := s.workers[t := Worker(AwaitFrames, true, None)])
  }

  function WithCallbacks(deferred: seq<Item>, completions: map<nat, Callback>): (r: seq<Held>)
    ensures |r| == |deferred|
    ensures forall i :: 0 <= i < |r| ==> r[i] == HeldFor(deferred[i], completions)
  {
    seq(|deferred|, i requires 0 <= i < |deferred| => HeldFor(deferred[i], completions))
  }

  function HeldFor(item: Item, completions: map<nat, Callback>): Held {
    Held(item, if item.FrameItem? && item.frame.obj in completions then Some(completions[item.frame.obj]) else None)
  }

  /** The identities of the held frames. */
  function HeldObjs(deferred: seq<Item>): set<nat> {
    set i | 0 <= i < |deferred| && deferred[i].FrameItem? :: deferred[i].frame.obj
  }

  /** Callbacks travel with their held frame; one whose frame is not held is never looked up again. */
  function Moved(s: State): map<Callback, Place> {
    map c | c in s.place ::
      if s.place[c].AtHeld? then if s.place[c].obj in HeldObjs(s.deferred) then AtResume(s.place[c].obj) else Lost
      else s.place[c]
  }

  /** `_resume_queued_tx`, its critical section. */
  function ResumeStep(s: State): State {
    s.(suspended := false, deferred := [], completions := map[], place := Moved(s),
       resuming := s.resuming + WithCallbacks(s.deferred, s.completions))
  }

  /** Its loop: one held item is submitted again. */
  function ResumeOneStep(s: State): State {
    if s.resuming == [] then s
    else
      var h, s1 := s.resuming[0], s.(resuming := s.resuming[1..]);
      match h.item
      case FrameItem(frame) => SendStep(s1, frame, h.cb)
      case MorseItem(text) => MorseStep(s1, text)
  }

  /** The callbacks registered under the given frame objects fire. */
  function FireAll(s: State, objs: set<nat>): State {
    var cbs := set o | o in objs && o in s.completions :: s.completions[o];
    s.(place := (map c | c in s.place :: if c in cbs then Fired else s.place[c]),
       fired := s.fired + multiset(cbs), completions := s.completions - objs)
  }

  /** `stop`: held work is dropped, admitted work is cancelled. */
  function StopStep(s: State): State {
    FireAll(s, s.completions.Keys).(stopped := true, suspended := false, deferred := [],
                                    cancelled := s.cancelled + s.pendingFrames.Keys)
  }

  predicate Withdrawn(frame: Frame, msg: nat, query: Option<nat>) {
    || (frame.msg == msg && (frame.kind.Offer? || frame.kind.Request?))
    || (query.Some? && frame.msg == query.value && frame.kind.Query?)
  }

  function Kept(deferred: seq<Item>, msg: nat, query: Option<nat>): seq<Item> {
    if deferred == [] then [] else
      var n := |deferred| - 1;
      Kept(deferred[..n], msg, query)
      + if deferred[n].FrameItem? && Withdrawn(deferred[n].frame, msg, query) then [] else [deferred[n]]
  }

  /** The identities of the withdrawn frames. */
  function WithdrawnObjs(deferred: seq<Item>, msg: nat, query: Option<nat>): set<nat> {
    set i | 0 <= i < |deferred| && deferred[i].FrameItem? && Withdrawn(deferred[i].frame, msg, query)
          :: deferred[i].frame.obj
  }

  /** `discard_deferred_message`. */
  function DiscardStep(s: State, msg: nat, query: Option<nat>): State {
    FireAll(s, WithdrawnObjs(s.deferred, msg, query)).(
      deferred := Kept(s.deferred, msg, query),
      cancelled := s.cancelled + WithdrawnTokens(s.pendingFrames, msg, query))
  }

  /** Tokens admitted for a withdrawn frame. */
  function WithdrawnTokens(pending: map<Token, Option<Frame>>, msg: nat, query: Option<nat>): set<Token> {
    set t | t in pending && pending[t].Some? && Withdrawn(pending[t].value, msg, query)
  }

  /** The worker reports: its token leaves the queue and its callback fires. */
  function FinishStep(s: State, t: Token): State {
    if t !in s.workers || !s.workers[t].pc.Ending? then s
    else
      var w := s.workers[t];
      Fire(s.(pendingFrames := s.pendingFrames - {t}, cancelled := s.cancelled - {t}, pendingTx := s.pendingTx - 1,
              postPending := if w.morse then s.postPending - 1 else s.postPending, workers := s.workers - {t}), w.cb)
  }

  /** Between taking the transmitter lock and giving it back. */
  predicate HoldsLock(pc: Pc) { pc.Locked? || pc.Acquired? || pc.Keyed? || pc.Releasing? }

  /** Where one action takes a worker: `free` is the transmitter lock, `dead` the cancellation test,
      `alone` that only Morse identifiers are pending. */
  function NextPc(pc: Pc, e: Event, free: bool, stopped: bool, dead: bool, alone: bool): Pc {
    match e
    case MorseGo(_) => if !pc.AwaitFrames? then pc else if alone then AwaitLock else if dead then Ending else pc
    case NoDevice(_) => if pc.AwaitLock? then Ending else pc
    case TakeLock(_) => if !pc.AwaitLock? || !free then pc else if stopped then Ending else Locked
    case Fail(_) => if pc.Locked? then Ending else pc
    case Acquire(_, allowed, quiet) =>
      if !pc.Locked? then pc else if !allowed || dead then Releasing else if quiet then Acquired else pc
    case PttOn(_, hardwareOk) => if !pc.Acquired? then pc else if dead || !hardwareOk then Releasing else Keyed
    case PttOff(_) => if pc.Keyed? then Releasing else pc
    case Release(_) => if pc.Releasing? then Ending else pc
    case _ => pc
  }

  /** One action of the worker for token `t`: its program counter, the lock it takes or gives back,
      and the busy mark it sets on acquiring and clears on releasing. */
  function WorkerStep(s: State, e: Event, t: Token): State {
    if t !in s.workers then s
    else
      var pc := s.workers[t].pc;
      var pc' := NextPc(pc, e, s.txLock.None?, s.stopped, TxCancelled(s, t), s.pendingTx <= s.postPending);
      s.(workers := s.workers[t := s.workers[t].(pc := pc')],
         txLock := if HoldsLock(pc') then Some(t) else if HoldsLock(pc) then None else s.txLock,
         transmitting := if pc.Locked? && pc'.Acquired? then true
                         else if pc.Releasing? && pc'.Ending? then false
                         else s.transmitting)
  }

  function Apply(s: State, e: Event): State {
    match e
    case Send(frame, cb) => SendStep(s, frame, cb)
    case SendMorse(text) => MorseStep(s, text)
    case Suspend => s.(suspended := true)
    case Resume => ResumeStep(s)
    case ResumeOne => ResumeOneStep(s)
    case Stop => StopStep(s)
    case Start => s.(stopped := false)
    case Discard(msg, query) => DiscardStep(s, msg, query)
    case Finish(t) => FinishStep(s, t)
    case MorseGo(t) => WorkerStep(s, e, t)
    case NoDevice(t) => WorkerStep(s, e, t)
    case TakeLock(t) => WorkerStep(s, e, t)
    case Fail(t) => WorkerStep(s, e, t)
    case Acquire(t, allowed, quiet) => WorkerStep(s, e, t)
    case PttOn(t, ok) => WorkerStep(s, e, t)
    case PttOff(t) => WorkerStep(s, e, t)
    case Release(t) => WorkerStep(s, e, t)
  }

  function Run(s: State, events: seq<Event>): State {
    if events == [] then s else Apply(Run(s, events[..|events| - 1]), events[|events| - 1])
  }

  /** A transport that has admitted nothing yet. */
  ghost predicate Initial(s: State) {
    s == State(s.stopped, false, 0, 0, 0, map[], {}, [], map[], [], map[], None, false, map[], multiset{})
  }

  // ---------------------------------------------------------------------------------------
  // The queue's books

  function MorseTokens(pending: map<Token, Option<Frame>>): set<Token> {
    set t | t in pending && pending[t].None?
  }

  /** Counters agree with the token map, tokens with workers, and cancellations with tokens. */
  ghost predicate Books(s: State) {
    && s.pendingTx == |s.pendingFrames| && s.postPending == |MorseTokens(s.pendingFrames)|
    && s.cancelled <= s.pendingFrames.Keys && s.workers.Keys == s.pendingFrames.Keys
    && (forall t :: t in s.workers ==> 0 < t <= s.nextToken && (s.workers[t].morse <==> s.pendingFrames[t].None?))
  }

  /** The lock is held by exactly the worker between taking and releasing it, and the transmitter is
      marked busy only between acquiring and releasing the channel. */
  ghost predicate LockDiscipline(s: State) {
    && (forall t :: t in s.workers ==> (HoldsLock(s.workers[t].pc) <==> s.txLock == Some(t)))
    && (s.txLock.Some? ==> s.txLock.value in s.workers)
    && (s.transmitting ==> s.txLock.Some? && !s.workers[s.txLock.value].pc.Locked?)
    && (s.txLock.Some? && (s.workers[s.txLock.value].pc.Acquired? || s.workers[s.txLock.value].pc.Keyed?)
        ==> s.transmitting)
  }

  /** The worker has been let past its wait for earlier frames and may yet transmit. */
  predicate PastWait(w: Worker) { w.morse && !w.pc.AwaitFrames? && !w.pc.Ending? }

  /** A Morse worker past its wait has no earlier frame ahead of it. */
  ghost predicate MorseOrder(s: State) {
    forall t, u :: t in s.workers && u in s.pendingFrames && u < t && PastWait(s.workers[t])
           ==> s.pendingFrames[u].None?
  }

  ghost predicate Sound(s: State) { Books(s) && LockDiscipline(s) && MorseOrder(s) }

  lemma SubsetOfSameSize(a: set<Token>, b: set<Token>)
    requires a <= b && |b| <= |a|
    ensures a == b
  {
    assert |b - a| == |b| - |a|;
  }

  lemma MorseTokensAdd(pending: map<Token, Option<Frame>>, t: Token, f: Option<Frame>)
    requires t !in pending
    ensures |pending[t := f]| == |pending| + 1
    ensures |MorseTokens(pending[t := f])| == |MorseTokens(pending)| + (if f.None? then 1 else 0)
  {
    var after := pending[t := f];
    assert after.Keys == pending.Keys + {t};
    if f.None? {
      assert MorseTokens(after) == MorseTokens(pending) + {t};
    } else {
      assert MorseTokens(after) == MorseTokens(pending);
    }
  }

  lemma MorseTokensRemove(pending: map<Token, Option<Frame>>, t: Token)
    requires t in pending
    ensures |pending - {t}| == |pending| - 1
    ensures |MorseTokens(pending - {t})| == |MorseTokens(pending)| - (if pending[t].None? then 1 else 0)
  {
    var after := pending - {t};
    assert after.Keys == pending.Keys - {t};
    if pending[t].None? {
      assert MorseTokens(after) == MorseTokens(pending) - {t};
    } else {
      assert MorseTokens(after) == MorseTokens(pending);
    }
  }

  /** Admission of a frame or a Morse identifier. */
  function Admit(s: State, f: Option<Frame>, w: Worker): State {
    var t := s.nextToken + 1;
    s.(pendingTx := s.pendingTx + 1, postPending := if f.None? then s.postPending + 1 else s.postPending,
       nextToken := t,
       pendingFrames := s.pendingFrames[t := f], workers := s.workers[t := w])
  }

  lemma AdmitBooks(s: State, f: Option<Frame>, w: Worker)
    requires Books(s) && (w.morse <==> f.None?)
    ensures Books(Admit(s, f, w))
  {
    hide MorseTokens;
    var t, u := s.nextToken + 1, Admit(s, f, w);
    assert t !in s.workers.Keys;
    MorseTokensAdd(s.pendingFrames, t, f);
    assert u.workers.Keys == s.workers.Keys + {t} && u.pendingFrames.Keys == s.pendingFrames.Keys + {t};
    forall k | k in u.workers
      ensures 0 < k <= u.nextToken && (u.workers[k].morse <==> u.pendingFrames[k].None?)
    {
      if k != t { assert k in s.workers; }
    }
  }

  lemma AdmitLock(s: State, f: Option<Frame>, w: Worker)
    requires LockDiscipline(s) && s.nextToken + 1 !in s.workers && !HoldsLock(w.pc)
    ensures LockDiscipline(Admit(s, f, w))
  {
  }

  lemma AdmitOrder(s: State, f: Option<Frame>, w: Worker)
    requires MorseOrder(s) && !PastWait(w) && forall t :: t in s.workers ==> t <= s.nextToken
    ensures MorseOrder(Admit(s, f, w))
  {
    hide PastWait;
  }

  lemma AdmitSound(s: State, f: Option<Frame>, w: Worker)
    requires Sound(s) && (w.morse <==> f.None?) && (w.pc == if w.morse then AwaitFrames else AwaitLock)
    ensures Sound(Admit(s, f, w))
  {
    hide LockDiscipline, MorseOrder;
    AdmitBooks(s, f, w);
    assert forall t :: t in s.workers ==> t <= s.nextToken;
    assert s.nextToken + 1 !in s.workers;
    hide Books;
    AdmitLock(s, f, w);
    AdmitOrder(s, f, w);
  }

  /** `t` differs from `s` at most in held work, flags and history. */
  predicate SameQueue(s: State, t: State) {
    && t.pendingTx == s.pendingTx && t.postPending == s.postPending && t.nextToken == s.nextToken
    && t.pendingFrames == s.pendingFrames && t.workers == s.workers && t.txLock == s.txLock
    && t.transmitting == s.transmitting
  }

  /** What a send does to the queue proper: it admits the frame or leaves the queue alone. */
  lemma SendShape(s: State, frame: Frame, cb: Option<Callback>)
    ensures var t := SendStep(s, frame, cb);
            && t.cancelled == s.cancelled
            && SameQueue(if s.stopped || s.suspended then s else Admit(s, Some(frame), Worker(AwaitLock, false, cb)), t)
  {
    hide Waits, Overwritten, Admit;
    if !s.stopped && !s.suspended { AdmitIs(s, frame, cb); }
  }

  /** Admitting a frame also records where its callback is. */
  lemma AdmitIs(s: State, frame: Frame, cb: Option<Callback>)
    requires !s.stopped && !s.suspended
    ensures var t := SendStep(s, frame, cb);
            t == Admit(s, Some(frame), Worker(AwaitLock, false, cb)).(place := t.place) && t.cancelled == s.cancelled
  {
  }

  lemma SendSound(s: State, frame: Frame, cb: Option<Callback>)
    requires Sound(s)
    ensures Sound(SendStep(s, frame, cb))
  {
    hide Sound, SendStep;
    SendShape(s, frame, cb);
    if !s.stopped && !s.suspended {
      AdmitSound(s, Some(frame), Worker(AwaitLock, false, cb));
      SameBooks(Admit(s, Some(frame), Worker(AwaitLock, false, cb)), SendStep(s, frame, cb));
    } else {
      SameBooks(s, SendStep(s, frame, cb));
    }
  }

  lemma MorseSound(s: State, text: nat)
    requires Sound(s)
    ensures Sound(MorseStep(s, text))
  {
    hide Sound;
    if !s.stopped && !s.suspended {
      AdmitSound(s, None, Worker(AwaitFrames, true, None));
    } else {
      SameBooks(s, MorseStep(s, text));
    }
  }

  /** The queue without a token. */
  function Dismiss(s: State, t: Token): State
    requires t in s.workers
  {
    s.(pendingFrames := s.pendingFrames - {t}, cancelled := s.cancelled - {t}, pendingTx := s.pendingTx - 1,
       postPending := if s.workers[t].morse then s.postPending - 1 else s.postPending, workers := s.workers - {t})
  }

  lemma DismissBooks(s: State, t: Token)
    requires Books(s) && t in s.workers
    ensures Books(Dismiss(s, t))
  {
    hide MorseTokens;
    MorseTokensRemove(s.pendingFrames, t);
    assert Dismiss(s, t).workers.Keys == s.workers.Keys - {t};
  }

  lemma DismissLock(s: State, t: Token)
    requires LockDiscipline(s) && t in s.workers && s.workers[t].pc.Ending?
    ensures LockDiscipline(Dismiss(s, t))
  {
    assert s.txLock != Some(t);
  }

  lemma DismissOrder(s: State, t: Token)
    requires MorseOrder(s) && t in s.workers
    ensures MorseOrder(Dismiss(s, t))
  {
    hide PastWait;
  }

  lemma FinishSound(s: State, t: Token)
    requires Sound(s)
    ensures Sound(FinishStep(s, t))
  {
    hide Books, LockDiscipline, MorseOrder;
    if t in s.workers && s.workers[t].pc.Ending? {
      DismissBooks(s, t);
      DismissLock(s, t);
      DismissOrder(s, t);
      SameBooks(Dismiss(s, t), FinishStep(s, t));
    }
  }

  /** Only the end of the wait lets a Morse worker past it, and only when no frame is pending. */
  lemma PastWaitOnlyAlone(pc: Pc, e: Event, free: bool, stopped: bool, dead: bool, alone: bool)
    ensures var pc' := NextPc(pc, e, free, stopped, dead, alone);
            (pc.AwaitFrames? || pc.Ending?) && !pc'.AwaitFrames? && !pc'.Ending? ==> alone
  {
  }

  lemma WorkerKeepsBooks(s: State, e: Event, t: Token)
    requires Books(s) && t in s.workers
    ensures Books(WorkerStep(s, e, t))
  {
    hide NextPc, MorseTokens, PastWait;
    assert WorkerStep(s, e, t).workers.Keys == s.workers.Keys;
  }

  /** When every pending token is a Morse one, no frame is ahead of anything. */
  lemma AllMorse(s: State)
    requires Books(s) && s.pendingTx <= s.postPending
    ensures forall u :: u in s.pendingFrames ==> s.pendingFrames[u].None?
  {
    SubsetOfSameSize(MorseTokens(s.pendingFrames), s.pendingFrames.Keys);
    assert forall u :: u in s.pendingFrames ==> u in MorseTokens(s.pendingFrames);
  }

  lemma WorkerKeepsOrder(s: State, e: Event, t: Token)
    requires Books(s) && MorseOrder(s) && t in s.workers
    ensures MorseOrder(WorkerStep(s, e, t))
  {
    hide NextPc, Books;
    PastWaitOnlyAlone(s.workers[t].pc, e, s.txLock.None?, s.stopped, TxCancelled(s, t), s.pendingTx <= s.postPending);
    if s.pendingTx <= s.postPending { AllMorse(s); }
  }

  /** The moves that touch the lock: taking it when free, and giving it back only from a state that
      has left the channel. */
  lemma LockMoves(pc: Pc, e: Event, free: bool, stopped: bool, dead: bool, alone: bool)
    ensures var pc' := NextPc(pc, e, free, stopped, dead, alone);
            && (HoldsLock(pc') && !HoldsLock(pc) ==> free && pc'.Locked?)
            && (HoldsLock(pc) && !HoldsLock(pc') ==> pc'.Ending? && (pc.Locked? || pc.Releasing?))
            && (pc'.Locked? && HoldsLock(pc) ==> pc.Locked?)
            && (pc'.Acquired? && !pc.Acquired? ==> pc.Locked?) && (pc'.Keyed? && !pc.Keyed? ==> pc.Acquired?)
  {
  }

  lemma WorkerKeepsLock(s: State, e: Event, t: Token)
    requires LockDiscipline(s) && t in s.workers
    ensures LockDiscipline(WorkerStep(s, e, t))
  {
    hide NextPc;
    LockMoves(s.workers[t].pc, e, s.txLock.None?, s.stopped, TxCancelled(s, t), s.pendingTx <= s.postPending);
  }

  lemma WorkerSound(s: State, e: Event, t: Token)
    requires Sound(s)
    ensures Sound(WorkerStep(s, e, t))
  {
    hide Books, LockDiscipline, MorseOrder;
    if t in s.workers {
      WorkerKeepsBooks(s, e, t);
      WorkerKeepsOrder(s, e, t);
      WorkerKeepsLock(s, e, t);
    }
  }

  lemma ApplySound(s: State, e: Event)
    requires Sound(s)
    ensures Sound(Apply(s, e))
  {
    hide Sound, SendStep, MorseStep, FinishStep, WorkerStep;
    match e
    case Send(frame, cb) => SendSound(s, frame, cb);
    case SendMorse(text) => MorseSound(s, text);
    case ResumeOne =>
      if s.resuming != [] {
        var s1 := s.(resuming := s.resuming[1..]);
        SameBooks(s, s1);
        match s.resuming[0].item {
          case FrameItem(frame) => SendSound(s1, frame, s.resuming[0].cb);
          case MorseItem(text) => MorseSound(s1, text);
        }
      }
    case MorseGo(t) => WorkerSound(s, e, t);
    case NoDevice(t) => WorkerSound(s, e, t);
    case TakeLock(t) => WorkerSound(s, e, t);
    case Fail(t) => WorkerSound(s, e, t);
    case Acquire(t, allowed, quiet) => WorkerSound(s, e, t);
    case PttOn(t, ok) => WorkerSound(s, e, t);
    case PttOff(t) => WorkerSound(s, e, t);
    case Release(t) => WorkerSound(s, e, t);
    case Finish(t) => FinishSound(s, t);
    case Stop => SameBooks(s, Apply(s, e));
    case Discard(msg, query) => SameBooks(s, Apply(s, e));
    case _ => SameBooks(s, Apply(s, e));
  }

  /** Steps that touch only held work and flags keep the books. */
  lemma SameBooks(s: State, t: State)
    requires Sound(s) && SameQueue(s, t) && t.cancelled <= s.cancelled + s.pendingFrames.Keys
    ensures Sound(t)
  {
    hide PastWait, MorseTokens;
  }

  /** In every interleaving the books agree, one worker at most holds the transmitter, and no Morse
      identifier overtakes an earlier frame. */
  lemma {:induction false} RunSound(s: State, events: seq<Event>)
    requires Initial(s)
    ensures Sound(Run(s, events))
  {
    hide Apply;
    if events != [] {
      RunSound(s, events[..|events| - 1]);
      ApplySound(Run(s, events[..|events| - 1]), events[|events| - 1]);
    }
  }

  /** Pending work is counted exactly and cancellations name pending tokens only. */
  lemma PendingCountExact(s: State, events: seq<Event>)
    requires Initial(s)
    ensures var t := Run(s, events);
            && t.pendingTx == |t.pendingFrames| && t.cancelled <= t.pendingFrames.Keys
            && t.workers.Keys == t.pendingFrames.Keys
  {
    RunSound(s, events);
  }

  /** Never two workers between acquiring and releasing the channel, so never two keyed. */
  lemma OneTransmitter(s: State, events: seq<Event>, t: Token, u: Token)
    requires Initial(s)
    requires var r := Run(s, events);
             t in r.workers && u in r.workers && HoldsLock(r.workers[t].pc) && HoldsLock(r.workers[u].pc)
    ensures t == u
  {
    RunSound(s, events);
  }

  /** A Morse identifier is keyed only after every frame admitted before it has finished. */
  lemma MorseAfterEarlierFrames(s: State, events: seq<Event>, t: Token, u: Token)
    requires Initial(s)
    requires var r := Run(s, events);
             t in r.workers && r.workers[t].morse && r.workers[t].pc.Keyed? && u < t && u in r.workers
    ensures Run(s, events).workers[u].morse
  {
    RunSound(s, events);
  }

  // ---------------------------------------------------------------------------------------
  // Cancellation

  /** The token is cancelled before its PTT check, or its worker is gone or past it. */
  ghost predicate Doomed(s: State, t: Token) {
    && t <= s.nextToken
    && (t in s.workers ==> !s.workers[t].pc.Keyed?
                           && (t in s.cancelled || s.workers[t].pc.Releasing? || s.workers[t].pc.Ending?))
  }

  lemma WorkerDoomed(s: State, e: Event, u: Token, t: Token)
    requires Doomed(s, t)
    ensures Doomed(WorkerStep(s, e, u), t)
  {
  }

  lemma SendDoomed(s: State, frame: Frame, cb: Option<Callback>, t: Token)
    requires Doomed(s, t)
    ensures Doomed(SendStep(s, frame, cb), t)
  {
  }

  lemma ApplyDoomed(s: State, e: Event, t: Token)
    requires Doomed(s, t)
    ensures Doomed(Apply(s, e), t)
  {
    hide SendStep, WorkerStep;
    match e
    case Send(frame, cb) => SendDoomed(s, frame, cb, t);
    case ResumeOne =>
      if s.resuming != [] && s.resuming[0].item.FrameItem? {
        SendDoomed(s.(resuming := s.resuming[1..]), s.resuming[0].item.frame, s.resuming[0].cb, t);
      }
    case MorseGo(u) => WorkerDoomed(s, e, u, t);
    case NoDevice(u) => WorkerDoomed(s, e, u, t);
    case TakeLock(u) => WorkerDoomed(s, e, u, t);
    case Fail(u) => WorkerDoomed(s, e, u, t);
    case Acquire(u, allowed, quiet) => WorkerDoomed(s, e, u, t);
    case PttOn(u, ok) => WorkerDoomed(s, e, u, t);
    case PttOff(u) => WorkerDoomed(s, e, u, t);
    case Release(u) => WorkerDoomed(s, e, u, t);
    case _ =>
  }

  /** A token cancelled before its PTT check is never keyed, whatever happens next. */
  lemma {:induction false} CancelledNeverKeyed(s: State, before: seq<Event>, t: Token, after: seq<Event>)
    requires Initial(s)
    requires var r := Run(s, before);
             t in r.workers && t in r.cancelled && !r.workers[t].pc.Keyed?
    ensures var u := Run(Run(s, before), after); t in u.workers ==> !u.workers[t].pc.Keyed?
  {
    RunSound(s, before);
    DoomedForever(Run(s, before), t, after);
  }

  lemma {:induction false} DoomedForever(s: State, t: Token, after: seq<Event>)
    requires Sound(s) && Doomed(s, t)
    ensures Sound(Run(s, after)) && Doomed(Run(s, after), t)
  {
    hide Apply;
    if after != [] {
      var init := after[..|after| - 1];
      DoomedForever(s, t, init);
      ApplySound(Run(s, init), after[|after| - 1]);
      ApplyDoomed(Run(s, init), after[|after| - 1], t);
    }
  }

  // ---------------------------------------------------------------------------------------
  // Suspension

  /** Nothing is pending or keyed, and new work is held or refused. */
  ghost predicate Quiet(s: State) { (s.suspended || s.stopped) && s.pendingFrames == map[] && s.workers == map[] }

  lemma ApplyQuiet(s: State, e: Event)
    requires Quiet(s) && !e.Resume? && !e.Start?
    ensures Quiet(Apply(s, e))
  {
  }

  /** Once `suspend` has seen the queue drain, nothing becomes pending or keyed until the queue is
      resumed or the channel started again. */
  lemma {:induction false} SuspendedStaysQuiet(s: State, before: seq<Event>, after: seq<Event>)
    requires Initial(s) && Run(s, before).suspended && Run(s, before).pendingTx == 0
    requires forall i :: 0 <= i < |after| ==> !after[i].Resume? && !after[i].Start?
    ensures Quiet(Run(Run(s, before), after))
  {
    if after == [] {
      RunSound(s, before);
    } else {
      hide Apply;
      var init := after[..|after| - 1];
      SuspendedStaysQuiet(s, before, init);
      ApplyQuiet(Run(Run(s, before), init), after[|after| - 1]);
    }
  }

  // ---------------------------------------------------------------------------------------
  // Completion callbacks

  /** Held frames are pairwise different objects. */
  ghost predicate DistinctHeld(deferred: seq<Item>) {
    forall i, j :: 0 <= i < j < |deferred| && deferred[i].FrameItem? && deferred[j].FrameItem? ==>
                     deferred[i].frame.obj != deferred[j].frame.obj
  }

  /** Whoever carries a callback is the place recorded for it. */
  ghost predicate CarriersKnown(s: State) {
    && (forall t :: t in s.workers && s.workers[t].cb.Some? ==>
          s.workers[t].cb.value in s.place && s.place[s.workers[t].cb.value] == AtWorker(t))
    && (forall o :: o in s.completions ==>
          s.completions[o] in s.place && s.place[s.completions[o]] == AtHeld(o) && o in HeldObjs(s.deferred))
    && (forall i :: 0 <= i < |s.resuming| && s.resuming[i].cb.Some? ==>
          s.resuming[i].item.FrameItem? && s.resuming[i].cb.value in s.place
          && s.place[s.resuming[i].cb.value] == AtResume(s.resuming[i].item.frame.obj))
    && (forall i, j :: 0 <= i < j < |s.resuming| && s.resuming[i].cb.Some? ==> s.resuming[i].cb != s.resuming[j].cb)
  }

  predicate Resumes(resuming: seq<Held>, c: Callback) {
    exists i :: 0 <= i < |resuming| && resuming[i].cb == Some(c)
  }

  /** The place recorded for a callback carries it, or it has fired once. */
  ghost predicate PlaceTrue(s: State, c: Callback)
    requires c in s.place
  {
    && s.fired[c] == (if s.place[c].Fired? then 1 else 0)
    && match s.place[c]
       case AtWorker(t) => t in s.workers && s.workers[t].cb == Some(c)
       case AtHeld(o) => o in s.completions && s.completions[o] == c
       case AtResume(o) => Resumes(s.resuming, c)
       case Fired => true
       case Lost => false
  }

  ghost predicate Accounted(s: State) {
    && CarriersKnown(s) && DistinctHeld(s.deferred)
    && (forall c :: c in s.place ==> PlaceTrue(s, c))
    && (forall c :: c !in s.place ==> s.fired[c] == 0)
  }

  /** Frames that wait are pairwise unequal: a frame submitted while the queue is held is not equal to
      one already waiting if it carries a callback, and an object equals itself. */
  ghost predicate Unequal(s: State, frame: Frame, cb: Option<Callback>) {
    s.suspended && !s.stopped ==>
      && (cb.Some? ==> !Waits(s.deferred, frame))
      && (frame.obj in HeldObjs(s.deferred) ==> Waits(s.deferred, frame))
  }

  ghost predicate Proper(s: State, e: Event) {
    && (e.Send? ==> (e.cb.Some? ==> e.cb.value !in s.place) && Unequal(s, e.frame, e.cb))
    && (e.ResumeOne? && s.resuming != [] && s.resuming[0].item.FrameItem? ==>
          Unequal(s, s.resuming[0].item.frame, s.resuming[0].cb))
  }

  /** A callback nobody carries is handed to a send. */
  ghost predicate Free(s: State, cb: Option<Callback>) {
    cb.Some? ==>
      && s.fired[cb.value] == 0
      && (forall t :: t in s.workers ==> s.workers[t].cb != cb)
      && (forall o :: o in s.completions ==> s.completions[o] != cb.value)
      && (forall i :: 0 <= i < |s.resuming| ==> s.resuming[i].cb != cb)
  }

  /** Everything is accounted for except the callback in hand. */
  ghost predicate AccountedBut(s: State, cb: Option<Callback>) {
    && CarriersKnown(s) && DistinctHeld(s.deferred) && Free(s, cb)
    && (forall c :: c in s.place && Some(c) != cb ==> PlaceTrue(s, c))
    && (forall c :: c !in s.place ==> s.fired[c] == 0)
  }

  lemma FireAccounted(s: State, cb: Option<Callback>)
    requires AccountedBut(s, cb)
    ensures Accounted(Fire(s, cb))
  {
  }

  lemma HeldObjsAppend(deferred: seq<Item>, item: Item)
    ensures HeldObjs(deferred + [item]) == HeldObjs(deferred) + (if item.FrameItem? then {item.frame.obj} else {})
  {
    var d := deferred + [item];
    forall o | o in HeldObjs(deferred) ensures o in HeldObjs(d) {
      var i :| 0 <= i < |deferred| && deferred[i].FrameItem? && deferred[i].frame.obj == o;
      assert d[i] == deferred[i];
    }
    if item.FrameItem? { assert d[|deferred|] == item; }
  }

  lemma HoldAccounted(s: State, frame: Frame, cb: Option<Callback>)
    requires AccountedBut(s, cb) && s.suspended && !s.stopped && Unequal(s, frame, cb)
             && (cb.Some? ==> frame.kind.Offer?)
    ensures Accounted(SendStep(s, frame, cb))
  {
    HeldObjsAppend(s.deferred, FrameItem(frame));
    hide HeldObjs;
    var held := s.(deferred := s.deferred + [FrameItem(frame)]);
    if !Waits(s.deferred, frame) { HoldKeeps(s, FrameItem(frame), cb); }
    hide Waits;
    if cb.Some? { RegisterAccounted(held, frame.obj, cb.value); }
  }

  /** Appending a new held item disturbs nothing. */
  lemma HoldKeeps(s: State, item: Item, cb: Option<Callback>)
    requires AccountedBut(s, cb) && (item.FrameItem? ==> item.frame.obj !in HeldObjs(s.deferred))
    ensures AccountedBut(s.(deferred := s.deferred + [item]), cb)
  {
    HeldObjsAppend(s.deferred, item);
    assert forall i :: 0 <= i < |s.deferred| && s.deferred[i].FrameItem? ==>
             s.deferred[i].frame.obj in HeldObjs(s.deferred);
    hide HeldObjs, PlaceTrue;
    var t := s.(deferred := s.deferred + [item]);
    forall c | c in t.place && Some(c) != cb ensures PlaceTrue(t, c) { SamePlace(s, t, c); }
  }

  lemma SamePlace(s: State, t: State, c: Callback)
    requires c in s.place && c in t.place && PlaceTrue(s, c) && t.place[c] == s.place[c] && t.fired[c] == s.fired[c]
    requires t.workers == s.workers && t.completions == s.completions && t.resuming == s.resuming
    ensures PlaceTrue(t, c)
  {
  }

  lemma RegisterAccounted(s: State, obj: nat, c: Callback)
    requires AccountedBut(s, Some(c)) && obj in HeldObjs(s.deferred) && obj !in s.completions
    ensures Accounted(s.(completions := s.completions[obj := c], place := s.place[c := AtHeld(obj)]))
  {
    hide HeldObjs, Resumes;
  }

  lemma AdmitAccounted(s: State, frame: Frame, cb: Option<Callback>)
    requires AccountedBut(s, cb) && !s.suspended && !s.stopped && s.nextToken + 1 !in s.workers
    ensures Accounted(SendStep(s, frame, cb))
  {
    AdmitShape(s, frame, cb);
    AdmitCarriers(s, SendStep(s, frame, cb), cb);
    AdmitPlaces(s, SendStep(s, frame, cb), cb);
    hide SendStep, CarriersKnown, PlaceTrue, Free, DistinctHeld;
  }

  /** What admitting a frame with a callback does to what is accounted for. */
  ghost predicate AdmitsCallback(s: State, u: State, cb: Option<Callback>) {
    var n := s.nextToken + 1;
    && u.workers == s.workers[n := Worker(AwaitLock, false, cb)]
    && u.place == (if cb.None? then s.place else s.place[cb.value := AtWorker(n)])
    && u.fired == s.fired && u.completions == s.completions && u.resuming == s.resuming && u.deferred == s.deferred
  }

  lemma AdmitShape(s: State, frame: Frame, cb: Option<Callback>)
    requires !s.suspended && !s.stopped
    ensures AdmitsCallback(s, SendStep(s, frame, cb), cb)
  {
    hide Waits, Overwritten, Fire;
  }

  lemma AdmitCarriers(s: State, u: State, cb: Option<Callback>)
    requires CarriersKnown(s) && Free(s, cb) && AdmitsCallback(s, u, cb) && s.nextToken + 1 !in s.workers
    ensures CarriersKnown(u)
  {
    hide HeldObjs;
  }

  lemma AdmitPlaces(s: State, u: State, cb: Option<Callback>)
    requires AccountedBut(s, cb) && AdmitsCallback(s, u, cb) && s.nextToken + 1 !in s.workers
    ensures forall c :: c in u.place ==> PlaceTrue(u, c)
    ensures forall c :: c !in u.place ==> u.fired[c] == 0
  {
    hide HeldObjs, Resumes, CarriersKnown, DistinctHeld;
    forall c | c in u.place
      ensures PlaceTrue(u, c)
    {
      if Some(c) != cb {
        assert PlaceTrue(s, c);
      }
    }
  }

  lemma SendAccounted(s: State, frame: Frame, cb: Option<Callback>)
    requires AccountedBut(s, cb) && Unequal(s, frame, cb) && s.nextToken + 1 !in s.workers
    ensures Accounted(SendStep(s, frame, cb))
  {
    hide AccountedBut, Accounted, Waits, Overwritten, Unequal;
    if s.stopped || (s.suspended && cb.Some? && !frame.kind.Offer?) {
      FireAccounted(s, cb);
    } else if s.suspended {
      HoldAccounted(s, frame, cb);
    } else {
      AdmitAccounted(s, frame, cb);
    }
  }

  lemma PopAccounted(s: State)
    requires Accounted(s) && s.resuming != []
    ensures AccountedBut(s.(resuming := s.resuming[1..]), s.resuming[0].cb)
  {
    hide HeldObjs;
    var h, t := s.resuming[0], s.(resuming := s.resuming[1..]);
    assert forall i :: 0 <= i < |t.resuming| ==> t.resuming[i] == s.resuming[i + 1];
    if h.cb.Some? {
      assert PlaceTrue(s, h.cb.value);
    }
    forall c | c in t.place && Some(c) != h.cb
      ensures PlaceTrue(t, c)
    {
      assert PlaceTrue(s, c);
      if s.place[c].AtResume? {
        var i :| 0 <= i < |s.resuming| && s.resuming[i].cb == Some(c);
        assert t.resuming[i - 1].cb == Some(c);
      }
    }
  }

  lemma MorseAccounted(s: State, text: nat)
    requires Accounted(s) && s.nextToken + 1 !in s.workers
    ensures Accounted(MorseStep(s, text))
  {
    if !s.stopped && s.suspended {
      HoldKeeps(s, MorseItem(text), None);
    } else if !s.stopped {
      hide HeldObjs, Resumes;
    }
  }

  lemma ResumeOneAccounted(s: State)
    requires Accounted(s) && Proper(s, ResumeOne) && s.nextToken + 1 !in s.workers
    ensures Accounted(ResumeOneStep(s))
  {
    if s.resuming != [] {
      var h, s1 := s.resuming[0], s.(resuming := s.resuming[1..]);
      assert h.cb.Some? ==> h.item.FrameItem?;
      PopAccounted(s);
      hide Accounted, AccountedBut, SendStep, MorseStep;
      match h.item {
        case FrameItem(frame) => SendAccounted(s1, frame, h.cb);
        case MorseItem(text) =>
          NothingInHand(s1);
          MorseAccounted(s1, text);
      }
    }
  }

  lemma NothingInHand(s: State)
    ensures AccountedBut(s, None) <==> Accounted(s)
  {
  }

  lemma SubmitAccounted(s: State, frame: Frame, cb: Option<Callback>)
    requires Accounted(s) && Proper(s, Send(frame, cb)) && s.nextToken + 1 !in s.workers
    ensures Accounted(SendStep(s, frame, cb))
  {
    assert AccountedBut(s, cb) by {
      hide HeldObjs, Resumes;
      if cb.Some? { NobodyCarries(s, cb.value); }
    }
    SendAccounted(s, frame, cb);
  }

  lemma NobodyCarries(s: State, c: Callback)
    requires Accounted(s) && c !in s.place
    ensures Free(s, Some(c))
  {
    hide HeldObjs, PlaceTrue;
  }

  lemma FinishAccounted(s: State, t: Token)
    requires Accounted(s)
    ensures Accounted(FinishStep(s, t))
  {
    if t in s.workers && s.workers[t].pc.Ending? {
      var w, d := s.workers[t], Dismiss(s, t);
      DismissAccounted(s, t);
      hide Accounted, AccountedBut;
      FireAccounted(d, w.cb);
    }
  }

  lemma DismissAccounted(s: State, t: Token)
    requires Accounted(s) && t in s.workers
    ensures AccountedBut(Dismiss(s, t), s.workers[t].cb)
  {
    hide HeldObjs, Resumes, Books;
    var cb, d := s.workers[t].cb, Dismiss(s, t);
    DismissCarriers(s, t);
    forall c | c in d.place && Some(c) != cb
      ensures PlaceTrue(d, c)
    {
      assert PlaceTrue(s, c);
      assert s.place[c] != AtWorker(t);
    }
  }

  lemma DismissCarriers(s: State, t: Token)
    requires Accounted(s) && t in s.workers
    ensures CarriersKnown(Dismiss(s, t)) && Free(Dismiss(s, t), s.workers[t].cb)
  {
    DismissKnown(s, t);
    DismissFree(s, t);
    hide CarriersKnown, Free, Accounted, Dismiss;
  }

  lemma DismissKnown(s: State, t: Token)
    requires CarriersKnown(s) && t in s.workers
    ensures CarriersKnown(Dismiss(s, t))
  {
    hide HeldObjs, Resumes;
  }

  lemma DismissFree(s: State, t: Token)
    requires Accounted(s) && t in s.workers
    ensures Free(Dismiss(s, t), s.workers[t].cb)
  {
    hide HeldObjs, Resumes, DistinctHeld;
    if s.workers[t].cb.Some? { assert PlaceTrue(s, s.workers[t].cb.value); }
    hide PlaceTrue;
  }

  lemma WorkerAccounted(s: State, e: Event, t: Token)
    requires Accounted(s)
    ensures Accounted(WorkerStep(s, e, t))
  {
    hide HeldObjs, Resumes, NextPc, HoldsLock;
  }

  lemma ResumeAccounted(s: State)
    requires Accounted(s)
    ensures Accounted(ResumeStep(s))
  {
    var u := ResumeStep(s);
    var n := |s.resuming|;
    assert forall i :: 0 <= i < n ==> u.resuming[i] == s.resuming[i];
    assert forall i :: n <= i < |u.resuming| ==> u.resuming[i] == HeldFor(s.deferred[i - n], s.completions);
    ResumeCarriers(s);
    forall c | c in u.place
      ensures PlaceTrue(u, c)
    {
      assert PlaceTrue(s, c);
      if s.place[c].AtHeld? {
        var o := s.place[c].obj;
        var k :| 0 <= k < |s.deferred| && s.deferred[k].FrameItem? && s.deferred[k].frame.obj == o;
        assert u.resuming[n + k].cb == Some(c);
      } else if s.place[c].AtResume? {
        var i :| 0 <= i < |s.resuming| && s.resuming[i].cb == Some(c);
        assert u.resuming[i].cb == Some(c);
      }
    }
  }

  lemma ResumeCarriers(s: State)
    requires Accounted(s)
    ensures CarriersKnown(ResumeStep(s))
  {
    hide PlaceTrue;
    var u := ResumeStep(s);
    var n := |s.resuming|;
    assert forall i :: 0 <= i < n ==> u.resuming[i] == s.resuming[i];
    assert forall i :: n <= i < |u.resuming| ==> u.resuming[i] == HeldFor(s.deferred[i - n], s.completions);
    forall i | 0 <= i < |u.resuming| && u.resuming[i].cb.Some?
      ensures u.resuming[i].item.FrameItem? && u.resuming[i].cb.value in u.place
              && u.place[u.resuming[i].cb.value] == AtResume(u.resuming[i].item.frame.obj)
    {
    }
    forall i, j | 0 <= i < j < |u.resuming| && u.resuming[i].cb.Some?
      ensures u.resuming[i].cb != u.resuming[j].cb
    {
      if i < n && j >= n { assert s.resuming[i].cb.Some?; }
    }
  }

  /** Firing held callbacks and dropping their frames accounts for all of them. */
  lemma FireAllAccounted(s: State, objs: set<nat>, deferred: seq<Item>)
    requires Accounted(s) && DistinctHeld(deferred)
    requires forall o :: o in s.completions && o !in objs ==> o in HeldObjs(deferred)
    ensures Accounted(FireAll(s, objs).(deferred := deferred))
  {
    var u := FireAll(s, objs).(deferred := deferred);
    FireAllCarriers(s, objs, deferred);
    hide HeldObjs, Resumes, DistinctHeld;
    var cbs := set o | o in objs && o in s.completions :: s.completions[o];
    forall c | c in u.place
      ensures PlaceTrue(u, c)
    {
      assert PlaceTrue(s, c);
      if c in cbs { InCallbacks(s, objs, c); }
    }
    forall c | c !in u.place ensures u.fired[c] == 0 {
      if c in cbs { InCallbacks(s, objs, c); }
    }
  }

  lemma InCallbacks(s: State, objs: set<nat>, c: Callback)
    requires CarriersKnown(s) && c in (set o | o in objs && o in s.completions :: s.completions[o])
    ensures c in s.place && s.place[c].AtHeld? && s.place[c].obj in objs
  {
    hide HeldObjs, Resumes;
  }

  lemma FireAllCarriers(s: State, objs: set<nat>, deferred: seq<Item>)
    requires CarriersKnown(s)
    requires forall o :: o in s.completions && o !in objs ==> o in HeldObjs(deferred)
    ensures CarriersKnown(FireAll(s, objs).(deferred := deferred))
  {
    hide HeldObjs, Resumes;
    var u := FireAll(s, objs).(deferred := deferred);
    var cbs := set o | o in objs && o in s.completions :: s.completions[o];
    forall c | c in s.place && (!s.place[c].AtHeld? || s.place[c].obj !in objs)
      ensures c !in cbs
    {
      if c in cbs { InCallbacks(s, objs, c); assert false; }
    }
    assert forall c :: c in s.place && c !in cbs ==> u.place[c] == s.place[c];
  }

  lemma {:induction false} KeptHeld(deferred: seq<Item>, msg: nat, query: Option<nat>)
    requires DistinctHeld(deferred)
    ensures DistinctHeld(Kept(deferred, msg, query))
    ensures HeldObjs(Kept(deferred, msg, query)) == HeldObjs(deferred) - WithdrawnObjs(deferred, msg, query)
  {
    if deferred != [] {
      var n := |deferred| - 1;
      var init, last := deferred[..n], deferred[n];
      assert deferred == init + [last];
      KeptHeld(init, msg, query);
      HeldObjsAppend(init, last);
      WithdrawnAppend(init, last, msg, query);
      HeldObjsAppend(Kept(init, msg, query), last);
      assert Kept(init, msg, query) + [] == Kept(init, msg, query);
      if last.FrameItem? {
        NotHeldBefore(init, last);
        if !Withdrawn(last.frame, msg, query) { DistinctAppend(Kept(init, msg, query), last); }
      }
    }
  }

  lemma DistinctAppend(deferred: seq<Item>, item: Item)
    requires DistinctHeld(deferred) && item.FrameItem? && item.frame.obj !in HeldObjs(deferred)
    ensures DistinctHeld(deferred + [item])
  {
    assert forall i :: 0 <= i < |deferred| && deferred[i].FrameItem? ==> deferred[i].frame.obj in HeldObjs(deferred);
  }

  lemma NotHeldBefore(init: seq<Item>, last: Item)
    requires DistinctHeld(init + [last]) && last.FrameItem?
    ensures last.frame.obj !in HeldObjs(init)
  {
    var d := init + [last];
    forall i | 0 <= i < |init| && init[i].FrameItem?
      ensures init[i].frame.obj != last.frame.obj
    {
      assert d[i] == init[i] && d[|init|] == last;
    }
  }

  lemma WithdrawnAppend(deferred: seq<Item>, item: Item, msg: nat, query: Option<nat>)
    ensures WithdrawnObjs(deferred + [item], msg, query) == WithdrawnObjs(deferred, msg, query)
              + (if item.FrameItem? && Withdrawn(item.frame, msg, query) then {item.frame.obj} else {})
    ensures WithdrawnObjs(deferred, msg, query) <= HeldObjs(deferred)
  {
    var d := deferred + [item];
    forall o | o in WithdrawnObjs(deferred, msg, query) ensures o in WithdrawnObjs(d, msg, query) {
      var i :| 0 <= i < |deferred| && deferred[i].FrameItem? && Withdrawn(deferred[i].frame, msg, query)
          && deferred[i].frame.obj == o;
      assert d[i] == deferred[i];
    }
    if item.FrameItem? && Withdrawn(item.frame, msg, query) { assert d[|deferred|] == item; }
  }

  lemma DiscardAccounted(s: State, msg: nat, query: Option<nat>)
    requires Accounted(s)
    ensures Accounted(DiscardStep(s, msg, query))
  {
    KeptHeld(s.deferred, msg, query);
    var u := FireAll(s, WithdrawnObjs(s.deferred, msg, query)).(deferred := Kept(s.deferred, msg, query));
    FireAllAccounted(s, WithdrawnObjs(s.deferred, msg, query), Kept(s.deferred, msg, query));
    hide FireAll, Kept, WithdrawnObjs, HeldObjs;
    FlagsAccounted(u, DiscardStep(s, msg, query));
  }

  lemma StopAccounted(s: State)
    requires Accounted(s)
    ensures Accounted(StopStep(s))
  {
    FireAllAccounted(s, s.completions.Keys, []);
    hide FireAll, HeldObjs;
    FlagsAccounted(FireAll(s, s.completions.Keys).(deferred := []), StopStep(s));
  }

  /** Flags, counters and cancellations carry no callbacks. */
  lemma FlagsAccounted(s: State, t: State)
    requires Accounted(s)
    requires t.workers == s.workers && t.completions == s.completions && t.resuming == s.resuming
             && t.deferred == s.deferred
    requires t.place == s.place && t.fired == s.fired
    ensures Accounted(t)
  {
    hide HeldObjs, PlaceTrue;
    forall c | c in t.place ensures PlaceTrue(t, c) { SamePlace(s, t, c); }
  }

  lemma ApplyAccounted(s: State, e: Event)
    requires Accounted(s) && Sound(s) && Proper(s, e)
    ensures Accounted(Apply(s, e))
  {
    assert s.nextToken + 1 !in s.workers;
    hide Accounted, Sound, Proper, SendStep, MorseStep, FinishStep, WorkerStep, ResumeStep, ResumeOneStep, StopStep,
        DiscardStep;
    match e
    case Send(frame, cb) => SubmitAccounted(s, frame, cb);
    case SendMorse(text) => MorseAccounted(s, text);
    case Suspend => FlagsAccounted(s, Apply(s, e));
    case Resume => ResumeAccounted(s);
    case ResumeOne => ResumeOneAccounted(s);
    case Stop => StopAccounted(s);
    case Start => FlagsAccounted(s, Apply(s, e));
    case Discard(msg, query) => DiscardAccounted(s, msg, query);
    case Finish(t) => FinishAccounted(s, t);
    case _ => MoveAccounted(s, e);
  }

  /** The steps a worker takes between two critical sections. */
  predicate WorkerMove(e: Event) {
    e.MorseGo? || e.NoDevice? || e.TakeLock? || e.Fail? || e.Acquire? || e.PttOn? || e.PttOff? || e.Release?
  }

  lemma MoveAccounted(s: State, e: Event)
    requires Accounted(s) && WorkerMove(e)
    ensures Accounted(Apply(s, e))
  {
    hide Accounted, WorkerStep;
    WorkerAccounted(s, e, e.t);
  }

  /** Every step of the run is proper: held frames are pairwise unequal. */
  ghost predicate ProperRun(s: State, events: seq<Event>) {
    forall i :: 0 <= i < |events| ==> Proper(Run(s, events[..i]), events[i])
  }

  lemma {:induction false} RunAccounted(s: State, events: seq<Event>)
    requires Initial(s) && ProperRun(s, events)
    ensures Accounted(Run(s, events))
  {
    hide Apply, Proper;
    if events != [] {
      var init := events[..|events| - 1];
      forall i | 0 <= i < |init| ensures Proper(Run(s, init[..i]), init[i]) { assert init[..i] == events[..i]; }
      RunAccounted(s, init);
      RunSound(s, init);
      ApplyAccounted(Run(s, init), events[|events| - 1]);
    }
  }

  /** Exactly once: while held frames are pairwise unequal, a submitted callback never fires twice, and
      once nothing is pending, held or being resumed it has fired. */
  lemma CallbacksFireOnce(s: State, events: seq<Event>, c: Callback)
    requires Initial(s) && ProperRun(s, events) && c in Run(s, events).place
    ensures var t := Run(s, events);
            && t.fired[c] <= 1
            && (t.fired[c] == 1 <==> t.place[c].Fired?)
            && (t.workers == map[] && t.completions == map[] && t.resuming == [] ==> t.fired[c] == 1)
  {
    RunAccounted(s, events);
    assert PlaceTrue(Run(s, events), c);
  }

  /** The condition is exact.  In any accounted state that holds its frames, an offer submitted with a new
      callback makes resuming lose one if and only if its object has a callback already, which the new one
      replaces, or an equal frame waits under another object: then the new callback is filed under an
      identity that resuming never looks up. */
  lemma HeldCallbackLostExactly(s: State, g: Frame, c: Callback)
    requires Accounted(s) && s.suspended && !s.stopped && g.kind.Offer? && c !in s.place
    ensures var t := Apply(Apply(s, Send(g, Some(c))), Resume);
            (exists d :: d in t.place && t.place[d].Lost?) <==>
              g.obj in s.completions || (Waits(s.deferred, g) && g.obj !in HeldObjs(s.deferred))
  {
    var u := SendStep(s, g, Some(c));
    HeldObjsAppend(s.deferred, FrameItem(g));
    hide HeldObjs, Waits, CarriersKnown, DistinctHeld, WithCallbacks;
    assert u.deferred == if Waits(s.deferred, g) then s.deferred else s.deferred + [FrameItem(g)];
    forall d | d in s.place
      ensures !s.place[d].Lost? && (s.place[d].AtHeld? ==> s.place[d].obj in HeldObjs(u.deferred)) {
      assert PlaceTrue(s, d);
      HeldPlaceKnown(s, d);
    }
    var t := ResumeStep(u);
    if g.obj in s.completions {
      HeldPlaceKnown(s, s.completions[g.obj]);
      assert s.completions[g.obj] in t.place && t.place[s.completions[g.obj]].Lost? by { CompletionPlaced(s, g.obj); }
    }
    assert c in t.place;
  }

  lemma HeldPlaceKnown(s: State, d: Callback)
    requires Accounted(s)
    ensures d in s.place && s.place[d].AtHeld? ==> s.place[d].obj in HeldObjs(s.deferred)
  {
    if d in s.place { assert PlaceTrue(s, d); }
  }

  lemma CompletionPlaced(s: State, o: nat)
    requires CarriersKnown(s) && o in s.completions
    ensures s.completions[o] in s.place
  {
  }

  /** What losing means: an equal frame is not queued a second time, and after the resume nobody carries
      the callback of the new object; only a stop that comes first still fires it. */
  lemma EqualFrameLosesCallback(s: State, g: Frame, c: Callback)
    requires Accounted(s) && s.suspended && !s.stopped && g.kind.Offer? && c !in s.place
    requires Waits(s.deferred, g) && g.obj !in HeldObjs(s.deferred)
    ensures var t := Apply(Apply(s, Send(g, Some(c))), Resume);
            && t.place[c] == Lost && t.fired[c] == 0 && t.completions == map[] && !Resumes(t.resuming, c)
            && forall w :: w in t.workers ==> t.workers[w].cb != Some(c)
    ensures Apply(Apply(s, Send(g, Some(c))), Stop).fired[c] == 1
  {
    var u := SendStep(s, g, Some(c));
    assert u.completions == s.completions[g.obj := c] && u.deferred == s.deferred;
    var t := ResumeStep(u);
    forall i | 0 <= i < |t.resuming| ensures t.resuming[i].cb != Some(c) {
      if i >= |s.resuming| {
        assert t.resuming[i] == HeldFor(s.deferred[i - |s.resuming|], u.completions);
      }
    }
    var cbs := set o | o in u.completions.Keys && o in u.completions :: u.completions[o];
    assert g.obj in u.completions && u.completions[g.obj] == c;
    assert c in cbs;
  }
}

/** The control transport in the form the station runs it: one object whose sections under the condition
    variable are each proved to be a step of the queue's protocol. */
module ControlTransport {
  import opened Wrappers
  import opened TxProtocol

  /** The transmit side of the audio control transport: fields guarded by one condition variable, and
      methods whose bodies are its critical sections. */
  class AudioControl {
    var stopped: bool
    var suspended: bool
    var pendingTx: int
    var postPending: int
    var nextToken: nat
    var pendingFrames: map<Token, Option<Frame>>
    var cancelled: set<Token>
    var deferred: seq<Item>
    var completions: map<nat, Callback>
    var resuming: seq<Held>
    var workers: map<Token, Worker>
    var txLock: Option<Token>
    var transmitting: bool
    ghost var place: map<Callback, Place>
    ghost var fired: multiset<Callback>

    ghost function View(): State
      reads this
    {
      State(stopped, suspended, pendingTx, postPending, nextToken, pendingFrames, cancelled, deferred, completions,
            resuming, workers, txLock, transmitting, place, fired)
    }

    constructor Create(initiallyStopped: bool)
      ensures Initial(View()) && stopped == initiallyStopped
    {
      stopped, suspended, pendingTx, postPending, nextToken := initiallyStopped, false, 0, 0, 0;
      pendingFrames, cancelled, deferred, completions, resuming := map[], {}, [], map[], [];
      workers, txLock, transmitting, place, fired := map[], None, false, map[], multiset{};
    }

    /** A completion callback is called. */
    ghost method Complete(cb: Option<Callback>)
      modifies this`place, this`fired
      ensures View() == Fire(old(View()), cb)
    {
      if cb.Some? {
        place := place[cb.value := Fired];
        fired := fired + multiset{cb.value};
      }
    }

    /** `send`: refuse, hold, or admit the frame and start its worker. */
    method SendFrame(frame: Frame, cb: Option<Callback>) returns (admitted: Option<Token>)
      modifies this
      ensures View() == SendStep(old(View()), frame, cb)
      ensures admitted.Some? <==> !old(stopped) && !old(suspended)
      ensures admitted.Some? ==> admitted.value in pendingFrames && pendingFrames[admitted.value] == Some(frame)
    {
      hide Waits, Overwritten;
      if stopped {
        Complete(cb);
        return None;
      }
      if suspended {
        if cb.Some? && !frame.kind.Offer? {
          Complete(cb);
          return None;
        }
        HoldFrame(frame, cb);
        return None;
      }
      var token := AdmitFrame(frame, cb);
      admitted := Some(token);
    }

    method HoldFrame(frame: Frame, cb: Option<Callback>)
      requires !stopped && suspended && (cb.Some? ==> frame.kind.Offer?)
      modifies this`deferred, this`completions, this`place
      ensures View() == SendStep(old(View()), frame, cb)
    {
      if !Waits(deferred, frame) {
        deferred := deferred + [FrameItem(frame)];
      }
      if cb.Some? {
        place := if frame.obj in completions then place[completions[frame.obj] := Lost] else place;
        place := place[cb.value := AtHeld(frame.obj)];
        completions := completions[frame.obj := cb.value];
      }
    }

    method AdmitFrame(frame: Frame, cb: Option<Callback>) returns (token: Token)
      requires !stopped && !suspended
      modifies this`pendingTx, this`postPending, this`nextToken, this`pendingFrames, this`workers, this`place
      ensures View() == SendStep(old(View()), frame, cb)
      ensures token in pendingFrames && pendingFrames[token] == Some(frame)
    {
      token := AdmitWorker(Some(frame), Worker(AwaitLock, false, cb));
      hide Waits, Overwritten, Fire;
      if cb.Some? { place := place[cb.value := AtWorker(token)]; }
    }

    /** Admission: the counts, the token and the worker that will send. */
    method AdmitWorker(frame: Option<Frame>, worker: Worker) returns (token: Token)
      modifies this`pendingTx, this`postPending, this`nextToken, this`pendingFrames, this`workers
      ensures View() == Admit(old(View()), frame, worker) && token == nextToken
    {
      pendingTx := pendingTx + 1;
      if frame.None? { postPending := postPending + 1; }
      nextToken := nextToken + 1;
      token := nextToken;
      pendingFrames := pendingFrames[token := frame];
      workers := workers[token := worker];
    }

    /** `send_morse_after_pending`. */
    method SendMorseAfterPending(text: nat) returns (accepted: bool)
      modifies this
      ensures View() == MorseStep(old(View()), text) && accepted == !old(stopped)
    {
      if stopped { return false; }
      if suspended {
        deferred := deferred + [MorseItem(text)];
        return true;
      }
      var token := AdmitWorker(None, Worker(AwaitFrames, true, None));
      accepted := true;
    }

    /** The first section of `suspend`. */
    method BeginSuspend()
      modifies this`suspended
      ensures View() == Apply(old(View()), Suspend)
    {
      suspended := true;
    }

    /** The section of `_resume_queued_tx`: held work and its callbacks are taken over. */
    method TakeHeld()
      modifies this`suspended, this`deferred, this`completions, this`resuming, this`place
      ensures View() == ResumeStep(old(View()))
    {
      resuming := resuming + WithCallbacks(deferred, completions);
      place := Moved(View());
      suspended, deferred, completions := false, [], map[];
    }

    /** One turn of its loop. */
    method SubmitHeld()
      requires resuming != []
      modifies this
      ensures View() == ResumeOneStep(old(View()))
    {
      hide SendStep, MorseStep;
      var h := resuming[0];
      resuming := resuming[1..];
      match h.item {
        case FrameItem(frame) => var token := SendFrame(frame, h.cb);
        case MorseItem(text) => var ok := SendMorseAfterPending(text);
      }
    }

    /** `_resume_queued_tx` with nobody in between: each held item is submitted, in order. */
    method ResumeQueued()
      requires resuming == []
      modifies this
      ensures View() == ResumedTimes(Apply(old(View()), Resume), |old(deferred)|)
      ensures resuming == [] && !suspended
      ensures !stopped ==> deferred == [] && nextToken == old(nextToken) + |old(deferred)|
    {
      hide SendStep, MorseStep, ResumeOneStep, Moved;
      TakeHeld();
      ghost var s0, n := View(), 0;
      while resuming != []
        invariant View() == ResumedTimes(s0, n)
        invariant InResume(s0, View(), n)
        decreases |resuming|
      {
        ResumeOneShape(View());
        SubmitHeld();
        n := n + 1;
      }
    }

    /** The registered callbacks of the given frame objects fire. */
    method FireRegistered(objs: set<nat>)
      modifies this`completions, this`place, this`fired
      ensures View() == FireAll(old(View()), objs)
    {
      ghost var cbs := set o | o in objs && o in completions :: completions[o];
      place := map c | c in place :: if c in cbs then Fired else place[c];
      fired := fired + multiset(cbs);
      completions := completions - objs;
    }

    /** The section of `stop`, and the callbacks it fires. */
    method StopTransport()
      modifies this
      ensures View() == StopStep(old(View()))
    {
      hide FireAll;
      FireRegistered(completions.Keys);
      stopped, suspended, deferred := true, false, [];
      cancelled := cancelled + pendingFrames.Keys;
    }

    /** `discard_deferred_message`: held requests of a dead message go, admitted ones are cancelled. */
    method DiscardDeferredMessage(msg: nat, query: Option<nat>)
      modifies this
      ensures View() == DiscardStep(old(View()), msg, query)
      ensures WithdrawnTokens(pendingFrames, msg, query) <= cancelled
    {
      hide FireAll, Kept, WithdrawnObjs, WithdrawnTokens;
      var kept, discarded := SplitHeld(deferred, msg, query);
      FireRegistered(discarded);
      deferred := kept;
      cancelled := cancelled + WithdrawnTokens(pendingFrames, msg, query);
    }

    /** `_control_ptt(True)` up to the keying decision. */
    method ControlPtt(t: Token, hardwareOk: bool) returns (keyed: bool)
      requires t in workers && workers[t].pc.Acquired? && txLock == Some(t)
      modifies this
      ensures View() == Apply(old(View()), PttOn(t, hardwareOk))
      ensures keyed ==> !old(stopped) && t !in old(cancelled)
    {
      if stopped || t in cancelled || !hardwareOk {
        workers := workers[t := workers[t].(pc := Releasing)];
        return false;
      }
      workers := workers[t := workers[t].(pc := Keyed)];
      keyed := true;
    }

    /** The `finally` section of a worker. */
    method FinishWorker(t: Token)
      requires t in workers && workers[t].pc.Ending?
      modifies this
      ensures View() == FinishStep(old(View()), t)
    {
      var cb := workers[t].cb;
      DropWorker(t);
      hide Fire, Dismiss;
      FinishIs(old(View()), t);
      Complete(cb);
    }

    method DropWorker(t: Token)
      requires t in workers
      modifies this`pendingFrames, this`cancelled, this`pendingTx, this`postPending, this`workers
      ensures View() == Dismiss(old(View()), t)
    {
      var morse := workers[t].morse;
      pendingFrames := pendingFrames - {t};
      cancelled := cancelled - {t};
      pendingTx := pendingTx - 1;
      if morse { postPending := postPending - 1; }
      workers := workers - {t};
    }
  }

  lemma FinishIs(s: State, t: Token)
    requires t in s.workers && s.workers[t].pc.Ending?
    ensures FinishStep(s, t) == Fire(Dismiss(s, t), s.workers[t].cb)
  {
    hide Fire;
  }

  /** Which held items stay, and the identities of the withdrawn ones. */
  method SplitHeld(deferred: seq<Item>, msg: nat, query: Option<nat>) returns (kept: seq<Item>, discarded: set<nat>)
    ensures kept == Kept(deferred, msg, query) && discarded == WithdrawnObjs(deferred, msg, query)
  {
    kept, discarded := [], {};
    for i := 0 to |deferred|
      invariant kept == Kept(deferred[..i], msg, query)
      invariant discarded == WithdrawnObjs(deferred[..i], msg, query)
    {
      assert deferred[..i + 1] == deferred[..i] + [deferred[i]] && deferred[..i + 1][..i] == deferred[..i];
      WithdrawnAppend(deferred[..i], deferred[i], msg, query);
      hide WithdrawnObjs;
      if deferred[i].FrameItem? && Withdrawn(deferred[i].frame, msg, query) {
        discarded := discarded + {deferred[i].frame.obj};
      } else {
        kept := kept + [deferred[i]];
      }
    }
    assert deferred[..|deferred|] == deferred;
  }

  /** The resume loop taken `n` times. */
  function ResumedTimes(s: State, n: nat): State {
    if n == 0 then s else ResumeOneStep(ResumedTimes(s, n - 1))
  }

  /** After `n` turns from `s0`, with nobody in between. */
  ghost predicate InResume(s0: State, s: State, n: nat) {
    && n + |s.resuming| == |s0.resuming| && s.stopped == s0.stopped && !s.suspended && s.deferred == []
    && (!s.stopped ==> s.nextToken == s0.nextToken + n)
  }

  lemma ResumeOneShape(s: State)
    requires s.resuming != [] && !s.suspended
    ensures var t := ResumeOneStep(s);
            && t.resuming == s.resuming[1..] && t.stopped == s.stopped && !t.suspended && t.deferred == s.deferred
            && (!s.stopped ==> t.nextToken == s.nextToken + 1)
  {
    hide SendStep, MorseStep;
    var s1 := s.(resuming := s.resuming[1..]);
    match s.resuming[0].item
    case FrameItem(frame) => ActiveSend(s1, frame, s.resuming[0].cb);
    case MorseItem(text) => ActiveMorse(s1, text);
  }

  lemma ActiveSend(s: State, frame: Frame, cb: Option<Callback>)
    requires !s.suspended
    ensures var t := SendStep(s, frame, cb);
            && !t.suspended && t.stopped == s.stopped && t.resuming == s.resuming && t.deferred == s.deferred
            && (!s.stopped ==> t.nextToken == s.nextToken + 1 && t.pendingTx == s.pendingTx + 1)
  {
  }

  lemma ActiveMorse(s: State, text: nat)
    requires !s.suspended
    ensures var t := MorseStep(s, text);
            && !t.suspended && t.stopped == s.stopped && t.resuming == s.resuming && t.deferred == s.deferred
            && (!s.stopped ==> t.nextToken == s.nextToken + 1 && t.pendingTx == s.pendingTx + 1)
  {
  }
}
