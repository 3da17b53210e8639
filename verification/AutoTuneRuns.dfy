/** Runs of the AutoTune handshake: what ties the two stations and the frames on the air together, and
    what follows for every run of a session. */
module CalibrationRuns {
  import opened Wrappers
  import opened CalibrationProtocol
  import opened CalibrationSteps

  function Turns(air: seq<Frame>): nat
    decreases |air|
  {
    if air == [] then 0 else (if air[0] == TurnMark then 1 else 0) + Turns(air[1..])
  }

  predicate NoOffer(air: seq<Frame>) { forall i :: 0 <= i < |air| ==> !air[i].OfferFrame? }

  /** No offer behind a turn. */
  predicate OffersFirst(air: seq<Frame>) {
    forall i, j :: 0 <= i < j < |air| && air[i] == TurnMark ==> !air[j].OfferFrame?
  }

  /** No turn behind a report. */
  predicate TurnsFirst(air: seq<Frame>) {
    forall i, j :: 0 <= i < j < |air| && air[i] == ReportFrame ==> air[j] != TurnMark
  }

  /** The timer sent no TURN while the worker announced the direction. */
  predicate Prompt(p: Party) { p.log.ticked == 0 }

  lemma {:induction false} TurnsPut(air: seq<Frame>, sent: Option<Frame>)
    ensures Turns(Put(air, sent)) == Turns(air) + (if sent == Some(TurnMark) then 1 else 0)
    decreases |air|
  {
    if sent.Some? && air != [] {
      TurnsPut(air[1..], sent);
      assert Put(air, sent)[1..] == Put(air[1..], sent);
    }
  }

  lemma {:induction false} TurnsMember(air: seq<Frame>)
    ensures TurnMark in air <==> Turns(air) > 0
    decreases |air|
  {
    if air != [] {
      TurnsMember(air[1..]);
      assert air == [air[0]] + air[1..];
    }
  }

  lemma AirTail(air: seq<Frame>)
    requires air != []
    ensures OffersFirst(air) ==> OffersFirst(air[1..]) && (air[0] == TurnMark ==> NoOffer(air[1..]))
    ensures TurnsFirst(air) ==> TurnsFirst(air[1..]) && (air[0] == ReportFrame ==> TurnMark !in air[1..])
  {
    var rest := air[1..];
    assert forall i :: 0 <= i < |rest| ==> rest[i] == air[i + 1];
  }

  lemma NoOfferPut(air: seq<Frame>, sent: Option<Frame>)
    requires NoOffer(air) && !(sent.Some? && sent.value.OfferFrame?)
    ensures NoOffer(Put(air, sent))
  {
  }

  /** A turn is heard only after the caller sent it; an offer never follows. */
  predicate TurnsMatch(w: World) {
    && Turns(w.ab) + w.b.log.turnsHeard <= w.a.log.turns
    && (w.b.log.turnsHeard > 0 ==> w.b.reverseStarted && NoOffer(w.ab))
    && NoOffer(w.ba) && OffersFirst(w.ab) && (Prompt(w.a) ==> TurnsFirst(w.ab))
  }

  /** Completion is confirmed only after the callee announced that it is done. */
  predicate EndsMatch(w: World) {
    DoneMark in w.ba || w.a.log.completes > 0 ==> w.b.log.dones + w.b.log.replies > 0
  }

  /** The caller measures only a sweep of a callee whose run has begun; once the callee has the report
      of it no turn is left to be heard, unless the caller's timer ran ahead of its worker. */
  predicate ProbesMatch(w: World) {
    && (ProbeFrame in w.ba || RxUsed(w.a) ==> !w.b.tx.phase.NoRun?)
    && (Prompt(w.a) && (Answered(w.b.tx) || w.b.log.confirmed) ==> TurnMark !in w.ab)
    && (Prompt(w.a) ==> w.b.log.replies == 0)
  }

  /** A report is received only from a station that sent one. */
  predicate ReportsMatch(p: Party, air: seq<Frame>, peer: History) {
    ReportFrame in air || Answered(p.tx) || p.log.confirmed ==> peer.reports > 0
  }

  ghost predicate Inv(w: World) {
    && Sound(w.a) && Sound(w.b) && Caller(w.a) && Callee(w.b)
    && TurnsMatch(w) && EndsMatch(w) && ProbesMatch(w)
    && ReportsMatch(w.a, w.ba, w.b.log) && ReportsMatch(w.b, w.ab, w.a.log)
  }

  /** What each station's part says about the other's. */
  lemma Chain(w: World)
    requires Inv(w)
    ensures w.a.log.completes > 0 ==> w.b.log.confirmed
    ensures RxUsed(w.a) || w.b.log.confirmed || w.b.log.turnsHeard > 0 ==> w.a.log.turns > 0
    ensures w.a.log.turns > 0 ==> w.a.log.confirmed && !Early(w.a.tx.phase) && !w.a.lab.state.Offering?
    ensures ReportFrame in w.ab || Answered(w.b.tx) || w.b.log.confirmed ==> RxUsed(w.a)
    ensures w.a.log.completes > 0 || RxUsed(w.a) ==> !w.a.turn.pending
  {
  }

  // One step of either station, having heard `f` if there is one.

  predicate Heard(air: seq<Frame>, f: Option<Frame>) { f.Some? ==> air != [] && air[0] == f.value }

  function Rest(air: seq<Frame>, f: Option<Frame>): seq<Frame>
    requires Heard(air, f)
  {
    if f.Some? then air[1..] else air
  }

  function StepA(w: World, f: Option<Frame>, o: Out): World
    requires Heard(w.ba, f)
  {
    World(o.party, w.b, Put(w.ab, o.sent), Rest(w.ba, f))
  }

  function StepB(w: World, f: Option<Frame>, o: Out): World
    requires Heard(w.ab, f)
  {
    World(w.a, o.party, Rest(w.ab, f), Put(w.ba, o.sent))
  }

  lemma TurnsMatchA(w: World, f: Option<Frame>, o: Out)
    requires Inv(w) && Heard(w.ba, f) && Kept(w.a, f, o)
    ensures TurnsMatch(StepA(w, f, o))
  {
    hide Caller, Callee, Remembers;
    Chain(w);
    TurnsPut(w.ab, o.sent);
    TurnsMember(w.ab);
  }

  lemma EndsMatchA(w: World, f: Option<Frame>, o: Out)
    requires Inv(w) && Heard(w.ba, f) && Kept(w.a, f, o)
    ensures EndsMatch(StepA(w, f, o))
  {
    hide Caller, Callee;
  }

  lemma ProbesMatchA(w: World, f: Option<Frame>, o: Out)
    requires Inv(w) && Heard(w.ba, f) && Kept(w.a, f, o)
    ensures ProbesMatch(StepA(w, f, o))
  {
    Chain(w);
    hide Caller, Callee, RxUsed;
  }

  lemma ReportsMatchA(w: World, f: Option<Frame>, o: Out)
    requires Inv(w) && Heard(w.ba, f) && Kept(w.a, f, o)
    ensures ReportsMatch(o.party, Rest(w.ba, f), w.b.log)
    ensures ReportsMatch(w.b, Put(w.ab, o.sent), o.party.log)
  {
    hide Caller, Callee;
  }

  lemma InvA(w: World, f: Option<Frame>, o: Out)
    requires Inv(w) && Heard(w.ba, f) && Kept(w.a, f, o)
    ensures Inv(StepA(w, f, o))
  {
    TurnsMatchA(w, f, o);
    EndsMatchA(w, f, o);
    ProbesMatchA(w, f, o);
    ReportsMatchA(w, f, o);
    Chain(w);
    assert f.Some? ==> !f.value.OfferFrame?;
    hide Caller, Callee, Sound, TurnsMatch, EndsMatch, ProbesMatch, ReportsMatch, Shows, Remembers;
  }

  lemma TurnsMatchB(w: World, f: Option<Frame>, o: Out)
    requires Inv(w) && Heard(w.ab, f) && Kept(w.b, f, o)
    ensures TurnsMatch(StepB(w, f, o))
  {
    hide Caller;
    if f.Some? {
      AirTail(w.ab);
    }
    NoOfferPut(w.ba, o.sent);
  }

  lemma EndsMatchB(w: World, f: Option<Frame>, o: Out)
    requires Inv(w) && Heard(w.ab, f) && Kept(w.b, f, o)
    ensures EndsMatch(StepB(w, f, o))
  {
    hide Caller;
  }

  /** The answer to a repeated turn needs a complete callee, and then a prompt caller has no turn left. */
  lemma ProbesMatchB(w: World, f: Option<Frame>, o: Out)
    requires Inv(w) && Heard(w.ab, f) && Kept(w.b, f, o)
    ensures ProbesMatch(StepB(w, f, o))
  {
    hide Caller;
    if f.Some? {
      AirTail(w.ab);
    }
  }

  lemma ReportsMatchB(w: World, f: Option<Frame>, o: Out)
    requires Inv(w) && Heard(w.ab, f) && Kept(w.b, f, o)
    ensures ReportsMatch(o.party, Rest(w.ab, f), w.a.log)
    ensures ReportsMatch(w.a, Put(w.ba, o.sent), o.party.log)
  {
    hide Caller, Callee;
  }

  lemma InvB(w: World, f: Option<Frame>, o: Out)
    requires Inv(w) && Heard(w.ab, f) && Kept(w.b, f, o)
    ensures Inv(StepB(w, f, o))
  {
    TurnsMatchB(w, f, o);
    EndsMatchB(w, f, o);
    ProbesMatchB(w, f, o);
    ReportsMatchB(w, f, o);
    hide Caller, Callee, Sound, TurnsMatch, EndsMatch, ProbesMatch, ReportsMatch, Shows, Remembers;
  }

  lemma LostKept(w: World)
    requires Inv(w)
    ensures w.ba != [] ==> Inv(w.(ba := w.ba[1..]))
    ensures w.ab != [] ==> Inv(w.(ab := w.ab[1..]))
  {
    hide Caller, Callee, Sound;
    if w.ab != [] {
      AirTail(w.ab);
    }
  }

  lemma NextInv(w: World, e: Event)
    requires Inv(w)
    ensures Inv(Next(w, e))
  {
    hide Sound, Kept, Do, Hear;
    match e
    case AtA(l) =>
      assert Sound(w.a);
      DoKept(w.a, l);
      InvA(w, None, Do(w.a, l));
    case AtB(l) =>
      assert Sound(w.b);
      DoKept(w.b, l);
      InvB(w, None, Do(w.b, l));
    case HeardByA(env) =>
      if w.ba != [] {
        HearKept(w.a, w.ba[0], env);
        InvA(w, Some(w.ba[0]), Hear(w.a, w.ba[0], env));
      }
    case HeardByB(env) =>
      if w.ab != [] {
        HearKept(w.b, w.ab[0], env);
        InvB(w, Some(w.ab[0]), Hear(w.b, w.ab[0], env));
      }
    case LostToA => LostKept(w);
    case LostToB => LostKept(w);
  }

  lemma CalledInv(a: Party, b: Party)
    requires Resting(a) && Resting(b)
    ensures Inv(Called(a, b))
  {
  }

  lemma {:induction false} RunInv(w: World, events: seq<Event>)
    requires Inv(w)
    ensures Inv(Run(w, events))
    decreases |events|
  {
    hide Inv;
    if events != [] {
      NextInv(w, events[0]);
      RunInv(Next(w, events[0]), events[1..]);
    }
  }

  // -------------------------------------------------------------------------------------- the results

  /** A station's own sweep was sent to the end and its peer's report of it received. */
  predicate SentAndReported(p: Party, peer: Party) {
    p.log.fullSweep && p.log.confirmed && peer.log.reports > 0
  }

  /** Either station counts the session as complete only after both sweeps were sent and reported. */
  lemma CompleteAfterBothSweeps(a: Party, b: Party, events: seq<Event>)
    requires Resting(a) && Resting(b)
    ensures var w := Run(Called(a, b), events);
            w.a.lab.state.Complete? || (w.b.lab.session && w.b.lab.state.Complete?) ==>
              SentAndReported(w.a, w.b) && SentAndReported(w.b, w.a)
  {
    CalledInv(a, b);
    RunInv(Called(a, b), events);
    hide Run, Called, TurnsMatch, EndsMatch;
    var w := Run(Called(a, b), events);
    Chain(w);
  }

  /** No station sends a second sweep, however often probes and offers are repeated. */
  lemma OneSweepEach(a: Party, b: Party, events: seq<Event>)
    requires Resting(a) && Resting(b)
    ensures Run(Called(a, b), events).a.log.sweeps <= 1
    ensures Run(Called(a, b), events).b.log.sweeps <= 1
  {
    CalledInv(a, b);
    RunInv(Called(a, b), events);
    hide Run, Called, TurnsMatch, EndsMatch, ReportsMatch, Caller, Callee;
  }

  /** How many TURN or DONE frames a station can have sent: three, and one more for each whose count its
      worker set back; or those its timer sent while the worker announced the direction, and the worker's
      own. */
  predicate FramesOf(n: nat, l: History) {
    && (n <= 3 + l.lost || n <= 1 + l.ticked)
    && l.lost <= l.ticked && l.lost <= 3 && l.ticked <= l.lost + 3
  }

  /** OFFER goes out at most three times in every run.  So do TURN and DONE while the timer sends none of
      them between the worker's setting of the pending flag and its count of the frame; with one sent there
      at most four times, a second one being due only if the worker stalls for a whole retry interval of nine
      seconds or more; and at most seven times whatever the worker does.  A caller whose timer was prompt is
      never asked for the answer that a complete callee keeps ready for a repeated turn. */
  lemma FramesBounded(a: Party, b: Party, events: seq<Event>)
    requires Resting(a) && Resting(b)
    ensures var w := Run(Called(a, b), events);
            && w.a.log.offers <= 3 && FramesOf(w.a.log.turns, w.a.log) && FramesOf(w.b.log.dones, w.b.log)
            && (w.a.log.ticked == 0 ==> w.a.log.turns <= 3) && (w.b.log.ticked == 0 ==> w.b.log.dones <= 3)
            && (w.a.log.ticked <= 1 ==> w.a.log.turns <= 4) && (w.b.log.ticked <= 1 ==> w.b.log.dones <= 4)
            && w.a.log.turns <= 7 && w.b.log.dones <= 7
            && w.b.log.offers == w.b.log.turns == w.a.log.dones == w.a.log.replies == 0
            && (w.a.log.ticked == 0 ==> w.b.log.replies == 0)
  {
    CalledInv(a, b);
    RunInv(Called(a, b), events);
    var w := Run(Called(a, b), events);
    SoundFrames(w.a);
    SoundFrames(w.b);
    hide Run, Called, ReportsMatch, TurnsMatch, EndsMatch, Swept, Tallied;
  }

  lemma SoundFrames(p: Party)
    requires Sound(p)
    ensures FramesOf(Sent(p), p.log)
  {
  }

  lemma NextAtMost(w: World, e: Event)
    requires Inv(w)
    ensures var t := Next(w, e);
            && (Over(w.a.tx.phase) ==> Over(t.a.tx.phase) && AtMost(t.a) <= AtMost(w.a))
            && (Over(w.b.tx.phase) ==> Over(t.b.tx.phase) && AtMost(t.b) <= AtMost(w.b))
  {
    hide Sound, Do, Hear, Caller, Callee, Remembers, AtMost, EndsMatch, ProbesMatch, ReportsMatch;
    match e
    case AtA(l) =>
      assert Sound(w.a);
      DoKept(w.a, l);
    case AtB(l) =>
      assert Sound(w.b);
      DoKept(w.b, l);
    case HeardByA(env) =>
      if w.ba != [] {
        assert !w.ba[0].TurnMark? || w.a.lab.initiator by { CallerCalls(w.a); }
        HearKept(w.a, w.ba[0], env);
      }
    case HeardByB(env) =>
      if w.ab != [] {
        CalleeReady(w);
        HearKept(w.b, w.ab[0], env);
      }
    case _ =>
  }

  lemma CallerCalls(p: Party)
    requires Caller(p)
    ensures p.lab.initiator
  {
  }

  lemma CalleeReady(w: World)
    requires Inv(w)
    ensures w.b.reverseStarted || w.b.lab.initiator || w.b.tx.phase.NoRun?
  {
    hide Sound, Swept, Counted;
  }

  lemma {:induction false} RunAtMost(w: World, events: seq<Event>)
    requires Inv(w)
    ensures var t := Run(w, events);
            && (Over(w.a.tx.phase) ==> Over(t.a.tx.phase) && AtMost(t.a) <= AtMost(w.a))
            && (Over(w.b.tx.phase) ==> Over(t.b.tx.phase) && AtMost(t.b) <= AtMost(w.b))
    decreases |events|
  {
    hide Inv, Next, AtMost, Over;
    if events != [] {
      NextInv(w, events[0]);
      NextAtMost(w, events[0]);
      RunAtMost(Next(w, events[0]), events[1..]);
    }
  }

  /** The timer, `k` times past its interval, at either station. */
  function Ticks(e: Event, k: nat): seq<Event> { seq(k, _ => e) }

  lemma {:induction false} TurnsTicked(w: World, k: nat)
    requires k == 0 || (w.a.turn.pending && w.a.turn.attempts + k <= OFFER_ATTEMPTS)
    ensures Run(w, Ticks(AtA(Tick(true)), k)).a.log.turns == w.a.log.turns + k
    decreases k
  {
    if k > 0 {
      var next := Next(w, AtA(Tick(true)));
      assert next.a.log.turns == w.a.log.turns + 1 && next.a.turn == Retry(true, w.a.turn.attempts + 1);
      TurnsTicked(next, k - 1);
      assert Ticks(AtA(Tick(true)), k)[1..] == Ticks(AtA(Tick(true)), k - 1);
    }
  }

  lemma {:induction false} DonesTicked(w: World, k: nat)
    requires k == 0 || (w.b.done.pending && !w.b.turn.pending && w.b.done.attempts + k <= OFFER_ATTEMPTS)
    ensures Run(w, Ticks(AtB(Tick(true)), k)).b.log.dones == w.b.log.dones + k
    decreases k
  {
    if k > 0 {
      var next := Next(w, AtB(Tick(true)));
      assert next.b.log.dones == w.b.log.dones + 1 && next.b.done == Retry(true, w.b.done.attempts + 1);
      assert next.b.turn == w.b.turn;
      DonesTicked(next, k - 1);
      assert Ticks(AtB(Tick(true)), k)[1..] == Ticks(AtB(Tick(true)), k - 1);
    }
  }

  /** Once the caller's run is over, more than three TURNs will have been sent in some continuation if and
      only if they have been already, or one of them was sent between the flag and the reset and the timer
      has retries left. */
  lemma FourthTurnExactly(a: Party, b: Party, before: seq<Event>)
    requires Resting(a) && Resting(b) && Over(Run(Called(a, b), before).a.tx.phase)
    ensures var w := Run(Called(a, b), before);
            (exists after :: Run(w, after).a.log.turns > 3) <==>
              w.a.log.turns > 3 || (w.a.log.lost > 0 && Left(w.a.turn) > 0)
  {
    var w := Run(Called(a, b), before);
    CalledInv(a, b);
    RunInv(Called(a, b), before);
    CallersMost(w.a);
    forall after ensures Run(w, after).a.log.turns <= AtMost(w.a) {
      RunAtMost(w, after);
    }
    TurnsTicked(w, Left(w.a.turn));
    assert Run(w, Ticks(AtA(Tick(true)), Left(w.a.turn))).a.log.turns == w.a.log.turns + Left(w.a.turn);
    hide Run, Called, Inv, AtMost;
  }

  lemma CallersMost(p: Party)
    requires Sound(p) && Caller(p) && Over(p.tx.phase)
    ensures AtMost(p) == p.log.turns + Left(p.turn)
    ensures Left(p.turn) > 0 ==> AtMost(p) == 3 + p.log.lost
  {
  }

  /** The same for the callee's DONE. */
  lemma FourthDoneExactly(a: Party, b: Party, before: seq<Event>)
    requires Resting(a) && Resting(b) && Over(Run(Called(a, b), before).b.tx.phase)
    ensures var w := Run(Called(a, b), before);
            (exists after :: Run(w, after).b.log.dones > 3) <==>
              w.b.log.dones > 3 || (w.b.log.lost > 0 && Left(w.b.done) > 0)
  {
    var w := Run(Called(a, b), before);
    CalledInv(a, b);
    RunInv(Called(a, b), before);
    CalleesMost(w.b);
    forall after ensures Run(w, after).b.log.dones <= AtMost(w.b) {
      RunAtMost(w, after);
    }
    DonesTicked(w, Left(w.b.done));
    assert Run(w, Ticks(AtB(Tick(true)), Left(w.b.done))).b.log.dones == w.b.log.dones + Left(w.b.done);
    hide Run, Called, Inv, AtMost;
  }

  lemma CalleesMost(p: Party)
    requires Sound(p) && Callee(p) && Over(p.tx.phase)
    ensures AtMost(p) == p.log.dones + Left(p.done)
    ensures Left(p.done) > 0 ==> AtMost(p) == 3 + p.log.lost
  {
  }
}
