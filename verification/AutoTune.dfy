/** The AutoTune handshake of two stations over a lossy in-order control channel, Quick mode, one
    session: consent, a drive sweep in each direction, each answered by a report, then completion.
    Steps are the UI thread's handlers, the stretches of a worker between two blocking calls, and each
    statement by which the worker announces that its direction is complete. */
module CalibrationProtocol {
  import opened Wrappers

  /** `CALIBRATION_OFFER_ATTEMPTS`, also the limit for TURN and DONE. */
  const OFFER_ATTEMPTS: nat := 3

  /** `CALIBRATION_REPORT_ATTEMPTS`. */
  const REPORT_ATTEMPTS: nat := 3

  datatype CalState =
    | Idle | Offering | WaitingApproval | Preparing | Measuring | WaitingReport
    | Complete | Cancelled | Failed

  /** The calibration frames; the three markers of CAL_DONE are frames of their own. */
  datatype Frame =
    | OfferFrame(version: nat) | AcceptFrame(version: nat) | ProbeFrame | ReportFrame
    | TurnMark | DoneMark | CompleteMark | BusyFrame | CancelFrame

  /** How far the "station-calibration" worker is: `Returned` until the UI thread drains it.  Announcing the
      direction takes it through setting the pending flag, setting the counter back, sending the frame and
      counting it; `turn` is the branch it took. */
  datatype TxPhase =
    | NoRun | Submitted | Probed | Sweeping | Waiting(attempt: nat)
    | Flagged(turn: bool) | Rewound(turn: bool) | Uncounted(turn: bool)
    | Returned(ok: bool) | Drained

  /** What a station has done in this session; nothing in the program reads it.  `ticked` are the TURN and
      DONE frames the timer sent while the worker was announcing its direction, `lost` those of them whose
      count the worker then set back. */
  datatype History = History(
    sweeps: nat, fullSweep: bool, confirmed: bool,
    offers: nat, turns: nat, dones: nat, replies: nat, completes: nat, reports: nat,
    turnsHeard: nat, ticked: nat, lost: nat)

  /** The part of `station_lab` and the flags that say which session a station is in; `session` says
      whether `station_lab` carries this session's peer and id. */
  datatype Lab = Lab(version: nat, initiator: bool, session: bool, state: CalState, pendingOffer: bool, cancel: bool)

  /** A frame that is repeated until answered. */
  datatype Retry = Retry(pending: bool, attempts: nat)

  /** Receiving the peer's sweep; `results` are finished receptions the UI thread has not drained. */
  datatype Rx = Rx(completed: bool, active: bool, results: seq<bool>)

  /** The station's own run, and the report slots it shares with the UI thread. */
  datatype Tx = Tx(phase: TxPhase, commands: bool, held: bool, ready: bool)

  datatype Party = Party(
    lab: Lab, offerAttempts: nat, turn: Retry, done: Retry, reverseStarted: bool, rx: Rx, tx: Tx, log: History)
  {
    function To(state: CalState): Party { this.(lab := lab.(state := state)) }

    function At(phase: TxPhase): Party { this.(tx := tx.(phase := phase)) }
  }

  /** A station's next state and the one frame it may send. */
  datatype Out = Out(party: Party, sent: Option<Frame>)

  /** What the surroundings answer while a frame is handled. */
  datatype Env = Env(configured: bool, payloadBusy: bool, autoAccept: bool, queued: bool)

  datatype Local =
    | Tick(due: bool) | AcceptOffer(configured: bool) | RejectOffer | CancelRun
    | Launch | FlushFails | StartSweep | EndSweep(full: bool) | ReportSeen | ReportTimeout | RunRaises
    | Rewind | Signal | Count
    | RunDrained | RxEnds(ok: bool) | RxDrained

  const NOTHING_DONE := History(0, false, false, 0, 0, 0, 0, 0, 0, 0, 0, 0)

  const NO_RETRY := Retry(false, 0)

  predicate AtRest(state: CalState) { state.Idle? || state.Complete? || state.Cancelled? || state.Failed? }

  /** The worker is announcing that its direction is complete. */
  predicate Announcing(phase: TxPhase) { phase.Flagged? || phase.Rewound? || phase.Uncounted? }

  predicate Running(phase: TxPhase) {
    phase.Submitted? || phase.Probed? || phase.Sweeping? || phase.Waiting? || Announcing(phase)
  }

  function Quiet(p: Party): Out { Out(p, None) }

  // ------------------------------------------------------------------------------------ UI thread

  /** The flags of a new session. */
  function Cleared(p: Party): Party {
    p.(lab := Lab(p.lab.version, true, true, Offering, false, false),
       offerAttempts := 0, turn := NO_RETRY, done := NO_RETRY, reverseStarted := false,
       rx := p.rx.(completed := false), tx := p.tx.(commands := false, held := false))
  }

  function SendOffer(p: Party): Out {
    Out(p.(offerAttempts := p.offerAttempts + 1, log := p.log.(offers := p.log.offers + 1)),
        Some(OfferFrame(p.lab.version)))
  }

  /** `start_station_calibration`. */
  function Start(p: Party): Out { SendOffer(Cleared(p)) }

  function WhileAnnouncing(p: Party): nat { if Announcing(p.tx.phase) then 1 else 0 }

  /** `_send_calibration_turn`, from the timer. */
  function SendTurn(p: Party): Out {
    Out(p.(turn := p.turn.(attempts := p.turn.attempts + 1),
           log := p.log.(turns := p.log.turns + 1, ticked := p.log.ticked + WhileAnnouncing(p))), Some(TurnMark))
  }

  /** `_send_calibration_done`, from the timer. */
  function SendDone(p: Party): Out {
    Out(p.(done := p.done.(attempts := p.done.attempts + 1),
           log := p.log.(dones := p.log.dones + 1, ticked := p.log.ticked + WhileAnnouncing(p))), Some(DoneMark))
  }

  function SendReport(p: Party): Out {
    Out(p.(log := p.log.(reports := p.log.reports + 1)), Some(ReportFrame))
  }

  function TickTurn(p: Party): Out {
    if p.turn.attempts < OFFER_ATTEMPTS then SendTurn(p)
    else Out(p.To(Failed).(turn := p.turn.(pending := false)), Some(CancelFrame))
  }

  function TickDone(p: Party): Out {
    if p.done.attempts < OFFER_ATTEMPTS then SendDone(p)
    else Out(p.To(Failed).(done := p.done.(pending := false)), Some(CancelFrame))
  }

  function TickOffer(p: Party): Out {
    if p.offerAttempts < OFFER_ATTEMPTS then SendOffer(p) else Out(p.To(Failed), Some(CancelFrame))
  }

  /** `_tick_station_calibration`; `due` says that the retry interval has passed. */
  function TickStep(p: Party, due: bool): Out {
    if !due then Quiet(p)
    else if p.turn.pending then TickTurn(p)
    else if p.done.pending then TickDone(p)
    else if p.lab.state.Offering? then TickOffer(p)
    else Quiet(p)
  }

  /** `accept_station_calibration`. */
  function AcceptStep(p: Party, configured: bool): Out {
    if !configured || !p.lab.pendingOffer || !p.lab.session then Quiet(p)
    else Out(p.(lab := p.lab.(pendingOffer := false, state := Preparing)), Some(AcceptFrame(p.lab.version)))
  }

  /** `reject_station_calibration`. */
  function RejectStep(p: Party): Out {
    if !p.lab.pendingOffer then Quiet(p)
    else Out(p.(lab := p.lab.(pendingOffer := false, session := false, state := Idle)), Some(BusyFrame))
  }

  function Stopped(p: Party, state: CalState): Party {
    p.(lab := p.lab.(cancel := true, state := state),
       turn := p.turn.(pending := false), done := p.done.(pending := false))
  }

  /** `cancel_station_calibration`. */
  function CancelStep(p: Party): Out {
    if p.lab.state.Idle? || p.lab.state.Complete? then Quiet(p)
    else Out(Stopped(p, Cancelled), if p.lab.session then Some(CancelFrame) else None)
  }

  // --------------------------------------------------------------------------------- frames heard

  function Asked(p: Party): Party {
    p.(lab := Lab(p.lab.version, false, true, WaitingApproval, true, false),
       turn := NO_RETRY, done := p.done.(pending := false, attempts := 0), reverseStarted := false,
       rx := p.rx.(completed := false))
  }

  /** `_calibration_offer`. */
  function HearOffer(p: Party, version: nat, env: Env): Out {
    if !env.configured then Out(p, Some(BusyFrame))
    else if p.lab.session && p.lab.pendingOffer then Quiet(p)
    else if p.lab.session && !p.lab.initiator
            && (p.lab.state.Preparing? || p.lab.state.Measuring? || p.lab.state.WaitingReport?) then
      Out(p, Some(AcceptFrame(p.lab.version)))
    else if env.payloadBusy || !AtRest(p.lab.state) || version != p.lab.version then Out(p, Some(BusyFrame))
    else if env.autoAccept then AcceptStep(Asked(p), env.configured)
    else Quiet(Asked(p))
  }

  function HearAccept(p: Party, version: nat, env: Env): Out {
    if !p.lab.state.Offering? then Quiet(p)
    else if version != p.lab.version then Out(p.To(Failed), Some(CancelFrame))
    else if env.queued && !Running(p.tx.phase) then Quiet(p.To(Preparing).At(Submitted).(offerAttempts := 0))
    else Quiet(p.To(Failed).(offerAttempts := 0))
  }

  /** A repeated probe asks only for the cached report. */
  function HearProbe(p: Party, env: Env): Out {
    if !p.lab.state.Preparing? && !p.lab.state.Measuring? then Quiet(p)
    else
      var q := p.(turn := p.turn.(pending := p.turn.pending && !p.lab.initiator));
      if q.rx.completed then SendReport(q)
      else if q.rx.active then Quiet(q)
      else Quiet(q.To(Measuring).(rx := q.rx.(active := env.queued)))
  }

  function HearReport(p: Party): Party {
    if p.tx.commands then p.(tx := p.tx.(held := true, ready := true)) else p
  }

  function BadMarker(p: Party): Out {
    if p.lab.state.Complete? || p.lab.state.Cancelled? || p.lab.state.Failed? then Quiet(p)
    else GiveUp(p)
  }

  function GiveUp(p: Party): Out {
    Out(p.To(Failed).(turn := p.turn.(pending := false), done := p.done.(pending := false)), Some(CancelFrame))
  }

  function TurnHeard(p: Party, reply: nat): Party {
    p.(log := p.log.(turnsHeard := p.log.turnsHeard + 1, replies := p.log.replies + reply))
  }

  function HearTurn(p: Party, env: Env): Out {
    if p.lab.initiator then BadMarker(TurnHeard(p, 0))
    else if p.reverseStarted then
      if p.lab.state.Complete? then Out(TurnHeard(p, 1), Some(DoneMark)) else Quiet(TurnHeard(p, 0))
    else if env.queued && !Running(p.tx.phase) then
      Quiet(TurnHeard(p, 0).To(Preparing).At(Submitted).(reverseStarted := true))
    else Quiet(TurnHeard(p, 0).To(Preparing).(reverseStarted := true))
  }

  function HearDone(p: Party): Out {
    if !p.lab.initiator then BadMarker(p)
    else Out(p.To(Complete).(turn := p.turn.(pending := false), log := p.log.(completes := p.log.completes + 1)),
             Some(CompleteMark))
  }

  function HearComplete(p: Party): Out {
    if !p.done.pending then BadMarker(p) else Quiet(p.To(Complete).(done := p.done.(pending := false)))
  }

  /** `_on_calibration_frame` inside the session. */
  function HearInSession(p: Party, f: Frame, env: Env): Out {
    match f
    case OfferFrame(v) => HearOffer(p, v, env)
    case AcceptFrame(v) => HearAccept(p, v, env)
    case ProbeFrame => HearProbe(p, env)
    case ReportFrame => Quiet(HearReport(p))
    case TurnMark => HearTurn(p, env)
    case DoneMark => HearDone(p)
    case CompleteMark => HearComplete(p)
    case BusyFrame => Quiet(Stopped(p, Failed))
    case CancelFrame => Quiet(Stopped(p, Cancelled))
  }

  /** `_on_calibration_frame`: frames other than offers count only inside the session. */
  function Hear(p: Party, f: Frame, env: Env): Out {
    if f.OfferFrame? || p.lab.session then HearInSession(p, f, env) else Quiet(p)
  }

  // -------------------------------------------------------------------------------------- workers

  /** `_run_quick_station_calibration` up to its first probe. */
  function LaunchStep(p: Party): Out {
    if !p.tx.phase.Submitted? then Quiet(p)
    else Out(p.To(Measuring).(tx := Tx(Probed, true, false, false)), Some(ProbeFrame))
  }

  function NoReport(p: Party): Out { Out(p.At(Returned(false)), Some(CancelFrame)) }

  function FlushFailsStep(p: Party): Out {
    if p.tx.phase.Probed? then NoReport(p.To(WaitingReport)) else Quiet(p)
  }

  function StartSweepStep(p: Party): Out {
    if !p.tx.phase.Probed? then Quiet(p)
    else Quiet(p.At(Sweeping).(log := p.log.(sweeps := p.log.sweeps + 1)))
  }

  function EndSweepStep(p: Party, full: bool): Out {
    if !p.tx.phase.Sweeping? then Quiet(p)
    else if full then Quiet(p.To(WaitingReport).At(Waiting(0)).(log := p.log.(fullSweep := true)))
    else NoReport(p.To(WaitingReport))
  }

  /** The report is there: `_signal_calibration_direction_complete` begins by setting the pending flag. */
  function FlagDirection(p: Party): Party {
    var q := p.To(Preparing).At(Flagged(p.lab.initiator)).(log := p.log.(confirmed := true));
    if p.lab.initiator then q.(turn := q.turn.(pending := true)) else q.(done := q.done.(pending := true))
  }

  /** It sets the counter back. */
  function RewindStep(p: Party): Out {
    if !p.tx.phase.Flagged? then Quiet(p)
    else
      var q := p.At(Rewound(p.tx.phase.turn)).(log := p.log.(lost := p.log.turns + p.log.dones));
      Quiet(if p.tx.phase.turn then q.(turn := q.turn.(attempts := 0)) else q.(done := q.done.(attempts := 0)))
  }

  /** It sends the frame. */
  function SignalStep(p: Party): Out {
    if !p.tx.phase.Rewound? then Quiet(p)
    else
      var q := p.At(Uncounted(p.tx.phase.turn));
      if p.tx.phase.turn then Out(q.(log := q.log.(turns := q.log.turns + 1)), Some(TurnMark))
      else Out(q.(log := q.log.(dones := q.log.dones + 1)), Some(DoneMark))
  }

  /** It counts the frame, and the run returns. */
  function CountStep(p: Party): Out {
    if !p.tx.phase.Uncounted? then Quiet(p)
    else
      var q := p.At(Returned(true));
      Quiet(if p.tx.phase.turn then q.(turn := q.turn.(attempts := q.turn.attempts + 1))
            else q.(done := q.done.(attempts := q.done.attempts + 1)))
  }

  function ReportSeenStep(p: Party): Out {
    if !p.tx.phase.Waiting? || !p.tx.ready then Quiet(p)
    else if p.tx.held then Quiet(FlagDirection(p))
    else NoReport(p)
  }

  function ReportTimeoutStep(p: Party): Out {
    if !p.tx.phase.Waiting? || p.tx.ready then Quiet(p)
    else if p.lab.cancel || p.tx.phase.attempt + 1 >= REPORT_ATTEMPTS then NoReport(p)
    else Out(p.At(Waiting(p.tx.phase.attempt + 1)), Some(ProbeFrame))
  }

  /** An exception in the run; setting a flag or a counter raises none. */
  function RunRaisesStep(p: Party): Out {
    Quiet(if Running(p.tx.phase) && !p.tx.phase.Flagged? && !p.tx.phase.Uncounted? then p.At(Returned(false)) else p)
  }

  /** `_station_calibration_finished`. */
  function RunDrainedStep(p: Party): Out {
    if !p.tx.phase.Returned? then Quiet(p)
    else if !p.tx.phase.ok then Quiet(p.At(Drained).To(Failed))
    else if p.lab.cancel then Quiet(p.At(Drained).To(Cancelled))
    else if p.lab.initiator || p.done.pending then Quiet(p.At(Drained).To(Preparing))
    else Quiet(p.At(Drained).To(Complete))
  }

  function RxEndsStep(p: Party, ok: bool): Out {
    Quiet(if p.rx.active then p.(rx := p.rx.(active := false, results := p.rx.results + [ok])) else p)
  }

  /** `_station_calibration_rx_finished`. */
  function RxDrainedStep(p: Party): Out {
    if p.rx.results == [] then Quiet(p)
    else
      var rest := p.rx.(results := p.rx.results[1..]);
      if !p.rx.results[0] then SendReport(p.To(Preparing).(rx := rest))
      else if p.lab.cancel || p.lab.state.Cancelled? then Quiet(p.(rx := rest))
      else SendReport(p.To(Preparing).(rx := rest.(completed := true)))
  }

  function Do(p: Party, e: Local): Out {
    match e
    case Tick(due) => TickStep(p, due)
    case AcceptOffer(configured) => AcceptStep(p, configured)
    case RejectOffer => RejectStep(p)
    case CancelRun => CancelStep(p)
    case Launch => LaunchStep(p)
    case FlushFails => FlushFailsStep(p)
    case StartSweep => StartSweepStep(p)
    case EndSweep(full) => EndSweepStep(p, full)
    case ReportSeen => ReportSeenStep(p)
    case ReportTimeout => ReportTimeoutStep(p)
    case RunRaises => RunRaisesStep(p)
    case Rewind => RewindStep(p)
    case Signal => SignalStep(p)
    case Count => CountStep(p)
    case RunDrained => RunDrainedStep(p)
    case RxEnds(ok) => RxEndsStep(p, ok)
    case RxDrained => RxDrainedStep(p)
  }

  // -------------------------------------------------------------------------------- the two stations

  /** `ab` and `ba` are the frames still on the air, oldest first. */
  datatype World = World(a: Party, b: Party, ab: seq<Frame>, ba: seq<Frame>)

  datatype Event =
    | AtA(e: Local) | AtB(e: Local)
    | HeardByA(env: Env) | HeardByB(env: Env) | LostToA | LostToB

  function Put(air: seq<Frame>, sent: Option<Frame>): seq<Frame> {
    match sent case None => air case Some(f) => air + [f]
  }

  function Next(w: World, e: Event): World {
    match e
    case AtA(l) => var o := Do(w.a, l); w.(a := o.party, ab := Put(w.ab, o.sent))
    case AtB(l) => var o := Do(w.b, l); w.(b := o.party, ba := Put(w.ba, o.sent))
    case HeardByA(env) =>
      if w.ba == [] then w else
        var o := Hear(w.a, w.ba[0], env);
        w.(a := o.party, ab := Put(w.ab, o.sent), ba := w.ba[1..])
    case HeardByB(env) =>
      if w.ab == [] then w else
        var o := Hear(w.b, w.ab[0], env);
        w.(b := o.party, ba := Put(w.ba, o.sent), ab := w.ab[1..])
    case LostToA => if w.ba == [] then w else w.(ba := w.ba[1..])
    case LostToB => if w.ab == [] then w else w.(ab := w.ab[1..])
  }

  function Run(w: World, events: seq<Event>): World
    decreases |events|
  {
    if events == [] then w else Run(Next(w, events[0]), events[1..])
  }

  /** A station with no calibration under way; anything else may be left from earlier sessions. */
  predicate Resting(p: Party) {
    && AtRest(p.lab.state) && !p.lab.session && !p.lab.pendingOffer && !p.turn.pending && !p.done.pending
    && p.tx.phase.NoRun? && !p.rx.active && p.rx.results == [] && p.log == NOTHING_DONE
  }

  /** `a` calls `b`. */
  function Called(a: Party, b: Party): World {
    var o := Start(a);
    World(o.party, b, Put([], o.sent), [])
  }
}

/** What one station keeps at every step of its own and at every frame it hears. */
module CalibrationSteps {
  import opened Wrappers
  import opened CalibrationProtocol

  /** The worker has not begun to announce its direction. */
  predicate Early(phase: TxPhase) { phase.NoRun? || (Running(phase) && !Announcing(phase)) }

  /** The worker is done with the announcement, or failed. */
  predicate Over(phase: TxPhase) { phase.Returned? || phase.Drained? }

  /** What every station keeps about its sweep and its report. */
  predicate Swept(phase: TxPhase, l: History) {
    && l.sweeps <= 1
    && (phase.NoRun? || phase.Submitted? || phase.Probed? ==> l.sweeps == 0)
    && (phase.Sweeping? ==> l.sweeps == 1)
    && (phase.Waiting? || l.confirmed ==> l.fullSweep)
    && (l.fullSweep ==> l.sweeps == 1)
    && (Early(phase) ==> !l.confirmed)
    && (Announcing(phase) || phase == Returned(true) || l.turns + l.dones > 0 ==> l.confirmed)
  }

  /** The counters of the repeated frames say how many were sent, up to the lost ones and `extra`. */
  predicate CountsAre(p: Party, extra: nat) {
    && (p.turn.pending ==> Sent(p) == p.turn.attempts + p.log.lost + extra)
    && (p.done.pending ==> Sent(p) == p.done.attempts + p.log.lost + extra)
  }

  /** TURN and DONE frames sent. */
  function Sent(p: Party): nat { p.log.turns + p.log.dones }

  /** How many TURN or DONE frames were sent when. */
  predicate Tallied(p: Party) {
    var n, l := Sent(p), p.log;
    && l.lost <= l.ticked && l.lost <= OFFER_ATTEMPTS && l.ticked <= l.lost + OFFER_ATTEMPTS
    && match p.tx.phase
       case Flagged(_) =>
         && l.lost == 0 && n == l.ticked
         && (p.turn.pending ==> n <= p.turn.attempts) && (p.done.pending ==> n <= p.done.attempts)
       case Rewound(_) => n == l.ticked && CountsAre(p, 0)
       case Uncounted(_) => n == l.ticked + 1 && CountsAre(p, 1)
       case Returned(_) => (n <= OFFER_ATTEMPTS + l.lost || n <= 1 + l.ticked) && CountsAre(p, 0)
       case Drained => (n <= OFFER_ATTEMPTS + l.lost || n <= 1 + l.ticked) && CountsAre(p, 0)
       case _ => n == l.ticked == 0
  }

  /** A station repeats one kind of frame: TURN or DONE. */
  predicate OneKind(p: Party) {
    && (p.turn.pending ==> p.log.dones == 0 && !p.done.pending)
    && (p.done.pending ==> p.log.turns == 0 && !p.turn.pending)
    && (Announcing(p.tx.phase) ==>
          if p.tx.phase.turn then p.log.dones == 0 && !p.done.pending else p.log.turns == 0 && !p.turn.pending)
  }

  /** What every station keeps about its repeated frames. */
  predicate Counted(p: Party) {
    && p.log.offers <= OFFER_ATTEMPTS
    && (p.lab.state.Offering? ==> p.tx.phase.NoRun? && p.log.offers == p.offerAttempts)
    && (p.turn.pending || p.done.pending ==> p.log.confirmed)
    && Tallied(p) && OneKind(p)
  }

  predicate Sound(p: Party) { Swept(p.tx.phase, p.log) && Counted(p) }

  /** What the timer may still send of a frame. */
  function Left(r: Retry): nat { if r.pending && r.attempts < OFFER_ATTEMPTS then OFFER_ATTEMPTS - r.attempts else 0 }

  /** The most TURN and DONE frames a station whose run is over can come to have sent. */
  function AtMost(p: Party): nat { Sent(p) + Left(p.turn) + Left(p.done) }

  /** The station has taken a probe of its peer's sweep. */
  predicate RxUsed(p: Party) { p.rx.active || p.rx.results != [] || p.rx.completed || p.log.reports > 0 }

  predicate Caller(p: Party) {
    && p.lab.initiator && p.lab.session && !p.lab.pendingOffer && !p.done.pending
    && p.log.dones == 0 && p.log.replies == 0
    && (p.lab.state.Complete? ==> p.log.completes > 0)
    && (p.log.completes > 0 || RxUsed(p) ==> !p.turn.pending)
    && (Announcing(p.tx.phase) ==> p.tx.phase.turn)
  }

  predicate Callee(p: Party) {
    && (p.lab.session || p.log.turnsHeard > 0 ==> !p.lab.initiator) && !p.turn.pending && !p.lab.state.Offering?
    && p.log.offers == 0 && p.log.turns == 0 && p.log.completes == 0
    && (p.lab.state.Complete? && (p.lab.session || p.log.turnsHeard > 0) ==>
          p.log.confirmed)
    && (!p.tx.phase.NoRun? ==> p.log.turnsHeard > 0)
    && (p.log.replies > 0 ==> p.log.confirmed) && (Announcing(p.tx.phase) ==> !p.tx.phase.turn)
  }

  /** A report has come in since the current run was launched. */
  predicate Answered(tx: Tx) { tx.ready && (tx.phase.Probed? || tx.phase.Sweeping? || tx.phase.Waiting?) }

  /** What one step of a station shows the other: the frame it sends and how its history grows. */
  predicate Shows(p: Party, o: Out) {
    var l, m := p.log, o.party.log;
    && m.turns == l.turns + (if o.sent == Some(TurnMark) then 1 else 0)
    && (o.sent.Some? && o.sent.value.OfferFrame? ==> p.lab.state.Offering?)
    && (o.sent == Some(TurnMark) && m.ticked == 0 ==> p.turn.pending || l.turns == 0)
    && (o.sent == Some(TurnMark) ==> l.confirmed) && l.ticked <= m.ticked
    && (Over(p.tx.phase) ==> Over(o.party.tx.phase) && AtMost(o.party) <= AtMost(p))
    && (o.sent == Some(DoneMark) ==> m.dones + m.replies > 0)
    && (o.sent == Some(CompleteMark) ==> m.completes > 0)
    && (o.sent == Some(ReportFrame) ==> m.reports > 0)
    && (o.sent == Some(ProbeFrame) || !p.tx.phase.NoRun? ==> !o.party.tx.phase.NoRun?)
    && l.dones + l.replies <= m.dones + m.replies && l.completes <= m.completes && l.reports <= m.reports
    && (m.confirmed && !l.confirmed ==> Answered(p.tx))
  }

  /** What one step does to a station's record of what it heard; `f` is the frame heard, if any. */
  predicate Remembers(p: Party, f: Option<Frame>, q: Party) {
    var l, m := p.log, q.log;
    && l.turnsHeard <= m.turnsHeard <= l.turnsHeard + (if f == Some(TurnMark) then 1 else 0)
    && (m.turnsHeard > l.turnsHeard ==> q.reverseStarted || q.lab.initiator)
    && (p.reverseStarted ==> q.reverseStarted || (f.Some? && f.value.OfferFrame?))
    && (m.completes > l.completes ==> f == Some(DoneMark))
    && (m.replies > l.replies ==> f == Some(TurnMark) && p.lab.state.Complete? && p.lab.session)
    && (RxUsed(q) ==> RxUsed(p) || f == Some(ProbeFrame))
    && (Answered(q.tx) ==> Answered(p.tx) || f == Some(ReportFrame))
  }

  predicate Kept(p: Party, f: Option<Frame>, o: Out) {
    && Sound(o.party) && Shows(p, o) && Remembers(p, f, o.party)
    && (Caller(p) && (p.log.completes > 0 || RxUsed(p) ==> !Early(p.tx.phase)) && !(f.Some? && f.value.OfferFrame?) ==>
          Caller(o.party))
    && (Callee(p) ==> Callee(o.party))
  }

  // What a step does to the counters of TURN and DONE.

  predicate TallyKept(p: Party, q: Party) {
    Tallied(q) && OneKind(q) && (Over(p.tx.phase) ==> AtMost(q) <= AtMost(p))
  }

  /** Most steps leave the counters alone, or give a repeated frame up. */
  predicate CountersAlone(p: Party, q: Party) {
    && Sent(q) == Sent(p) && q.log.turns == p.log.turns && q.log.lost == p.log.lost && q.log.ticked == p.log.ticked
    && (q.turn.pending ==> q.turn == p.turn) && (q.done.pending ==> q.done == p.done)
    && (q.tx.phase == p.tx.phase
        || (Early(p.tx.phase) && !Announcing(q.tx.phase) && !q.turn.pending && !q.done.pending)
        || (Over(p.tx.phase) && q.tx.phase.Drained?))
  }

  lemma AloneKept(p: Party, q: Party)
    requires Sound(p) && CountersAlone(p, q)
    ensures TallyKept(p, q)
  {
    hide Swept;
  }

  lemma TickTurnTally(p: Party)
    requires Sound(p) && p.turn.pending
    ensures TallyKept(p, TickTurn(p).party)
  {
  }

  lemma TickDoneTally(p: Party)
    requires Sound(p) && p.done.pending
    ensures TallyKept(p, TickDone(p).party)
  {
  }

  lemma RewindTally(p: Party)
    requires Sound(p)
    ensures TallyKept(p, RewindStep(p).party)
  {
  }

  lemma SignalTally(p: Party)
    requires Sound(p)
    ensures TallyKept(p, SignalStep(p).party)
  {
  }

  lemma CountTally(p: Party)
    requires Sound(p)
    ensures TallyKept(p, CountStep(p).party)
  {
  }

  lemma RaiseTally(p: Party)
    requires Sound(p)
    ensures TallyKept(p, RunRaisesStep(p).party)
  {
  }

  lemma FlagTally(p: Party)
    requires Sound(p)
    ensures TallyKept(p, ReportSeenStep(p).party)
  {
  }

  lemma TickTurnKept(p: Party)
    requires Sound(p) && p.turn.pending
    ensures Kept(p, None, TickTurn(p))
  {
    TickTurnTally(p);
    hide Tallied, AtMost;
  }

  lemma TickDoneKept(p: Party)
    requires Sound(p) && p.done.pending
    ensures Kept(p, None, TickDone(p))
  {
    TickDoneTally(p);
    hide Tallied, AtMost;
  }

  lemma TickOfferKept(p: Party)
    requires Sound(p) && p.lab.state.Offering?
    ensures Kept(p, None, TickOffer(p))
  {
    AloneKept(p, TickOffer(p).party);
    hide Tallied, OneKind, AtMost;
  }

  lemma QuietKept(p: Party, f: Option<Frame>)
    requires Sound(p)
    ensures Kept(p, f, Quiet(p))
  {
    AloneKept(p, p);
    hide Tallied, OneKind, AtMost;
  }

  lemma TickKept(p: Party, due: bool)
    requires Sound(p)
    ensures Kept(p, None, TickStep(p, due))
  {
    hide Kept, Sound, TickTurn, TickDone, TickOffer;
    if due && p.turn.pending {
      TickTurnKept(p);
    } else if due && p.done.pending {
      TickDoneKept(p);
    } else if due && p.lab.state.Offering? {
      TickOfferKept(p);
    } else {
      QuietKept(p, None);
    }
  }

  lemma AcceptKept(p: Party, configured: bool)
    requires Sound(p)
    ensures Kept(p, None, AcceptStep(p, configured))
  {
    AloneKept(p, AcceptStep(p, configured).party);
    hide Tallied, OneKind, AtMost;
  }

  lemma RejectKept(p: Party)
    requires Sound(p)
    ensures Kept(p, None, RejectStep(p))
  {
    AloneKept(p, RejectStep(p).party);
    hide Tallied, OneKind, AtMost;
  }

  lemma CancelKept(p: Party)
    requires Sound(p)
    ensures Kept(p, None, CancelStep(p))
  {
    AloneKept(p, CancelStep(p).party);
    hide Tallied, OneKind, AtMost;
  }

  lemma LaunchKept(p: Party)
    requires Sound(p)
    ensures Kept(p, None, LaunchStep(p))
  {
    AloneKept(p, LaunchStep(p).party);
    hide Tallied, OneKind, AtMost;
  }

  lemma FlushFailsKept(p: Party)
    requires Sound(p)
    ensures Kept(p, None, FlushFailsStep(p))
  {
    AloneKept(p, FlushFailsStep(p).party);
    hide Tallied, OneKind, AtMost;
  }

  lemma StartSweepKept(p: Party)
    requires Sound(p)
    ensures Kept(p, None, StartSweepStep(p))
  {
    AloneKept(p, StartSweepStep(p).party);
    hide Tallied, OneKind, AtMost;
  }

  lemma EndSweepKept(p: Party, full: bool)
    requires Sound(p)
    ensures Kept(p, None, EndSweepStep(p, full))
  {
    AloneKept(p, EndSweepStep(p, full).party);
    hide Tallied, OneKind, AtMost;
  }

  lemma ReportSeenKept(p: Party)
    requires Sound(p)
    ensures Kept(p, None, ReportSeenStep(p))
  {
    FlagTally(p);
    hide Tallied, AtMost;
  }

  lemma ReportTimeoutKept(p: Party)
    requires Sound(p)
    ensures Kept(p, None, ReportTimeoutStep(p))
  {
    AloneKept(p, ReportTimeoutStep(p).party);
    hide Tallied, OneKind, AtMost;
  }

  lemma RunRaisesKept(p: Party)
    requires Sound(p)
    ensures Kept(p, None, RunRaisesStep(p))
  {
    RaiseTally(p);
    hide Tallied, AtMost;
  }

  lemma RewindKept(p: Party)
    requires Sound(p)
    ensures Kept(p, None, RewindStep(p))
  {
    RewindTally(p);
    hide Tallied, AtMost;
  }

  lemma SignalKept(p: Party)
    requires Sound(p)
    ensures Kept(p, None, SignalStep(p))
  {
    SignalTally(p);
    hide Tallied, AtMost;
  }

  lemma CountKept(p: Party)
    requires Sound(p)
    ensures Kept(p, None, CountStep(p))
  {
    CountTally(p);
    hide Tallied, AtMost;
  }

  lemma RunFailedKept(p: Party)
    requires Sound(p) && p.tx.phase == Returned(false)
    ensures Kept(p, None, Quiet(p.At(Drained).To(Failed)))
  {
    AloneKept(p, p.At(Drained).To(Failed));
    hide Tallied, OneKind, AtMost;
  }

  lemma RunOverKept(p: Party, state: CalState)
    requires Sound(p) && p.tx.phase == Returned(true) && (state.Cancelled? || state.Preparing?)
    ensures Kept(p, None, Quiet(p.At(Drained).To(state)))
  {
    AloneKept(p, p.At(Drained).To(state));
    hide Tallied, OneKind, AtMost;
  }

  /** `_station_calibration_finished` completes only a station that is not the initiator. */
  lemma RunCompleteKept(p: Party)
    requires Sound(p) && p.tx.phase == Returned(true) && !p.lab.initiator && !p.done.pending
    ensures Kept(p, None, Quiet(p.At(Drained).To(Complete)))
  {
    AloneKept(p, p.At(Drained).To(Complete));
    hide Tallied, OneKind, AtMost;
  }

  lemma RunDrainedKept(p: Party)
    requires Sound(p)
    ensures Kept(p, None, RunDrainedStep(p))
  {
    hide Kept, Sound;
    if !p.tx.phase.Returned? {
      QuietKept(p, None);
    } else if !p.tx.phase.ok {
      RunFailedKept(p);
    } else if p.lab.cancel || p.lab.initiator || p.done.pending {
      RunOverKept(p, if p.lab.cancel then Cancelled else Preparing);
    } else {
      RunCompleteKept(p);
    }
  }

  lemma RxEndsKept(p: Party, ok: bool)
    requires Sound(p)
    ensures Kept(p, None, RxEndsStep(p, ok))
  {
    AloneKept(p, RxEndsStep(p, ok).party);
    hide Tallied, OneKind, AtMost;
  }

  lemma ReportSentKept(p: Party, rx: Rx)
    requires Sound(p) && p.rx.results != []
    ensures Kept(p, None, SendReport(p.To(Preparing).(rx := rx)))
  {
    AloneKept(p, SendReport(p.To(Preparing).(rx := rx)).party);
    hide Tallied, OneKind, AtMost;
  }

  lemma RxKept(p: Party, f: Option<Frame>, rx: Rx)
    requires Sound(p) && p.rx.results != []
    ensures Kept(p, f, Quiet(p.(rx := rx)))
  {
    AloneKept(p, p.(rx := rx));
    hide Tallied, OneKind, AtMost;
  }

  lemma RxDrainedKept(p: Party)
    requires Sound(p)
    ensures Kept(p, None, RxDrainedStep(p))
  {
    hide Kept, Sound, SendReport;
    if p.rx.results == [] {
      QuietKept(p, None);
    } else {
      var rest := p.rx.(results := p.rx.results[1..]);
      ReportSentKept(p, rest);
      RxKept(p, None, rest);
      ReportSentKept(p, rest.(completed := true));
    }
  }

  lemma DoKept(p: Party, e: Local)
    requires Sound(p)
    ensures Kept(p, None, Do(p, e))
  {
    hide Kept, Sound, TickStep, AcceptStep, RejectStep, CancelStep, LaunchStep, FlushFailsStep, StartSweepStep,
         EndSweepStep, ReportSeenStep, ReportTimeoutStep, RunRaisesStep, RunDrainedStep, RxEndsStep, RxDrainedStep,
         RewindStep, SignalStep, CountStep;
    match e
    case Tick(due) => TickKept(p, due);
    case AcceptOffer(configured) => AcceptKept(p, configured);
    case RejectOffer => RejectKept(p);
    case CancelRun => CancelKept(p);
    case Launch => LaunchKept(p);
    case FlushFails => FlushFailsKept(p);
    case StartSweep => StartSweepKept(p);
    case EndSweep(full) => EndSweepKept(p, full);
    case ReportSeen => ReportSeenKept(p);
    case ReportTimeout => ReportTimeoutKept(p);
    case RunRaises => RunRaisesKept(p);
    case Rewind => RewindKept(p);
    case Signal => SignalKept(p);
    case Count => CountKept(p);
    case RunDrained => RunDrainedKept(p);
    case RxEnds(ok) => RxEndsKept(p, ok);
    case RxDrained => RxDrainedKept(p);
  }

  lemma HearOfferKept(p: Party, version: nat, env: Env)
    requires Sound(p)
    ensures Kept(p, Some(OfferFrame(version)), HearOffer(p, version, env))
  {
    AloneKept(p, HearOffer(p, version, env).party);
    hide Tallied, OneKind, AtMost;
  }

  lemma AcceptRunsKept(p: Party)
    requires Sound(p) && p.lab.state.Offering?
    ensures Kept(p, Some(AcceptFrame(p.lab.version)), Quiet(p.To(Preparing).At(Submitted).(offerAttempts := 0)))
  {
    AloneKept(p, p.To(Preparing).At(Submitted).(offerAttempts := 0));
    hide Tallied, OneKind, AtMost;
  }

  lemma AcceptFailsKept(p: Party, version: nat)
    requires Sound(p) && p.lab.state.Offering?
    ensures Kept(p, Some(AcceptFrame(version)), Quiet(p.To(Failed).(offerAttempts := 0)))
    ensures Kept(p, Some(AcceptFrame(version)), Out(p.To(Failed), Some(CancelFrame)))
  {
    AloneKept(p, p.To(Failed).(offerAttempts := 0));
    AloneKept(p, p.To(Failed));
    hide Tallied, OneKind, AtMost;
  }

  lemma HearAcceptKept(p: Party, version: nat, env: Env)
    requires Sound(p) && p.lab.session
    ensures Kept(p, Some(AcceptFrame(version)), HearAccept(p, version, env))
  {
    hide Kept, Sound;
    if p.lab.state.Offering? {
      AcceptRunsKept(p);
      AcceptFailsKept(p, version);
    } else {
      QuietKept(p, Some(AcceptFrame(version)));
    }
  }

  /** What hearing a probe does to the caller's TURN. */
  function ProbeSeen(p: Party): Party { p.(turn := p.turn.(pending := p.turn.pending && !p.lab.initiator)) }

  lemma ProbeSilentKept(p: Party)
    requires Sound(p)
    ensures Kept(p, Some(ProbeFrame), Quiet(ProbeSeen(p)))
  {
    AloneKept(p, ProbeSeen(p));
    hide Tallied, OneKind, AtMost;
  }

  lemma ProbeReportKept(p: Party)
    requires Sound(p)
    ensures Kept(p, Some(ProbeFrame), SendReport(ProbeSeen(p)))
  {
    AloneKept(p, SendReport(ProbeSeen(p)).party);
    hide Tallied, OneKind, AtMost;
  }

  lemma ProbeMeasuredKept(p: Party, rx: Rx)
    requires Sound(p)
    ensures Kept(p, Some(ProbeFrame), Quiet(ProbeSeen(p).To(Measuring).(rx := rx)))
  {
    AloneKept(p, ProbeSeen(p).To(Measuring).(rx := rx));
    hide Tallied, OneKind, AtMost;
  }

  lemma HearProbeKept(p: Party, env: Env)
    requires Sound(p) && p.lab.session
    ensures Kept(p, Some(ProbeFrame), HearProbe(p, env))
  {
    hide Kept, Sound, SendReport;
    if p.lab.state.Preparing? || p.lab.state.Measuring? {
      ProbeSilentKept(p);
      ProbeReportKept(p);
      ProbeMeasuredKept(p, p.rx.(active := env.queued));
    } else {
      QuietKept(p, Some(ProbeFrame));
    }
  }

  lemma HearReportKept(p: Party)
    requires Sound(p) && p.lab.session
    ensures Kept(p, Some(ReportFrame), Quiet(HearReport(p)))
  {
    AloneKept(p, HearReport(p));
    hide Tallied, OneKind, AtMost;
  }

  lemma DoneAnsweredKept(p: Party)
    requires Sound(p) && p.lab.initiator && p.lab.session
    ensures Kept(p, Some(DoneMark), HearDone(p))
  {
    AloneKept(p, HearDone(p).party);
    hide Tallied, OneKind, AtMost;
  }

  lemma HearDoneKept(p: Party)
    requires Sound(p) && p.lab.session
    ensures Kept(p, Some(DoneMark), HearDone(p))
  {
    hide Kept, Sound, BadMarker;
    if p.lab.initiator {
      DoneAnsweredKept(p);
    } else {
      BadMarkerKept(p, DoneMark, p);
    }
  }

  /** How a marker is noted that the station does not expect. */
  predicate Noted(p: Party, f: Frame, heard: Party) {
    || (f == TurnMark && heard == TurnHeard(p, 0) && p.lab.initiator)
    || ((f == DoneMark || f == CompleteMark) && heard == p)
  }

  lemma MarkerIgnoredKept(p: Party, f: Frame, heard: Party)
    requires Sound(p) && p.lab.session && Noted(p, f, heard)
    ensures Kept(p, Some(f), Quiet(heard))
  {
    AloneKept(p, heard);
    hide Tallied, OneKind, AtMost;
  }

  lemma GiveUpKept(p: Party, f: Frame, heard: Party)
    requires Sound(p) && p.lab.session && Noted(p, f, heard)
    ensures Kept(p, Some(f), GiveUp(heard))
  {
    AloneKept(p, GiveUp(heard).party);
    hide Tallied, OneKind, AtMost;
  }

  lemma BadMarkerKept(p: Party, f: Frame, heard: Party)
    requires Sound(p) && p.lab.session && Noted(p, f, heard)
    ensures Kept(p, Some(f), BadMarker(heard))
  {
    hide Kept, Sound, Noted, GiveUp;
    MarkerIgnoredKept(p, f, heard);
    GiveUpKept(p, f, heard);
  }

  lemma CompletedKept(p: Party)
    requires Sound(p) && p.done.pending && p.lab.session
    ensures Kept(p, Some(CompleteMark), HearComplete(p))
  {
    AloneKept(p, HearComplete(p).party);
    hide Tallied, OneKind, AtMost;
  }

  lemma HearCompleteKept(p: Party)
    requires Sound(p) && p.lab.session
    ensures Kept(p, Some(CompleteMark), HearComplete(p))
  {
    hide Kept, Sound, BadMarker;
    if p.done.pending {
      CompletedKept(p);
    } else {
      BadMarkerKept(p, CompleteMark, p);
    }
  }

  lemma TurnAgainKept(p: Party)
    requires Sound(p) && p.lab.session && p.reverseStarted && !p.lab.initiator
    ensures Kept(p, Some(TurnMark), Quiet(TurnHeard(p, 0)))
    ensures p.lab.state.Complete? ==> Kept(p, Some(TurnMark), Out(TurnHeard(p, 1), Some(DoneMark)))
  {
    AloneKept(p, TurnHeard(p, 0));
    AloneKept(p, TurnHeard(p, 1));
    hide Tallied, OneKind, AtMost;
  }

  lemma ReverseKept(p: Party, phase: TxPhase)
    requires Sound(p) && p.lab.session && !p.lab.initiator && p.tx.phase.NoRun? && (phase.NoRun? || phase.Submitted?)
    ensures Kept(p, Some(TurnMark), Quiet(TurnHeard(p, 0).To(Preparing).At(phase).(reverseStarted := true)))
  {
    AloneKept(p, TurnHeard(p, 0).To(Preparing).At(phase).(reverseStarted := true));
    hide Tallied, OneKind, AtMost;
  }

  /** A turn starts a run only in a station that has run nothing. */
  lemma HearTurnKept(p: Party, env: Env)
    requires Sound(p) && p.lab.session && (p.reverseStarted || p.lab.initiator || p.tx.phase.NoRun?)
    ensures Kept(p, Some(TurnMark), HearTurn(p, env))
  {
    hide Kept, Sound, BadMarker;
    if p.lab.initiator {
      BadMarkerKept(p, TurnMark, TurnHeard(p, 0));
    } else if p.reverseStarted {
      TurnAgainKept(p);
    } else {
      ReverseKept(p, Submitted);
      ReverseKept(p, NoRun);
      assert p.At(NoRun) == p;
    }
  }

  lemma StoppedKept(p: Party, state: CalState, f: Frame)
    requires Sound(p) && p.lab.session && (state.Failed? || state.Cancelled?)
    ensures Kept(p, Some(f), Quiet(Stopped(p, state)))
  {
    AloneKept(p, Stopped(p, state));
    hide Tallied, OneKind, AtMost;
  }

  lemma HearKept(p: Party, f: Frame, env: Env)
    requires Sound(p)
    requires f.TurnMark? ==> p.reverseStarted || p.lab.initiator || p.tx.phase.NoRun?
    ensures Kept(p, Some(f), Hear(p, f, env))
  {
    if f.OfferFrame? || p.lab.session {
      hide Kept, Sound, HearOffer, HearAccept, HearProbe, HearReport, HearTurn, HearDone, HearComplete, Stopped;
      match f
      case OfferFrame(v) => HearOfferKept(p, v, env);
      case AcceptFrame(v) => HearAcceptKept(p, v, env);
      case ProbeFrame => HearProbeKept(p, env);
      case ReportFrame => HearReportKept(p);
      case TurnMark => HearTurnKept(p, env);
      case DoneMark => HearDoneKept(p);
      case CompleteMark => HearCompleteKept(p);
      case BusyFrame => StoppedKept(p, Failed, f);
      case CancelFrame => StoppedKept(p, Cancelled, f);
    } else {
      hide HearInSession;
    }
  }
}

/** An AutoTune session in which nothing is lost: the handshake the protocol's results are about does
    complete, on both sides. */
module CalibrationSession {
  import opened CalibrationProtocol

  /** Everything allowed and queued, offers accepted without asking. */
  const WILLING := Env(true, false, true, true)

  lemma RunFour(w: World, e: Event, f: Event, g: Event, h: Event, rest: seq<Event>)
    ensures Run(w, [e, f, g, h] + rest) == Run(Next(Next(Next(Next(w, e), f), g), h), rest)
  {
    hide Next;
    var w1, w2, w3 := Next(w, e), Next(Next(w, e), f), Next(Next(Next(w, e), f), g);
    assert ([e, f, g, h] + rest)[1..] == [f, g, h] + rest;
    assert ([f, g, h] + rest)[1..] == [g, h] + rest;
    assert ([g, h] + rest)[1..] == [h] + rest;
    assert ([h] + rest)[1..] == rest;
    assert Run(w1, [f, g, h] + rest) == Run(w2, [g, h] + rest);
    assert Run(w3, [h] + rest) == Run(Next(w3, h), rest);
  }

  function Four(w: World, e: Event, f: Event, g: Event, h: Event): World {
    Next(Next(Next(Next(w, e), f), g), h)
  }

  // The session in eight parts of four events.

  function First(w: World): World { Four(w, HeardByB(WILLING), HeardByA(WILLING), AtA(Launch), HeardByB(WILLING)) }

  function Second(w: World): World {
    Four(w, AtA(StartSweep), AtA(EndSweep(true)), AtB(RxEnds(true)), AtB(Tick(false)))
  }

  function Third(w: World): World { Four(w, AtB(RxDrained), HeardByA(WILLING), AtA(ReportSeen), AtA(Rewind)) }

  function Handover(w: World): World { Four(w, AtA(Signal), AtA(Count), AtA(RunDrained), AtA(Tick(false))) }

  function Fourth(w: World): World { Four(w, HeardByB(WILLING), AtB(Launch), HeardByA(WILLING), AtB(StartSweep)) }

  function Fifth(w: World): World { Four(w, AtB(EndSweep(true)), AtA(RxEnds(true)), AtA(RxDrained), AtA(Tick(false))) }

  function Sixth(w: World): World { Four(w, HeardByB(WILLING), AtB(ReportSeen), AtB(Rewind), AtB(Signal)) }

  function Ending(w: World): World { Four(w, AtB(Count), AtB(RunDrained), HeardByA(WILLING), AtA(Tick(false))) }

  predicate InCall(w: World) {
    w.a.lab.initiator && w.a.lab.session && !w.b.lab.initiator && w.b.lab.session && !w.a.lab.cancel && !w.b.lab.cancel
  }

  /** The caller has probed, the callee listens. */
  predicate Stage1(w: World) {
    && InCall(w) && w.ab == [] && w.ba == [] && w.a.turn == NO_RETRY && w.a.log.turns == 0
    && w.a.tx == Tx(Probed, true, false, false) && w.b.rx == Rx(false, true, []) && w.b.lab.state.Measuring?
    && !w.a.rx.active && w.a.rx.results == [] && !w.a.rx.completed && w.b.tx.phase.NoRun? && !w.b.reverseStarted
  }

  lemma ToStage1(a: Party, b: Party)
    requires Resting(a) && Resting(b) && a.lab.version == b.lab.version
    ensures Stage1(First(Called(a, b)))
  {
    var w1 := Next(Called(a, b), HeardByB(WILLING));
    assert w1.ba == [AcceptFrame(a.lab.version)] && w1.ab == [];
    var w2 := Next(w1, HeardByA(WILLING));
    assert w2.a.tx.phase == Submitted && w2.ba == [];
    var w3 := Next(w2, AtA(Launch));
    assert w3.ab == [ProbeFrame];
  }

  /** The first sweep is out, the callee has measured it. */
  predicate Stage2(w: World) {
    && InCall(w) && w.ab == [] && w.ba == [] && w.a.turn == NO_RETRY && w.a.log.turns == 0
    && w.a.tx.phase.Waiting? && w.a.tx.commands && w.b.rx == Rx(false, false, [true]) && w.b.lab.state.Measuring?
    && !w.a.rx.active && w.a.rx.results == [] && !w.a.rx.completed && w.b.tx.phase.NoRun? && !w.b.reverseStarted
  }

  lemma ToStage2(w: World)
    requires Stage1(w)
    ensures Stage2(Second(w))
  {
    var w1 := Next(w, AtA(StartSweep));
    var w2 := Next(w1, AtA(EndSweep(true)));
    assert w2.a.tx.phase == Waiting(0);
  }

  /** The caller has its report and is about to hand over. */
  predicate Stage2a(w: World) {
    && InCall(w) && w.ab == [] && w.ba == []
    && w.a.tx.phase == Rewound(true) && w.b.tx.phase.NoRun? && !w.b.reverseStarted
    && !w.a.rx.active && w.a.rx.results == [] && !w.a.rx.completed
  }

  lemma ToStage2a(w: World)
    requires Stage2(w)
    ensures Stage2a(Third(w))
  {
    var w1 := Next(w, AtB(RxDrained));
    assert w1.ba == [ReportFrame];
    var w2 := Next(w1, HeardByA(WILLING));
    assert w2.a.tx.ready && w2.a.tx.held && w2.ba == [];
    var w3 := Next(w2, AtA(ReportSeen));
    assert w3.ab == [] && w3.a.tx.phase == Flagged(true);
  }

  /** The caller has handed over. */
  predicate Stage3(w: World) {
    && InCall(w) && w.ab == [TurnMark] && w.ba == []
    && w.a.tx.phase.Drained? && w.a.lab.state.Preparing? && w.b.tx.phase.NoRun? && !w.b.reverseStarted
    && !w.a.rx.active && w.a.rx.results == [] && !w.a.rx.completed
  }

  lemma ToStage3(w: World)
    requires Stage2a(w)
    ensures Stage3(Handover(w))
  {
    var w1 := Next(w, AtA(Signal));
    assert w1.ab == [TurnMark] && w1.a.tx.phase == Uncounted(true);
    var w2 := Next(w1, AtA(Count));
    assert w2.ab == [TurnMark] && w2.a.tx.phase == Returned(true);
    var w3 := Next(w2, AtA(RunDrained));
    assert w3.ab == [TurnMark] && w3.a.tx.phase.Drained?;
  }

  /** The callee sweeps, the caller listens. */
  predicate Stage4(w: World) {
    && InCall(w) && w.ab == [] && w.ba == []
    && w.b.tx == Tx(Sweeping, true, false, false) && w.a.rx == Rx(false, true, []) && w.a.lab.state.Measuring?
  }

  lemma ToStage4(w: World)
    requires Stage3(w)
    ensures Stage4(Fourth(w))
  {
    var w1 := Next(w, HeardByB(WILLING));
    assert w1.b.tx.phase == Submitted && w1.ab == [] && w1.ba == [];
    var w2 := Next(w1, AtB(Launch));
    assert w2.ba == [ProbeFrame] && w2.b.tx == Tx(Probed, true, false, false);
    var w3 := Next(w2, HeardByA(WILLING));
    assert w3.a.rx == Rx(false, true, []) && w3.ba == [];
  }

  /** The caller's report is in the callee's hands. */
  predicate Stage5(w: World) {
    && InCall(w) && w.ab == [ReportFrame] && w.ba == []
    && w.b.tx.phase.Waiting? && w.b.tx.commands
  }

  lemma ToStage5(w: World)
    requires Stage4(w)
    ensures Stage5(Fifth(w))
  {
    var w1 := Next(w, AtB(EndSweep(true)));
    assert w1.b.tx == Tx(Waiting(0), true, false, false);
    var w2 := Next(w1, AtA(RxEnds(true)));
    assert w2.a.rx == Rx(false, false, [true]);
    var w3 := Next(w2, AtA(RxDrained));
    assert w3.ab == [ReportFrame];
  }

  /** The callee has sent that it is done. */
  predicate Stage5a(w: World) {
    && InCall(w) && w.ab == [] && w.ba == [DoneMark] && w.b.done.pending
    && w.b.tx.phase == Uncounted(false)
  }

  lemma ToStage5a(w: World)
    requires Stage5(w)
    ensures Stage5a(Sixth(w))
  {
    var w1 := Next(w, HeardByB(WILLING));
    assert w1.b.tx.ready && w1.b.tx.held && w1.ab == [];
    var w2 := Next(w1, AtB(ReportSeen));
    assert w2.ba == [] && w2.b.done.pending && w2.b.tx.phase == Flagged(false);
    var w3 := Next(w2, AtB(Rewind));
    assert w3.ba == [] && w3.b.done.pending && w3.b.tx.phase == Rewound(false);
  }

  /** The caller has confirmed it. */
  predicate Stage6(w: World) {
    InCall(w) && w.ab == [CompleteMark] && w.ba == [] && w.a.lab.state.Complete? && w.b.done.pending
  }

  lemma ToStage6(w: World)
    requires Stage5a(w)
    ensures Stage6(Ending(w))
  {
    var w1 := Next(w, AtB(Count));
    assert w1.ba == [DoneMark] && w1.b.done.pending && w1.b.tx.phase == Returned(true);
    var w2 := Next(w1, AtB(RunDrained));
    assert w2.ba == [DoneMark] && w2.b.done.pending;
    var w3 := Next(w2, HeardByA(WILLING));
    assert w3.ab == [CompleteMark] && w3.ba == [] && w3.a.lab.state.Complete?;
  }

  function Undisturbed(): seq<Event> {
    [HeardByB(WILLING), HeardByA(WILLING), AtA(Launch), HeardByB(WILLING)]
    + ([AtA(StartSweep), AtA(EndSweep(true)), AtB(RxEnds(true)), AtB(Tick(false))]
    + ([AtB(RxDrained), HeardByA(WILLING), AtA(ReportSeen), AtA(Rewind)]
    + ([AtA(Signal), AtA(Count), AtA(RunDrained), AtA(Tick(false))]
    + ([HeardByB(WILLING), AtB(Launch), HeardByA(WILLING), AtB(StartSweep)]
    + ([AtB(EndSweep(true)), AtA(RxEnds(true)), AtA(RxDrained), AtA(Tick(false))]
    + ([HeardByB(WILLING), AtB(ReportSeen), AtB(Rewind), AtB(Signal)]
    + ([AtB(Count), AtB(RunDrained), HeardByA(WILLING), AtA(Tick(false))]
    + [HeardByB(WILLING)])))))))
  }

  /** With nothing lost and both sides willing, the session of any two resting stations of one protocol
      version does complete on both sides. */
  lemma UndisturbedCompletes(a: Party, b: Party)
    requires Resting(a) && Resting(b) && a.lab.version == b.lab.version
    ensures var w := Run(Called(a, b), Undisturbed()); w.a.lab.state.Complete? && w.b.lab.state.Complete?
  {
    hide Run, Called, Resting, Stage1, Stage2, Stage2a, Stage3, Stage4, Stage5, Stage5a, First, Second, Third, Handover,
         Fourth, Fifth, Sixth, Ending;
    var w1 := First(Called(a, b));
    ToStage1(a, b);
    ToStage2(w1);
    var w3 := Third(Second(w1));
    ToStage2a(Second(w1));
    ToStage3(w3);
    ToStage4(Handover(w3));
    var w5 := Fifth(Fourth(Handover(w3)));
    ToStage5(Fourth(Handover(w3)));
    ToStage5a(w5);
    ToStage6(Sixth(w5));
    LastStage(Ending(Sixth(w5)));
    UndisturbedRun(Called(a, b));
  }

  lemma LastStage(w: World)
    requires Stage6(w)
    ensures Run(w, [HeardByB(WILLING)]) == Next(w, HeardByB(WILLING))
    ensures Next(w, HeardByB(WILLING)).a.lab.state.Complete? && Next(w, HeardByB(WILLING)).b.lab.state.Complete?
  {
    var next := Next(w, HeardByB(WILLING));
    assert [HeardByB(WILLING)][1..] == [] && Run(next, []) == next;
  }

  lemma UndisturbedRun(w: World)
    ensures Run(w, Undisturbed())
         == Run(Ending(Sixth(Fifth(Fourth(Handover(Third(Second(First(w)))))))), [HeardByB(WILLING)])
  {
    hide Run, Next;
    var w2 := Second(First(w));
    var w4 := Handover(Third(w2));
    var w6 := Fifth(Fourth(w4));
    var r8 := [HeardByB(WILLING)];
    var r7 := [AtB(Count), AtB(RunDrained), HeardByA(WILLING), AtA(Tick(false))] + r8;
    var r6 := [HeardByB(WILLING), AtB(ReportSeen), AtB(Rewind), AtB(Signal)] + r7;
    var r5 := [AtB(EndSweep(true)), AtA(RxEnds(true)), AtA(RxDrained), AtA(Tick(false))] + r6;
    var r4 := [HeardByB(WILLING), AtB(Launch), HeardByA(WILLING), AtB(StartSweep)] + r5;
    var r3 := [AtA(Signal), AtA(Count), AtA(RunDrained), AtA(Tick(false))] + r4;
    var r2 := [AtB(RxDrained), HeardByA(WILLING), AtA(ReportSeen), AtA(Rewind)] + r3;
    var r1 := [AtA(StartSweep), AtA(EndSweep(true)), AtB(RxEnds(true)), AtB(Tick(false))] + r2;
    RunFour(w, HeardByB(WILLING), HeardByA(WILLING), AtA(Launch), HeardByB(WILLING), r1);
    RunFour(First(w), AtA(StartSweep), AtA(EndSweep(true)), AtB(RxEnds(true)), AtB(Tick(false)), r2);
    RunFour(w2, AtB(RxDrained), HeardByA(WILLING), AtA(ReportSeen), AtA(Rewind), r3);
    RunFour(Third(w2), AtA(Signal), AtA(Count), AtA(RunDrained), AtA(Tick(false)), r4);
    RunFour(w4, HeardByB(WILLING), AtB(Launch), HeardByA(WILLING), AtB(StartSweep), r5);
    RunFour(Fourth(w4), AtB(EndSweep(true)), AtA(RxEnds(true)), AtA(RxDrained), AtA(Tick(false)), r6);
    RunFour(w6, HeardByB(WILLING), AtB(ReportSeen), AtB(Rewind), AtB(Signal), r7);
    RunFour(Sixth(w6), AtB(Count), AtB(RunDrained), HeardByA(WILLING), AtA(Tick(false)), r8);
  }

  // ------------------------------------------------------------------- a timer ahead of the worker

  function Race(w: World): World { Four(w, AtB(RxDrained), HeardByA(WILLING), AtA(ReportSeen), AtA(Tick(true))) }

  function Overrun(w: World): World { Four(w, AtA(Rewind), AtA(Signal), AtA(Count), AtA(Tick(true))) }

  /** The timer has sent a TURN whose count is about to be set back. */
  predicate Raced(w: World) {
    w.a.tx.phase == Flagged(true) && w.a.turn == Retry(true, 1) && w.a.log.turns == 1
  }

  lemma ToRaced(w: World)
    requires Stage2(w)
    ensures Raced(Race(w))
  {
    var w1 := Next(w, AtB(RxDrained));
    assert w1.ba == [ReportFrame];
    var w2 := Next(w1, HeardByA(WILLING));
    assert w2.a.tx.ready && w2.a.tx.held;
    var w3 := Next(w2, AtA(ReportSeen));
    assert w3.a.tx.phase == Flagged(true) && w3.a.turn == Retry(true, 0) && w3.a.log.turns == 0;
  }

  lemma ToOverrun(w: World)
    requires Raced(w)
    ensures Next(Overrun(w), AtA(Tick(true))).a.log.turns == 4
  {
    var w1 := Next(w, AtA(Rewind));
    assert w1.a.tx.phase == Rewound(true) && w1.a.turn == Retry(true, 0) && w1.a.log.turns == 1;
    var w2 := Next(w1, AtA(Signal));
    assert w2.a.tx.phase == Uncounted(true) && w2.a.turn == Retry(true, 0) && w2.a.log.turns == 2;
    var w3 := Next(w2, AtA(Count));
    assert w3.a.turn == Retry(true, 1) && w3.a.log.turns == 2;
    var w4 := Next(w3, AtA(Tick(true)));
    assert w4.a.turn == Retry(true, 2) && w4.a.log.turns == 3;
  }

  /** With the worker stalled before and after setting the counter back, the timer runs out twice. */
  lemma ToStalled(w: World)
    requires Raced(w)
    ensures Delayed(Stalled(w)).a.log.turns == 7
  {
    var w1 := Next(w, AtA(Tick(true)));
    assert w1.a.turn == Retry(true, 2) && w1.a.log.turns == 2 && w1.a.tx.phase == Flagged(true);
    var w2 := Next(w1, AtA(Tick(true)));
    assert w2.a.turn == Retry(true, 3) && w2.a.log.turns == 3 && w2.a.tx.phase == Flagged(true);
    var w3 := Next(w2, AtA(Rewind));
    assert w3.a.turn == Retry(true, 0) && w3.a.log.turns == 3 && w3.a.tx.phase == Rewound(true);
    var w4 := Next(w3, AtA(Tick(true)));
    assert w4.a.turn == Retry(true, 1) && w4.a.log.turns == 4 && w4.a.tx.phase == Rewound(true);
    AfterDelay(w4);
  }

  lemma AfterDelay(w: World)
    requires w.a.turn == Retry(true, 1) && w.a.log.turns == 4 && w.a.tx.phase == Rewound(true)
    ensures Delayed(w).a.log.turns == 7
  {
    var w1 := Next(w, AtA(Tick(true)));
    assert w1.a.turn == Retry(true, 2) && w1.a.log.turns == 5 && w1.a.tx.phase == Rewound(true);
    var w2 := Next(w1, AtA(Tick(true)));
    assert w2.a.turn == Retry(true, 3) && w2.a.log.turns == 6 && w2.a.tx.phase == Rewound(true);
    var w3 := Next(w2, AtA(Signal));
    assert w3.a.log.turns == 7 && w3.a.tx.phase == Uncounted(true);
  }

  function Stalled(w: World): World { Four(w, AtA(Tick(true)), AtA(Tick(true)), AtA(Rewind), AtA(Tick(true))) }

  function Delayed(w: World): World { Four(w, AtA(Tick(true)), AtA(Tick(true)), AtA(Signal), AtA(Count)) }

  /** The session up to a timer that overtakes the caller's worker, and then `rest`. */
  function Overtaken(rest: seq<Event>): seq<Event> {
    [HeardByB(WILLING), HeardByA(WILLING), AtA(Launch), HeardByB(WILLING)]
    + ([AtA(StartSweep), AtA(EndSweep(true)), AtB(RxEnds(true)), AtB(Tick(false))]
    + ([AtB(RxDrained), HeardByA(WILLING), AtA(ReportSeen), AtA(Tick(true))]
    + rest))
  }

  lemma RunToRace(a: Party, b: Party, rest: seq<Event>) returns (w: World)
    requires Resting(a) && Resting(b) && a.lab.version == b.lab.version
    ensures Raced(w) && Run(Called(a, b), Overtaken(rest)) == Run(w, rest)
  {
    hide Next, Called, Resting, Stage1, Stage2, Raced;
    var w0 := Called(a, b);
    ToStage1(a, b);
    ToStage2(First(w0));
    ToRaced(Second(First(w0)));
    w := Race(Second(First(w0)));
    var r3 := [AtB(RxDrained), HeardByA(WILLING), AtA(ReportSeen), AtA(Tick(true))] + rest;
    var r2 := [AtA(StartSweep), AtA(EndSweep(true)), AtB(RxEnds(true)), AtB(Tick(false))] + r3;
    RunFour(w0, HeardByB(WILLING), HeardByA(WILLING), AtA(Launch), HeardByB(WILLING), r2);
    RunFour(First(w0), AtA(StartSweep), AtA(EndSweep(true)), AtB(RxEnds(true)), AtB(Tick(false)), r3);
    RunFour(Second(First(w0)), AtB(RxDrained), HeardByA(WILLING), AtA(ReportSeen), AtA(Tick(true)), rest);
  }

  /** A fourth TURN does go out: the timer, whose last frame is long past, finds the flag set before the
      worker has set the counter back. */
  lemma FourTurns(a: Party, b: Party)
    requires Resting(a) && Resting(b) && a.lab.version == b.lab.version
    ensures Run(Called(a, b), Overtaken([AtA(Rewind), AtA(Signal), AtA(Count), AtA(Tick(true))]
                                        + [AtA(Tick(true))])).a.log.turns == 4
  {
    hide Next, Called, Resting, Raced, Overtaken;
    var w := RunToRace(a, b, [AtA(Rewind), AtA(Signal), AtA(Count), AtA(Tick(true))] + [AtA(Tick(true))]);
    ToOverrun(w);
    RunFour(w, AtA(Rewind), AtA(Signal), AtA(Count), AtA(Tick(true)), [AtA(Tick(true))]);
    LastTick(Overrun(w));
  }

  /** Seven do if the worker stalls for several retry intervals on each side of the reset. */
  lemma SevenTurns(a: Party, b: Party)
    requires Resting(a) && Resting(b) && a.lab.version == b.lab.version
    ensures var stalled, delayed := [AtA(Tick(true)), AtA(Tick(true)), AtA(Rewind), AtA(Tick(true))],
                                    [AtA(Tick(true)), AtA(Tick(true)), AtA(Signal), AtA(Count)];
            Run(Called(a, b), Overtaken(stalled + (delayed + []))).a.log.turns == 7
  {
    hide Next, Called, Resting, Raced, Overtaken;
    var delayed := [AtA(Tick(true)), AtA(Tick(true)), AtA(Signal), AtA(Count)] + [];
    var w := RunToRace(a, b, [AtA(Tick(true)), AtA(Tick(true)), AtA(Rewind), AtA(Tick(true))] + delayed);
    ToStalled(w);
    RunFour(w, AtA(Tick(true)), AtA(Tick(true)), AtA(Rewind), AtA(Tick(true)), delayed);
    RunFour(Stalled(w), AtA(Tick(true)), AtA(Tick(true)), AtA(Signal), AtA(Count), []);
  }

  lemma LastTick(w: World)
    ensures Run(w, [AtA(Tick(true))]) == Next(w, AtA(Tick(true)))
  {
    hide Next;
    assert [AtA(Tick(true))][1..] == [];
    assert Run(Next(w, AtA(Tick(true))), []) == Next(w, AtA(Tick(true)));
  }
}

/** The AutoTune code in the form the station runs it: one object whose handlers update
    `station_lab`, the retry counters and the worker's report slots, each proved to be one step of
    the calibration protocol.  A handler returns the frame it hands to the control channel. */
module CalibrationService {
  import opened Wrappers
  import opened CalibrationProtocol

  class CalibrationStation {
    var lab: Lab
    var offerAttempts: nat
    var turn: Retry
    var done: Retry
    var reverseStarted: bool
    var rxCompleted: bool
    var rxActive: bool
    var rxResults: seq<bool>
    var commands: bool
    var held: bool
    var ready: bool
    var phase: TxPhase
    ghost var log: History

    ghost function View(): Party
      reads this
    {
      Party(lab, offerAttempts, turn, done, reverseStarted,
            Rx(rxCompleted, rxActive, rxResults), Tx(phase, commands, held, ready), log)
    }

    constructor (version: nat)
      ensures Resting(View()) && lab.version == version
    {
      lab := Lab(version, false, false, Idle, false, false);
      offerAttempts, turn, done, reverseStarted := 0, NO_RETRY, NO_RETRY, false;
      rxCompleted, rxActive, rxResults := false, false, [];
      commands, held, ready, phase := false, false, false, NoRun;
      log := NOTHING_DONE;
    }

    /** `_send_calibration_offer`. */
    method SendOfferFrame() returns (sent: Option<Frame>)
      modifies this`offerAttempts, this`log
      ensures sent == Some(OfferFrame(lab.version))
      ensures offerAttempts == old(offerAttempts) + 1 && log == old(log).(offers := old(log).offers + 1)
    {
      sent := Some(OfferFrame(lab.version));
      offerAttempts := offerAttempts + 1;
      log := log.(offers := log.offers + 1);
    }

    /** `_send_calibration_turn`, from the timer. */
    method SendTurnMark() returns (sent: Option<Frame>)
      modifies this`turn, this`log
      ensures Out(View(), sent) == SendTurn(old(View()))
    {
      sent := Some(TurnMark);
      turn := turn.(attempts := turn.attempts + 1);
      log := log.(turns := log.turns + 1, ticked := log.ticked + WhileAnnouncing(View()));
    }

    /** `_send_calibration_done`, from the timer. */
    method SendDoneMark() returns (sent: Option<Frame>)
      modifies this`done, this`log
      ensures Out(View(), sent) == SendDone(old(View()))
    {
      sent := Some(DoneMark);
      done := done.(attempts := done.attempts + 1);
      log := log.(dones := log.dones + 1, ticked := log.ticked + WhileAnnouncing(View()));
    }

    /** `start_station_calibration`, its checks passed. */
    method StartCalibration() returns (sent: Option<Frame>)
      requires AtRest(lab.state)
      modifies this
      ensures Out(View(), sent) == Start(old(View()))
    {
      held, commands, offerAttempts, rxCompleted := false, false, 0, false;
      turn, reverseStarted, done := NO_RETRY, false, NO_RETRY;
      lab := Lab(lab.version, true, true, Offering, false, false);
      assert View() == Cleared(old(View()));
      sent := SendOfferFrame();
    }

    /** `_tick_station_calibration`. */
    method TickCalibration(due: bool) returns (sent: Option<Frame>)
      modifies this
      ensures Out(View(), sent) == TickStep(old(View()), due)
    {
      sent := None;
      if turn.pending {
        if !due { return; }
        if turn.attempts < OFFER_ATTEMPTS {
          sent := SendTurnMark();
          return;
        }
        turn := turn.(pending := false);
        lab := lab.(state := Failed);
        return Some(CancelFrame);
      }
      if done.pending {
        if !due { return; }
        if done.attempts < OFFER_ATTEMPTS {
          sent := SendDoneMark();
          return;
        }
        done := done.(pending := false);
        lab := lab.(state := Failed);
        return Some(CancelFrame);
      }
      if !lab.state.Offering? || !due { return; }
      if offerAttempts < OFFER_ATTEMPTS {
        sent := SendOfferFrame();
        return;
      }
      lab := lab.(state := Failed);
      sent := Some(CancelFrame);
    }

    /** `accept_station_calibration`. */
    method Accept(configured: bool) returns (sent: Option<Frame>)
      modifies this
      ensures Out(View(), sent) == AcceptStep(old(View()), configured)
    {
      if !configured || !lab.pendingOffer || !lab.session { return None; }
      lab := lab.(pendingOffer := false, state := Preparing);
      sent := Some(AcceptFrame(lab.version));
    }

    /** `reject_station_calibration`. */
    method Reject() returns (sent: Option<Frame>)
      modifies this
      ensures Out(View(), sent) == RejectStep(old(View()))
    {
      if !lab.pendingOffer { return None; }
      lab := lab.(session := false, state := Idle, pendingOffer := false);
      sent := Some(BusyFrame);
    }

    /** `cancel_station_calibration`. */
    method Cancel() returns (sent: Option<Frame>)
      modifies this
      ensures Out(View(), sent) == CancelStep(old(View()))
    {
      if lab.state.Idle? || lab.state.Complete? { return None; }
      lab := lab.(cancel := true);
      turn := turn.(pending := false);
      done := done.(pending := false);
      sent := if lab.session then Some(CancelFrame) else None;
      lab := lab.(state := Cancelled);
    }

    /** `_calibration_offer`. */
    method OnOffer(offered: nat, env: Env) returns (sent: Option<Frame>)
      modifies this
      ensures Out(View(), sent) == HearOffer(old(View()), offered, env)
    {
      if !env.configured { return Some(BusyFrame); }
      if lab.session {
        if lab.pendingOffer { return None; }
        if !lab.initiator && (lab.state.Preparing? || lab.state.Measuring? || lab.state.WaitingReport?) {
          return Some(AcceptFrame(lab.version));
        }
      }
      if env.payloadBusy || !AtRest(lab.state) { return Some(BusyFrame); }
      if offered != lab.version { return Some(BusyFrame); }
      lab := Lab(lab.version, false, true, WaitingApproval, true, false);
      rxCompleted, turn, reverseStarted, done := false, NO_RETRY, false, NO_RETRY;
      sent := None;
      if env.autoAccept {
        sent := Accept(env.configured);
      }
    }

    /** CAL_ACCEPT: the caller's run is submitted. */
    method OnAccept(peerVersion: nat, env: Env) returns (sent: Option<Frame>)
      modifies this
      ensures Out(View(), sent) == HearAccept(old(View()), peerVersion, env)
    {
      sent := None;
      if !lab.state.Offering? { return; }
      if peerVersion != lab.version {
        lab := lab.(state := Failed);
        return Some(CancelFrame);
      }
      offerAttempts := 0;
      lab := lab.(state := Preparing);
      if env.queued && !Running(phase) {
        phase := Submitted;
      } else {
        lab := lab.(state := Failed);
      }
    }

    /** CAL_PROBE: measure the peer's sweep, or send the cached report once more. */
    method OnProbe(env: Env) returns (sent: Option<Frame>)
      modifies this
      ensures Out(View(), sent) == HearProbe(old(View()), env)
    {
      sent := None;
      if !lab.state.Preparing? && !lab.state.Measuring? { return; }
      if lab.initiator {
        turn := turn.(pending := false);
      }
      if rxCompleted {
        log := log.(reports := log.reports + 1);
        return Some(ReportFrame);
      }
      if rxActive { return; }
      lab := lab.(state := Measuring);
      rxActive := env.queued;
    }

    /** CAL_DONE with the marker TURN. */
    method OnTurn(env: Env) returns (sent: Option<Frame>)
      modifies this
      ensures Out(View(), sent) == HearTurn(old(View()), env)
    {
      log := log.(turnsHeard := log.turnsHeard + 1);
      if lab.initiator {
        sent := OnBadMarker();
        return;
      }
      sent := None;
      if reverseStarted {
        if lab.state.Complete? {
          log := log.(replies := log.replies + 1);
          sent := Some(DoneMark);
        }
        return;
      }
      reverseStarted := true;
      lab := lab.(state := Preparing);
      if env.queued && !Running(phase) {
        phase := Submitted;
      }
    }

    /** CAL_DONE with the marker DONE. */
    method OnDone() returns (sent: Option<Frame>)
      modifies this
      ensures Out(View(), sent) == HearDone(old(View()))
    {
      if !lab.initiator {
        sent := OnBadMarker();
        return;
      }
      sent := Some(CompleteMark);
      turn := turn.(pending := false);
      lab := lab.(state := Complete);
      log := log.(completes := log.completes + 1);
    }

    /** CAL_DONE with the marker COMPLETE. */
    method OnComplete() returns (sent: Option<Frame>)
      modifies this
      ensures Out(View(), sent) == HearComplete(old(View()))
    {
      if !done.pending {
        sent := OnBadMarker();
        return;
      }
      done := done.(pending := false);
      lab := lab.(state := Complete);
      sent := None;
    }

    method OnBadMarker() returns (sent: Option<Frame>)
      modifies this
      ensures Out(View(), sent) == BadMarker(old(View()))
    {
      if lab.state.Complete? || lab.state.Cancelled? || lab.state.Failed? { return None; }
      turn := turn.(pending := false);
      done := done.(pending := false);
      lab := lab.(state := Failed);
      sent := Some(CancelFrame);
    }

    /** CAL_BUSY and CAL_CANCEL. */
    method OnStop(busy: bool)
      modifies this
      ensures View() == Stopped(old(View()), if busy then Failed else Cancelled)
    {
      lab := lab.(cancel := true);
      turn := turn.(pending := false);
      done := done.(pending := false);
      lab := lab.(state := if busy then Failed else Cancelled);
    }

    /** `_on_calibration_frame`. */
    method OnFrame(frame: Frame, env: Env) returns (sent: Option<Frame>)
      modifies this
      ensures Out(View(), sent) == Hear(old(View()), frame, env)
    {
      hide HearOffer, HearAccept, HearProbe, HearTurn, HearDone, HearComplete, Stopped;
      sent := None;
      if frame.OfferFrame? {
        sent := OnOffer(frame.version, env);
        return;
      }
      if !lab.session { return; }
      match frame
      case OfferFrame(_) =>
      case AcceptFrame(peerVersion) => sent := OnAccept(peerVersion, env);
      case ProbeFrame => sent := OnProbe(env);
      case ReportFrame =>
        if commands {
          held, ready := true, true;
        }
      case TurnMark => sent := OnTurn(env);
      case DoneMark => sent := OnDone();
      case CompleteMark => sent := OnComplete();
      case BusyFrame => OnStop(true);
      case CancelFrame => OnStop(false);
    }

    // ------------------------------------------------------------------------------------ workers

    /** `_run_quick_station_calibration` up to its first probe. */
    method BeginRun() returns (sent: Option<Frame>)
      requires phase.Submitted?
      modifies this
      ensures Out(View(), sent) == LaunchStep(old(View()))
    {
      commands, held, ready := true, false, false;
      lab := lab.(state := Measuring);
      phase := Probed;
      sent := Some(ProbeFrame);
    }

    /** The sweep is over, or was never begun because the control channel did not fall idle. */
    method SweepOver(full: bool) returns (sent: Option<Frame>)
      requires phase.Sweeping?
      modifies this
      ensures Out(View(), sent) == EndSweepStep(old(View()), full)
    {
      lab := lab.(state := WaitingReport);
      if full {
        phase := Waiting(0);
        log := log.(fullSweep := true);
        sent := None;
      } else {
        phase := Returned(false);
        sent := Some(CancelFrame);
      }
    }

    /** One wait for the report has ended: `got`, or timed out. */
    method WaitOver() returns (sent: Option<Frame>)
      requires phase.Waiting?
      modifies this
      ensures Out(View(), sent) == if old(ready) then ReportSeenStep(old(View())) else ReportTimeoutStep(old(View()))
    {
      if ready && held {
        SetPending();
        sent := None;
      } else if !ready && !lab.cancel && phase.attempt + 1 < REPORT_ATTEMPTS {
        phase := Waiting(phase.attempt + 1);
        sent := Some(ProbeFrame);
      } else {
        phase := Returned(false);
        sent := Some(CancelFrame);
      }
    }

    // `_signal_calibration_direction_complete` runs beside the UI thread, which may come in between any two
    // of its statements.

    /** Its first statement: the pending flag of the frame to come. */
    method SetPending()
      modifies this
      ensures View() == FlagDirection(old(View()))
    {
      lab := lab.(state := Preparing);
      phase := Flagged(lab.initiator);
      log := log.(confirmed := true);
      if lab.initiator {
        turn := turn.(pending := true);
      } else {
        done := done.(pending := true);
      }
    }

    /** Its second: the counter is set back. */
    method ResetAttempts()
      requires phase.Flagged?
      modifies this
      ensures Quiet(View()) == RewindStep(old(View()))
    {
      log := log.(lost := log.turns + log.dones);
      if phase.turn {
        turn := turn.(attempts := 0);
      } else {
        done := done.(attempts := 0);
      }
      phase := Rewound(phase.turn);
    }

    /** Its third: the frame is sent. */
    method SignalDirection() returns (sent: Option<Frame>)
      requires phase.Rewound?
      modifies this
      ensures Out(View(), sent) == SignalStep(old(View()))
    {
      if phase.turn {
        sent := Some(TurnMark);
        log := log.(turns := log.turns + 1);
      } else {
        sent := Some(DoneMark);
        log := log.(dones := log.dones + 1);
      }
      phase := Uncounted(phase.turn);
    }

    /** Its last: the frame is counted, after which the run returns. */
    method CountAttempt()
      requires phase.Uncounted?
      modifies this
      ensures Quiet(View()) == CountStep(old(View()))
    {
      if phase.turn {
        turn := turn.(attempts := turn.attempts + 1);
      } else {
        done := done.(attempts := done.attempts + 1);
      }
      phase := Returned(true);
    }

    /** `_station_calibration_finished`. */
    method RunFinished()
      requires phase.Returned?
      modifies this
      ensures Quiet(View()) == RunDrainedStep(old(View()))
    {
      var ok := phase.ok;
      phase := Drained;
      if !ok {
        lab := lab.(state := Failed);
      } else if lab.cancel {
        lab := lab.(state := Cancelled);
      } else if lab.initiator || done.pending {
        lab := lab.(state := Preparing);
      } else {
        lab := lab.(state := Complete);
      }
    }

    /** `_station_calibration_rx_finished`. */
    method ReceptionFinished() returns (sent: Option<Frame>)
      requires rxResults != []
      modifies this
      ensures Out(View(), sent) == RxDrainedStep(old(View()))
    {
      var ok := rxResults[0];
      rxResults := rxResults[1..];
      sent := None;
      if ok {
        if lab.cancel || lab.state.Cancelled? { return; }
        rxCompleted := true;
      }
      lab := lab.(state := Preparing);
      log := log.(reports := log.reports + 1);
      sent := Some(ReportFrame);
    }
  }
}
