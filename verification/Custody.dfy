/** Who carries a message: the internet server or RF.  One message is one durable record; the
    protocol's steps are the atomic actions of the control thread, of the single server worker and
    of the crash that loses everything volatile. */
module CustodyProtocol {
  import opened Wrappers

  type Id = nat

  /** `server_path.state`. */
  datatype ServerState =
    | NoState | Checking | Uploading | Unknown | Rejected | Accepted | Delivered | Expired
    | RfFallback | NotAccepted | Received

  /** `HELD_STATES`: durable server custody blocks RF submission. */
  predicate Held(st: ServerState) { st.Checking? || st.Uploading? || st.Unknown? || st.Accepted? }

  datatype Folder = Draft | Outbox | Sent | Inbox | Transit

  /** The durable record of one message: mailbox folder, server path and radio path. */
  datatype Rec = Rec(
    folder: Folder, own: bool,
    st: ServerState, bridged: bool, hasKey: bool, attemptedAt: int, receiptDue: bool,
    previousHop: bool, ttl: int, pendingReceipt: bool)

  /** How far the server worker has got with its upload. */
  datatype Phase = Started | Uploaded | Finished(error: bool)

  datatype Job = Job(id: Id, leave: bool, bridge: bool, phase: Phase)

  /** `recs` survives a crash.  `transport` counts the receipt frames the control transport has taken and
      not finished with; `aired` is history: the messages a receipt was keyed for. */
  datatype State = State(
    recs: map<Id, Rec>,
    active: bool, job: Option<Job>, polling: bool,
    preparing: set<Id>, compressing: set<Id>, sessions: set<Id>,
    receiptQueue: set<Id>, queueing: Option<Id>,
    transport: multiset<Id>, aired: set<Id>)

  /** What the surroundings answer when the server is offered a message. */
  datatype SendEnv = SendEnv(enabled: bool, serverFirst: bool, lockFree: bool, manualRoute: bool,
                             clientOk: bool, submitOk: bool, now: int)

  /** What the surroundings answer when RF is offered a message. */
  datatype RfEnv = RfEnv(transportReady: bool, lockFree: bool, qsyOk: bool, compress: bool, queued: bool)

  /** How a relayed message meets the station: whether it relays at all, whether the server may take the
      message, whether there is one radio only, and whether a next hop or a discovery is at hand; then the
      fate of the two durable writes. */
  datatype RelayEnv = RelayEnv(relaying: bool, allowed: bool, single: bool, routed: bool, now: int,
                               pathOk: bool, stateOk: bool)

  datatype Event =
    | ServerSend(id: Id, leave: bool, env: SendEnv)
    | WorkerUpload(now: int, writeOk: bool)
    | WorkerReply(reply: ServerState, writeOk: bool)
    | WorkerPutError(definitive: bool, writeOk: bool)
    | WorkerFails
    | JobDone(closed: bool, writeOk: bool, rf: RfEnv)
    | RfSend(id: Id, rf: RfEnv)
    | CompressDone(id: Id)
    | SessionEnds(id: Id)
    | PollStart
    | PollAnswer(id: Id, answer: Option<ServerState>, writeOk: bool)
    | PollDone
    | StatusWritten(id: Id)
    | Timeout(id: Id, now: int)
    | Relay(id: Id, ttl: int, way: RelayEnv, env: SendEnv)
    | QueueReceipt(id: Id, writeOk: bool)
    | ClearReceiptDue(writeOk: bool)
    | FlushReceipt(id: Id, stopped: bool, writeOk: bool)
    | ReceiptAired(id: Id)
    | ReceiptDropped(id: Id)
    | TransportStops
    | Store(id: Id, folder: Folder, own: bool, overRf: bool, ttl: int, writeOk: bool)
    | Import(id: Id, writeOk: bool)
    | Delete(id: Id, otherBusy: bool)
    | Crash

  predicate Live(s: State, id: Id) { id in s.sessions }

  function WithRec(s: State, id: Id, r: Rec): State { s.(recs := s.recs[id := r]) }

  // --------------------------------------------------------------------------------------- server

  /** The guards of `ArdosService.send`. */
  predicate SendBlocked(s: State, id: Id, leave: bool, env: SendEnv)
    requires id in s.recs
  {
    var r, bridge := s.recs[id], s.recs[id].folder.Transit?;
    || (Held(r.st) && !r.st.Checking?)
    || (!leave && r.st.RfFallback?)
    || !env.enabled || (!leave && !env.serverFirst)
    || s.active || !env.lockFree
    || (!bridge && (!r.folder.Outbox? || !r.own))
    || (bridge && (!r.previousHop || r.ttl < 1))
    || (!bridge && !leave && env.manualRoute)
    || id in s.preparing || Live(s, id)
    || !env.clientOk
  }

  /** `ArdosService.send`, up to queueing the upload. */
  function ServerSendStep(s: State, id: Id, leave: bool, env: SendEnv): State {
    if id !in s.recs || SendBlocked(s, id, leave, env) then s
    else
      var r, bridge := s.recs[id], s.recs[id].folder.Transit?;
      var s2 := if bridge && !r.st.Checking? then
                  WithRec(s, id, r.(st := Checking, bridged := true, attemptedAt := env.now))
                else s;
      if !env.submitOk then s2 else
        s2.(preparing := s.preparing + {id}, active := true, job := Some(Job(id, leave, bridge, Started)))
  }

  /** The worker publishes `uploading` before it talks to the server about the bundle. */
  function WorkerUploadStep(s: State, now: int, writeOk: bool): State {
    if s.job.None? || !s.job.value.phase.Started? then s
    else
      var j := s.job.value;
      if !writeOk || j.id !in s.recs then s.(job := Some(j.(phase := Finished(true)))) else
        WithRec(s, j.id, s.recs[j.id].(st := Uploading, hasKey := true, bridged := j.bridge, attemptedAt := now))
          .(job := Some(j.(phase := Uploaded)))
  }

  /** `_publish_receipt`: state and receipt obligation in one durable write. */
  function Publish(r: Rec, reply: ServerState): Rec {
    r.(st := reply, receiptDue := r.receiptDue || (r.bridged && reply.Delivered? && !r.st.Delivered?))
  }

  function WorkerReplyStep(s: State, reply: ServerState, writeOk: bool): State {
    if s.job.None? || !s.job.value.phase.Uploaded? then s
    else
      var j := s.job.value;
      if !writeOk || j.id !in s.recs then s.(job := Some(j.(phase := Finished(true)))) else
        WithRec(s, j.id, Publish(s.recs[j.id], reply)).(job := Some(j.(phase := Finished(false))))
  }

  /** A definitive rejection is `rejected`; a silent or failing server leaves the outcome unknown. */
  function WorkerPutErrorStep(s: State, definitive: bool, writeOk: bool): State {
    if s.job.None? || !s.job.value.phase.Uploaded? then s
    else
      var j := s.job.value;
      var s2 := s.(job := Some(j.(phase := Finished(true))));
      if !writeOk || j.id !in s.recs then s2 else
        WithRec(s2, j.id, s.recs[j.id].(st := if definitive then Rejected else Unknown))
  }

  /** Any other exception in the worker ends the job with an error. */
  function WorkerFailsStep(s: State): State {
    if s.job.None? || s.job.value.phase.Finished? then s
    else s.(job := Some(s.job.value.(phase := Finished(true))))
  }

  /** The completion on the control thread releases the message. */
  function Released(s: State): State
    requires s.job.Some? && s.job.value.phase.Finished?
  {
    s.(job := None, active := false, preparing := s.preparing - {s.job.value.id})
  }

  /** A bridged message whose upload failed goes back to RF. */
  predicate Returned(s: State)
    requires s.job.Some? && s.job.value.phase.Finished?
  {
    var j := s.job.value;
    j.phase.error && j.bridge && j.id in s.recs && (s.recs[j.id].st.Checking? || s.recs[j.id].st.Rejected?)
  }

  /** The durable mark of that, and then RF may have the message. */
  function JobDoneStep(s: State, closed: bool, writeOk: bool, rf: RfEnv): State {
    if s.job.None? || !s.job.value.phase.Finished? then s
    else if Returned(s) && !writeOk then Released(s)
    else
      var j := s.job.value;
      var t := if Returned(s) then WithRec(Released(s), j.id, s.recs[j.id].(st := RfFallback)) else Released(s);
      if j.phase.error && !j.leave && !closed && !(j.id in t.recs && Held(t.recs[j.id].st))
      then RfSendStep(t, j.id, rf) else t
  }

  function PollStartStep(s: State): State {
    if s.active then s else s.(active := true, polling := true)
  }

  /** One reconciled handoff: the server's answer, or its 404. */
  function PollAnswerStep(s: State, id: Id, reply: Option<ServerState>, writeOk: bool): State {
    if !s.polling || id !in s.recs || !writeOk then s
    else
      var r := s.recs[id];
      if !r.hasKey || !(Held(r.st) || r.st.RfFallback?) then s
      else if reply.None? then WithRec(s, id, r.(st := if r.bridged then RfFallback else NotAccepted))
      else WithRec(s, id, Publish(r, reply.value))
  }

  function PollDoneStep(s: State): State {
    if !s.polling then s else s.(active := false, polling := false)
  }

  /** The mailbox half of `_publish_receipt`. */
  function StatusWrittenStep(s: State, id: Id): State {
    if id in s.recs && s.recs[id].st.Delivered? then WithRec(s, id, s.recs[id].(folder := Sent)) else s
  }

  /** `tick`: after 90 seconds without an outcome the receiver's dedupe permits RF. */
  function Expire(r: Rec, now: int): Rec {
    if (r.st.Checking? || r.st.Uploading? || r.st.Unknown?) && now - r.attemptedAt >= 90 then r.(st := RfFallback)
    else r
  }

  function TimeoutStep(s: State, id: Id, now: int): State {
    if s.active || id !in s.recs then s else WithRec(s, id, Expire(s.recs[id], now))
  }

  /** `accept_relay` answers no. */
  predicate Declines(s: State, id: Id, ttl: int, way: RelayEnv) {
    || !way.allowed || id !in s.recs
    || (!(s.recs[id].bridged && s.recs[id].st.Delivered?) && (!s.recs[id].folder.Transit? || ttl <= 1))
  }

  /** `accept_relay`: durable local custody before the next leg can be announced.  The two writes, of the
      radio path and of the server state, may fail one by one. */
  function AcceptRelayStep(s: State, id: Id, ttl: int, way: RelayEnv, env: SendEnv): State
    requires !Declines(s, id, ttl, way)
  {
    var r := s.recs[id];
    if r.bridged && r.st.Delivered? then if way.stateOk then WithRec(s, id, r.(receiptDue := true)) else s
    else if !way.pathOk then s
    else
      var r2 := r.(previousHop := true, ttl := ttl - 1);
      if Held(r.st) then ServerSendStep(WithRec(s, id, r2), id, false, env)
      else if !way.stateOk then WithRec(s, id, r2)
      else ServerSendStep(WithRec(s, id, CheckedFor(r2, way)), id, false, env)
  }

  function CheckedFor(r: Rec, way: RelayEnv): Rec { r.(st := Checking, bridged := true, attemptedAt := way.now) }

  /** A relay the server path declined.  The coordinator of several radios keeps a stored message in its
      queue; on one radio the outbound leg is opened at once, and no one looks at the message's custody. */
  function DeclinedStep(s: State, id: Id, ttl: int, way: RelayEnv): State {
    if !way.single && id in s.recs then
      if way.pathOk then WithRec(s, id, s.recs[id].(previousHop := true, ttl := ttl - 1)) else s
    else if ttl > 1 && way.routed then s.(sessions := s.sessions + {id})
    else s
  }

  /** `_maybe_relay`, after a relayed message came in complete; on one radio that needs the message's place
      in the session table. */
  function RelayStep(s: State, id: Id, ttl: int, way: RelayEnv, env: SendEnv): State {
    if !way.relaying || (way.single && Live(s, id)) then s
    else if Declines(s, id, ttl, way) then DeclinedStep(s, id, ttl, way)
    else AcceptRelayStep(s, id, ttl, way, env)
  }

  // --------------------------------------------------------------------------------------- RF

  /** `_announce_prepared_mail`: custody is checked again, then the session starts. */
  function Announce(s: State, id: Id): State {
    if id in s.recs && (Held(s.recs[id].st) || s.recs[id].st.Delivered?) then s
    else s.(sessions := s.sessions + {id})
  }

  /** The guards of `send_queued` past the server. */
  predicate RfBlocked(s: State, id: Id, rf: RfEnv) {
    || (id in s.recs && Held(s.recs[id].st))
    || !rf.transportReady || !rf.lockFree
    || id in s.preparing || Live(s, id)
    || id !in s.recs || (s.recs[id].folder.Transit? && s.recs[id].ttl < 1)
    || !rf.qsyOk
  }

  /** `send_queued` past the server: prepare the bundle, then announce it. */
  function RfSendStep(s: State, id: Id, rf: RfEnv): State {
    if RfBlocked(s, id, rf) then s
    else if !rf.compress then Announce(s, id)
    else if !rf.queued then s
    else s.(preparing := s.preparing + {id}, compressing := s.compressing + {id})
  }

  function CompressDoneStep(s: State, id: Id): State {
    if id !in s.compressing then s else
      Announce(s, id).(preparing := s.preparing - {id}, compressing := s.compressing - {id})
  }

  function SessionEndsStep(s: State, id: Id): State { s.(sessions := s.sessions - {id}) }

  // --------------------------------------------------------------------------------------- receipts

  /** `transmit_receipt`: the frame is made durable before it is queued. */
  function QueueReceiptStep(s: State, id: Id, writeOk: bool): State {
    if id !in s.recs || !s.recs[id].st.Delivered? || !s.recs[id].receiptDue || !s.recs[id].previousHop
       || !writeOk then s
    else WithRec(s, id, s.recs[id].(pendingReceipt := true))
           .(receiptQueue := s.receiptQueue + {id}, queueing := Some(id))
  }

  /** Only then is the obligation cleared. */
  function ClearReceiptDueStep(s: State, writeOk: bool): State {
    if s.queueing.None? then s
    else
      var id, s2 := s.queueing.value, s.(queueing := None);
      if !writeOk || id !in s.recs then s2 else WithRec(s2, id, s.recs[id].(receiptDue := false))
  }

  /** `flush_receipts`: hand the frame to the control transport, then forget it.  A stopped transport
      takes nothing and says nothing. */
  function FlushReceiptStep(s: State, id: Id, stopped: bool, writeOk: bool): State {
    if id !in s.receiptQueue then s
    else
      var s2 := s.(receiptQueue := s.receiptQueue - {id},
                   transport := if stopped then s.transport else s.transport + multiset{id});
      if writeOk && id in s.recs then WithRec(s2, id, s.recs[id].(pendingReceipt := false)) else s2
  }

  /** The transport's worker keyed the radio for a receipt. */
  function ReceiptAiredStep(s: State, id: Id): State {
    if id in s.transport then s.(transport := s.transport - multiset{id}, aired := s.aired + {id}) else s
  }

  /** A worker ended without keying: no device, no transmitter, or cancelled. */
  function ReceiptDroppedStep(s: State, id: Id): State { s.(transport := s.transport - multiset{id}) }

  /** `stop` cancels what waits in the transport. */
  function TransportStopsStep(s: State): State { s.(transport := multiset{}) }

  // --------------------------------------------------------------------------------------- mailbox

  /** `_mail_delete_block_reason` for one message; `otherBusy` is any transfer of the station. */
  predicate DeleteBlocked(s: State, id: Id, otherBusy: bool) {
    || otherBusy || s.sessions != {}
    || id in s.preparing
    || (id in s.recs && s.recs[id].bridged
        && (Held(s.recs[id].st) || s.recs[id].receiptDue || s.recs[id].pendingReceipt))
  }

  function DeleteStep(s: State, id: Id, otherBusy: bool): State {
    if DeleteBlocked(s, id, otherBusy) then s else s.(recs := s.recs - {id})
  }

  /** Mail composed here or received over RF.  A message the server already knows keeps its record;
      only the way it came in is refreshed. */
  function StoreStep(s: State, id: Id, folder: Folder, own: bool, overRf: bool, ttl: int, writeOk: bool): State {
    if !writeOk then s
    else if id !in s.recs then
      WithRec(s, id, Rec(folder, own, NoState, false, false, 0, false, overRf, ttl, false))
    else
      var r := s.recs[id];
      var r2 := if r.st.NoState? then r.(folder := folder, own := own) else r;
      WithRec(s, id, if overRf then r2.(previousHop := true, ttl := ttl) else r2)
  }

  /** `import_server`: mail the server delivers to this station. */
  function ImportStep(s: State, id: Id, writeOk: bool): State {
    if !s.polling || !writeOk then s
    else if id in s.recs then WithRec(s, id, s.recs[id].(st := Received))
    else WithRec(s, id, Rec(Inbox, false, Received, false, false, 0, false, false, 0, false))
  }

  function PendingReceipts(recs: map<Id, Rec>): set<Id> {
    set id | id in recs && recs[id].pendingReceipt
  }

  /** Power loss and restart: pending receipts are loaded back into the queue. */
  function CrashStep(s: State): State {
    State(s.recs, false, None, false, {}, {}, {}, PendingReceipts(s.recs), None, multiset{}, s.aired)
  }

  /** Steps of the control thread; the others are the server worker's, the mailbox worker's and
      the power supply's. */
  predicate OnControlThread(e: Event) {
    e.ServerSend? || e.JobDone? || e.RfSend? || e.CompressDone? || e.SessionEnds? || e.PollStart? || e.PollDone?
    || e.Timeout? || e.Relay? || e.QueueReceipt? || e.FlushReceipt?
  }

  /** The control thread is one thread: between queueing a receipt and clearing its obligation it
      does nothing else. */
  function Apply(s: State, e: Event): State {
    if s.queueing.Some? && OnControlThread(e) then s else Effect(s, e)
  }

  function Effect(s: State, e: Event): State {
    match e
    case ServerSend(id, leave, env) => ServerSendStep(s, id, leave, env)
    case WorkerUpload(now, ok) => WorkerUploadStep(s, now, ok)
    case WorkerReply(reply, ok) => WorkerReplyStep(s, reply, ok)
    case WorkerPutError(definitive, ok) => WorkerPutErrorStep(s, definitive, ok)
    case WorkerFails => WorkerFailsStep(s)
    case JobDone(closed, ok, rf) => JobDoneStep(s, closed, ok, rf)
    case RfSend(id, rf) => RfSendStep(s, id, rf)
    case CompressDone(id) => CompressDoneStep(s, id)
    case SessionEnds(id) => SessionEndsStep(s, id)
    case PollStart => PollStartStep(s)
    case PollAnswer(id, reply, ok) => PollAnswerStep(s, id, reply, ok)
    case PollDone => PollDoneStep(s)
    case StatusWritten(id) => StatusWrittenStep(s, id)
    case Timeout(id, now) => TimeoutStep(s, id, now)
    case Relay(id, ttl, way, env) => RelayStep(s, id, ttl, way, env)
    case QueueReceipt(id, ok) => QueueReceiptStep(s, id, ok)
    case ClearReceiptDue(ok) => ClearReceiptDueStep(s, ok)
    case FlushReceipt(id, stopped, ok) => FlushReceiptStep(s, id, stopped, ok)
    case ReceiptAired(id) => ReceiptAiredStep(s, id)
    case ReceiptDropped(id) => ReceiptDroppedStep(s, id)
    case TransportStops => TransportStopsStep(s)
    case Store(id, folder, own, overRf, ttl, ok) => StoreStep(s, id, folder, own, overRf, ttl, ok)
    case Import(id, ok) => ImportStep(s, id, ok)
    case Delete(id, busy) => DeleteStep(s, id, busy)
    case Crash => CrashStep(s)
  }

  function Run(s: State, events: seq<Event>): State {
    if events == [] then s else Apply(Run(s, events[..|events| - 1]), events[|events| - 1])
  }

  // ---------------------------------------------------------------------------------------
  // Custody exclusion

  /** The message whose upload is queued or running. */
  predicate InFlight(s: State, id: Id) { s.job.Some? && s.job.value.id == id }

  ghost predicate Exclusive(s: State) {
    && (s.active <==> s.job.Some? || s.polling) && !(s.job.Some? && s.polling)
    && s.preparing == s.compressing + (if s.job.Some? then {s.job.value.id} else {})
    && (s.job.Some? ==> s.job.value.id in s.recs && s.job.value.id !in s.compressing)
    && (s.job.Some? && !s.job.value.phase.Finished? && s.job.value.id in s.recs
        ==> !s.recs[s.job.value.id].st.Accepted?)
  }

  lemma RfSendExclusive(s: State, id: Id, rf: RfEnv)
    requires Exclusive(s)
    ensures Exclusive(RfSendStep(s, id, rf))
  {
  }

  lemma ServerSendExclusive(s: State, id: Id, leave: bool, env: SendEnv)
    requires Exclusive(s)
    ensures Exclusive(ServerSendStep(s, id, leave, env))
  {
  }

  lemma JobDoneExclusive(s: State, closed: bool, writeOk: bool, rf: RfEnv)
    requires Exclusive(s)
    ensures Exclusive(JobDoneStep(s, closed, writeOk, rf))
  {
    if s.job.Some? && s.job.value.phase.Finished? {
      var j := s.job.value;
      assert Exclusive(Released(s));
      RfSendExclusive(Released(s), j.id, rf);
      if Returned(s) {
        assert Exclusive(WithRec(Released(s), j.id, s.recs[j.id].(st := RfFallback)));
        RfSendExclusive(WithRec(Released(s), j.id, s.recs[j.id].(st := RfFallback)), j.id, rf);
      }
    }
  }

  lemma RelayExclusive(s: State, id: Id, ttl: int, way: RelayEnv, env: SendEnv)
    requires Exclusive(s)
    ensures Exclusive(RelayStep(s, id, ttl, way, env))
  {
    hide ServerSendStep;
    if id in s.recs {
      var r2 := s.recs[id].(previousHop := true, ttl := ttl - 1);
      ServerSendExclusive(WithRec(s, id, r2), id, false, env);
      if !Held(r2.st) { ServerSendExclusive(WithRec(s, id, CheckedFor(r2, way)), id, false, env); }
    }
  }

  predicate OnWorker(e: Event) { e.WorkerUpload? || e.WorkerReply? || e.WorkerPutError? || e.WorkerFails? }

  lemma WorkerExclusive(s: State, e: Event)
    requires Exclusive(s) && OnWorker(e)
    ensures Exclusive(Effect(s, e))
  {
  }

  predicate OfReceipts(e: Event) {
    || e.StatusWritten? || e.QueueReceipt? || e.ClearReceiptDue?
    || e.FlushReceipt? || e.ReceiptAired? || e.ReceiptDropped? || e.TransportStops?
  }

  lemma ReceiptExclusive(s: State, e: Event)
    requires Exclusive(s) && OfReceipts(e)
    ensures Exclusive(Effect(s, e))
  {
  }

  lemma RestExclusive(s: State, e: Event)
    requires Exclusive(s) && !OnWorker(e) && !OfReceipts(e)
    requires !e.ServerSend? && !e.JobDone? && !e.RfSend? && !e.Relay?
    ensures Exclusive(Effect(s, e))
  {
  }

  lemma EffectExclusive(s: State, e: Event)
    requires Exclusive(s)
    ensures Exclusive(Effect(s, e))
  {
    hide ServerSendStep, RfSendStep, JobDoneStep, RelayStep, Exclusive;
    match e
    case ServerSend(id, leave, env) => ServerSendExclusive(s, id, leave, env);
    case JobDone(closed, ok, rf) => JobDoneExclusive(s, closed, ok, rf);
    case RfSend(id, rf) => RfSendExclusive(s, id, rf);
    case Relay(id, ttl, way, env) => RelayExclusive(s, id, ttl, way, env);
    case _ =>
      if OnWorker(e) {
        WorkerExclusive(s, e);
      } else if OfReceipts(e) {
        ReceiptExclusive(s, e);
      } else {
        RestExclusive(s, e);
      }
  }

  ghost predicate Initial(s: State) {
    !s.active && s.job.None? && !s.polling && s.preparing == s.compressing == s.sessions == {}
    && s.queueing.None? && s.receiptQueue == {} && s.transport == multiset{} && s.aired == {}
    && forall id :: id in s.recs ==> s.recs[id].st.NoState? && !s.recs[id].bridged && !s.recs[id].receiptDue
                                     && !s.recs[id].pendingReceipt
  }

  lemma {:induction false} RunExclusive(s: State, events: seq<Event>)
    requires Initial(s)
    ensures Exclusive(Run(s, events))
  {
    hide Effect;
    if events != [] {
      RunExclusive(s, events[..|events| - 1]);
      EffectExclusive(Run(s, events[..|events| - 1]), events[|events| - 1]);
    }
  }

  // ---------------------------------------------------------------------------------------
  // Announcements, and the one that custody does not see

  /** RF may have the message: the server neither holds nor has delivered it. */
  predicate Free(s: State, id: Id) { id in s.recs ==> !Held(s.recs[id].st) && !s.recs[id].st.Delivered? }

  /** An upload in flight beside a live RF session of the same message. */
  predicate Clash(s: State, id: Id) { InFlight(s, id) && id in s.sessions }

  /** A relay that the server path declines and no coordinator queues opens an outbound leg. */
  predicate OpensLeg(s: State, id: Id, ttl: int, way: RelayEnv) {
    && way.relaying && way.routed && ttl > 1 && id !in s.sessions
    && Declines(s, id, ttl, way) && (way.single || id !in s.recs)
  }

  predicate OpensUnchecked(s: State, e: Event, id: Id) {
    e.Relay? && e.id == id && s.queueing.None? && OpensLeg(s, id, e.ttl, e.way)
  }

  predicate Opens(s: State, e: Event, id: Id) { id !in s.sessions && id in Apply(s, e).sessions }

  /** Offering a message to the server touches its own record alone, and none whose session is live. */
  lemma ServerTouches(s: State, i: Id, leave: bool, env: SendEnv)
    ensures var t := ServerSendStep(s, i, leave, env);
            && t.sessions == s.sessions && t.recs.Keys == s.recs.Keys && t.compressing == s.compressing
            && (forall k :: k in s.recs && (k != i || i in s.sessions) ==> t.recs[k] == s.recs[k])
            && (t.job == s.job || (t.job.Some? && t.job.value.id == i && i !in s.sessions))
  {
  }

  /** So does taking a relayed message; declining one may open a leg and then changes nothing else. */
  lemma RelayTouches(s: State, i: Id, ttl: int, way: RelayEnv, env: SendEnv)
    ensures var t := RelayStep(s, i, ttl, way, env);
            && (if OpensLeg(s, i, ttl, way) then t == s.(sessions := s.sessions + {i}) else t.sessions == s.sessions)
            && t.recs.Keys == s.recs.Keys && (forall k :: k in s.recs && k != i ==> t.recs[k] == s.recs[k])
            && (t.job == s.job || (t.job.Some? && t.job.value.id == i && i !in s.sessions))
  {
    hide ServerSendStep;
    if i in s.recs {
      var r2 := s.recs[i].(previousHop := true, ttl := ttl - 1);
      ServerTouches(WithRec(s, i, r2), i, false, env);
      ServerTouches(WithRec(s, i, CheckedFor(r2, way)), i, false, env);
    }
  }

  /** A step that opens a session does so for a message that is neither held nor delivered in the durable
      record of that very moment, unless it is a declined relay of one that is. */
  lemma AnnouncesOnlyFree(s: State, e: Event, id: Id)
    requires Opens(s, e, id)
    ensures e.RfSend? || e.CompressDone? || e.JobDone? || OpensUnchecked(s, e, id)
    ensures !Free(Apply(s, e), id) <==> OpensUnchecked(s, e, id) && !Free(s, id)
  {
    assert Apply(s, e) == Effect(s, e) && (s.queueing.Some? ==> !OnControlThread(e));
    hide Apply, RfSendStep, RelayStep;
    match e
    case RfSend(i, rf) => RfOpensFree(s, i, rf, id);
    case JobDone(closed, ok, rf) => JobDoneOpensFree(s, closed, ok, rf, id);
    case CompressDone(i) =>
    case Relay(i, ttl, way, env) => RelayTouches(s, i, ttl, way, env);
    case _ => OthersOpenNone(s, e);
  }

  lemma RfOpensFree(s: State, i: Id, rf: RfEnv, id: Id)
    ensures var t := RfSendStep(s, i, rf); id in t.sessions && id !in s.sessions ==> Free(t, id)
  {
  }

  lemma JobDoneOpensFree(s: State, closed: bool, writeOk: bool, rf: RfEnv, id: Id)
    ensures var t := JobDoneStep(s, closed, writeOk, rf); id in t.sessions && id !in s.sessions ==> Free(t, id)
  {
    hide RfSendStep, Free;
    if s.job.Some? && s.job.value.phase.Finished? {
      var j := s.job.value;
      RfOpensFree(Released(s), j.id, rf, id);
      if Returned(s) {
        RfOpensFree(WithRec(Released(s), j.id, s.recs[j.id].(st := RfFallback)), j.id, rf, id);
      }
    }
  }

  lemma OthersOpenNone(s: State, e: Event)
    requires !e.RfSend? && !e.CompressDone? && !e.JobDone? && !e.Relay?
    ensures Effect(s, e).sessions <= s.sessions
  {
    hide ServerSendStep, Held;
    match e
    case ServerSend(i, leave, env) => ServerTouches(s, i, leave, env);
    case _ =>
  }

  /** Exactly a declined relay of a message whose upload is in flight puts the upload beside a session. */
  lemma ClashExactly(s: State, e: Event, id: Id)
    requires Exclusive(s) && !Clash(s, id)
    ensures Clash(Apply(s, e), id) <==> OpensUnchecked(s, e, id) && InFlight(s, id)
  {
    if s.queueing.None? || !OnControlThread(e) {
      match e
      case Relay(i, ttl, way, env) => RelayTouches(s, i, ttl, way, env); hide RelayStep;
      case ServerSend(i, leave, env) => ServerTouches(s, i, leave, env); hide ServerSendStep;
      case RfSend(i, rf) => RfNoClash(s, i, rf, id); hide RfSendStep;
      case JobDone(closed, ok, rf) => JobDoneNoClash(s, closed, ok, rf, id); hide JobDoneStep;
      case _ => OtherNoClash(s, e, id);
    }
    hide Effect, Declines;
  }

  lemma RfNoClash(s: State, i: Id, rf: RfEnv, id: Id)
    requires Exclusive(s) && !Clash(s, id)
    ensures !Clash(RfSendStep(s, i, rf), id)
  {
  }

  lemma JobDoneNoClash(s: State, closed: bool, writeOk: bool, rf: RfEnv, id: Id)
    requires Exclusive(s) && !Clash(s, id)
    ensures !Clash(JobDoneStep(s, closed, writeOk, rf), id)
  {
    hide Held;
  }

  lemma OtherNoClash(s: State, e: Event, id: Id)
    requires Exclusive(s) && !Clash(s, id)
    requires !e.Relay? && !e.ServerSend? && !e.RfSend? && !e.JobDone?
    ensures !Clash(Effect(s, e), id)
  {
    hide RelayStep, ServerSendStep, RfSendStep, JobDoneStep;
  }

  /** Custody exclusion: in every run, crashes included, a message with a server upload in flight is not
      being prepared for RF, and it is in a session of this station only after a declined relay opened one
      beside the upload. */
  lemma {:induction false} CustodyExclusion(s: State, events: seq<Event>, id: Id)
    requires Initial(s)
    ensures InFlight(Run(s, events), id) ==> id !in Run(s, events).compressing
    ensures Clash(Run(s, events), id) ==>
              exists i :: 0 <= i < |events| && OpensUnchecked(Run(s, events[..i]), events[i], id)
                          && InFlight(Run(s, events[..i]), id)
  {
    hide Effect, OpensUnchecked;
    RunExclusive(s, events);
    if events != [] {
      var n := |events| - 1;
      RunExclusive(s, events[..n]);
      CustodyExclusion(s, events[..n], id);
      if Clash(Run(s, events[..n]), id) {
        var i :| 0 <= i < n && OpensUnchecked(Run(s, events[..n][..i]), events[..n][i], id)
                 && InFlight(Run(s, events[..n][..i]), id);
        assert events[..n][..i] == events[..i];
      } else {
        ClashExactly(Run(s, events[..n]), events[n], id);
      }
    }
  }

  /** The `k`th step of a run respects a message's custody: it opens no session for it while it is held or
      delivered, and leaves no session of it beside an upload. */
  ghost predicate Respects(s: State, events: seq<Event>, id: Id, k: nat)
    requires k < |events|
  {
    var before, e := Run(s, events[..k]), events[k];
    !(Opens(before, e, id) && !Free(Apply(before, e), id)) && !Clash(Apply(before, e), id)
  }

  /** The `k`th step is a declined relay of a message that is held, delivered or in flight. */
  ghost predicate Evades(s: State, events: seq<Event>, id: Id, k: nat)
    requires k < |events|
  {
    var before := Run(s, events[..k]);
    OpensUnchecked(before, events[k], id) && (!Free(before, id) || InFlight(before, id))
  }

  /** Both promises hold throughout a run if and only if no step of it is such a relay. */
  lemma CustodyHoldsExactly(s: State, events: seq<Event>, id: Id)
    requires Initial(s)
    ensures (forall k: nat :: k < |events| ==> Respects(s, events, id, k)) <==>
            (forall k: nat :: k < |events| ==> !Evades(s, events, id, k))
  {
    forall k: nat | k < |events| ensures Evades(s, events, id, k) ==> !Respects(s, events, id, k) {
      EvadingBreaks(s, events, id, k);
    }
    if forall k: nat :: k < |events| ==> !Evades(s, events, id, k) {
      forall k: nat | k < |events| ensures Respects(s, events, id, k) {
        UnevadedRespects(s, events, id, k);
      }
    }
  }

  lemma EvadingBreaks(s: State, events: seq<Event>, id: Id, k: nat)
    requires k < |events|
    ensures Evades(s, events, id, k) ==> !Respects(s, events, id, k)
  {
    var before := Run(s, events[..k]);
    hide Run, Declines;
  }

  lemma {:induction false} UnevadedRespects(s: State, events: seq<Event>, id: Id, k: nat)
    requires Initial(s) && k < |events| && forall j: nat :: j <= k ==> !Evades(s, events, id, j)
    ensures Respects(s, events, id, k)
  {
    var before, e := Run(s, events[..k]), events[k];
    RunExclusive(s, events[..k]);
    assert !Clash(before, id) by {
      if k > 0 {
        UnevadedRespects(s, events, id, k - 1);
        assert events[..k][..k - 1] == events[..k - 1];
      }
    }
    assert !Evades(s, events, id, k);
    hide Run, OpensUnchecked, Effect;
    ClashExactly(before, e, id);
    if Opens(before, e, id) { AnnouncesOnlyFree(before, e, id); }
  }

  // ---------------------------------------------------------------------------------------
  // Release

  /** A message the server has accepted leaves that state only when the server says so, by a
      handoff answer or by delivering it here; no timeout, error or crash releases it. */
  lemma AcceptedReleasedByServerOnly(s: State, e: Event, id: Id)
    requires Exclusive(s) && id in s.recs && s.recs[id].st.Accepted?
    ensures id in Apply(s, e).recs && !Apply(s, e).recs[id].st.Accepted? ==>
              (e.PollAnswer? && e.id == id) || (e.Import? && e.id == id)
  {
    if Apply(s, e) == Effect(s, e) {
      match e
      case ServerSend(_, _, _) => SendsKeepAccepted(s, e, id);
      case Relay(_, _, _, _) => SendsKeepAccepted(s, e, id);
      case RfSend(_, _) => SendsKeepAccepted(s, e, id);
      case JobDone(_, _, _) => SendsKeepAccepted(s, e, id);
      case WorkerUpload(_, _) => WorkerKeepsAccepted(s, e, id);
      case WorkerReply(_, _) => WorkerKeepsAccepted(s, e, id);
      case WorkerPutError(_, _) => WorkerKeepsAccepted(s, e, id);
      case WorkerFails => WorkerKeepsAccepted(s, e, id);
      case _ => OthersKeepAccepted(s, e, id);
    }
    hide Effect, Exclusive;
  }

  lemma SendsKeepAccepted(s: State, e: Event, id: Id)
    requires id in s.recs && s.recs[id].st.Accepted? && (e.ServerSend? || e.Relay? || e.RfSend? || e.JobDone?)
    ensures id in Effect(s, e).recs && Effect(s, e).recs[id].st.Accepted?
  {
    hide ServerSendStep, RfSendStep, RelayStep, JobDoneStep;
    match e
    case JobDone(closed, ok, rf) => JobDoneKeepsAccepted(s, closed, ok, rf, id);
    case RfSend(i, rf) => RfKeepsRecords(s, i, rf);
    case ServerSend(i, leave, env) => ServerKeepsAccepted(s, i, leave, env, id);
    case Relay(i, ttl, way, env) => RelayKeepsAccepted(s, i, ttl, way, env, id);
  }

  lemma RelayKeepsAccepted(s: State, i: Id, ttl: int, way: RelayEnv, env: SendEnv, id: Id)
    requires id in s.recs && s.recs[id].st.Accepted?
    ensures var t := RelayStep(s, i, ttl, way, env); id in t.recs && t.recs[id].st.Accepted?
  {
    hide ServerSendStep;
    if i in s.recs {
      var r2 := s.recs[i].(previousHop := true, ttl := ttl - 1);
      ServerKeepsAccepted(WithRec(s, i, r2), i, false, env, id);
      if i != id {
        ServerKeepsAccepted(WithRec(s, i, CheckedFor(r2, way)), i, false, env, id);
      }
    }
  }

  lemma ServerKeepsAccepted(s: State, i: Id, leave: bool, env: SendEnv, id: Id)
    requires id in s.recs && s.recs[id].st.Accepted?
    ensures var t := ServerSendStep(s, i, leave, env); id in t.recs && t.recs[id].st.Accepted?
  {
  }

  lemma JobDoneKeepsAccepted(s: State, closed: bool, writeOk: bool, rf: RfEnv, id: Id)
    requires id in s.recs && s.recs[id].st.Accepted?
    ensures var t := JobDoneStep(s, closed, writeOk, rf); id in t.recs && t.recs[id].st.Accepted?
  {
    hide RfSendStep;
    forall t, i { RfKeepsRecords(t, i, rf); }
  }

  /** The worker never has a message in hand that the server has accepted already. */
  lemma WorkerKeepsAccepted(s: State, e: Event, id: Id)
    requires Exclusive(s) && id in s.recs && s.recs[id].st.Accepted?
    requires e.WorkerUpload? || e.WorkerReply? || e.WorkerPutError? || e.WorkerFails?
    ensures id in Effect(s, e).recs && Effect(s, e).recs[id].st.Accepted?
  {
  }

  lemma OthersKeepAccepted(s: State, e: Event, id: Id)
    requires id in s.recs && s.recs[id].st.Accepted?
    requires !e.ServerSend? && !e.Relay? && !e.RfSend? && !e.JobDone?
    requires !e.WorkerUpload? && !e.WorkerReply? && !e.WorkerPutError? && !e.WorkerFails?
    ensures id in Effect(s, e).recs && !Effect(s, e).recs[id].st.Accepted? ==>
              (e.PollAnswer? && e.id == id) || (e.Import? && e.id == id)
  {
    hide ServerSendStep, RelayStep, RfSendStep, JobDoneStep, WorkerUploadStep, WorkerReplyStep, WorkerPutErrorStep,
         WorkerFailsStep;
  }

  lemma RfKeepsRecords(s: State, id: Id, rf: RfEnv)
    ensures RfSendStep(s, id, rf).recs == s.recs
  {
  }

  // ---------------------------------------------------------------------------------------
  // The receipt obligation

  /** The relay owes its upstream station a receipt. */
  predicate Due(s: State, id: Id) { id in s.recs && s.recs[id].bridged && s.recs[id].st.Delivered? }

  /** The receipt is durably due or durably queued, or the transport has it, or it was on the air. */
  predicate Covered(s: State, id: Id)
    requires id in s.recs
  {
    s.recs[id].receiptDue || s.recs[id].pendingReceipt || id in s.transport || id in s.aired
  }

  /** A message that cannot become delivered without the control thread. */
  predicate Dormant(s: State, id: Id)
    requires id in s.recs
  {
    (s.recs[id].st.NoState? || s.recs[id].st.Received?) && !s.recs[id].hasKey && !InFlight(s, id)
  }

  predicate Owed(s: State, id: Id) {
    && (Due(s, id) ==> Covered(s, id))
    && (s.queueing == Some(id) && id in s.recs ==> s.recs[id].pendingReceipt || Dormant(s, id))
  }

  /** The steps that lose a receipt.  Its durable traces are gone, because the frame was handed over, and
      nothing was keyed: the station crashes, the transport stops or drops the frame, or the frame is
      handed to a transport that had stopped already. */
  predicate Loses(s: State, e: Event, id: Id) {
    && Due(s, id) && !s.recs[id].receiptDue && id !in s.aired
    && if s.recs[id].pendingReceipt then
         && e.FlushReceipt? && e.id == id && e.stopped && e.writeOk && id in s.receiptQueue
         && id !in s.transport && s.queueing.None?
       else e.Crash? || e.TransportStops? || (e.ReceiptDropped? && e.id == id && s.transport[id] == 1)
  }

  lemma EffectOwed(s: State, e: Event, i: Id)
    requires Exclusive(s) && Owed(s, i) && (s.queueing.Some? ==> !OnControlThread(e)) && !Loses(s, e, i)
    ensures Owed(Effect(s, e), i)
  {
    hide RfSendStep, ServerSendStep, Exclusive, Owed, WorkerUploadStep, WorkerReplyStep, WorkerPutErrorStep,
         JobDoneStep, PollAnswerStep, StoreStep, ImportStep, RelayStep, DeleteStep, Loses;
    match e
    case JobDone(closed, ok, rf) => JobDoneOwed(s, closed, ok, rf, i);
    case RfSend(id, rf) => RfSendOwed(s, id, rf, i);
    case ServerSend(id, leave, env) => ServerSendOwed(s, id, leave, env, i);
    case Relay(id, ttl, way, env) => RelayOwed(s, id, ttl, way, env, i);
    case Delete(id, busy) => DeleteOwed(s, id, busy, i);
    case WorkerUpload(now, ok) => WorkerOwed(s, e, i);
    case WorkerReply(reply, ok) => WorkerOwed(s, e, i);
    case WorkerPutError(definitive, ok) => WorkerOwed(s, e, i);
    case PollAnswer(id, answer, ok) => PollAnswerOwed(s, id, answer, ok, i);
    case Store(id, folder, own, overRf, ttl, ok) => StoreOwed(s, id, folder, own, overRf, ttl, ok, i);
    case Import(id, ok) => ImportOwed(s, id, ok, i);
    case FlushReceipt(_, _, _) => FlushOwed(s, e, i);
    case ReceiptAired(_) => TransportOwed(s, e, i);
    case ReceiptDropped(_) => TransportOwed(s, e, i);
    case TransportStops => TransportOwed(s, e, i);
    case Crash => TransportOwed(s, e, i);
    case _ => RestOwed(s, e, i);
  }

  lemma WorkerOwed(s: State, e: Event, i: Id)
    requires Owed(s, i) && (e.WorkerUpload? || e.WorkerReply? || e.WorkerPutError?)
    ensures Owed(Effect(s, e), i)
  {
  }

  lemma PollAnswerOwed(s: State, id: Id, answer: Option<ServerState>, ok: bool, i: Id)
    requires Owed(s, i)
    ensures Owed(PollAnswerStep(s, id, answer, ok), i)
  {
  }

  lemma StoreOwed(s: State, id: Id, folder: Folder, own: bool, overRf: bool, ttl: int, ok: bool, i: Id)
    requires Exclusive(s) && Owed(s, i)
    ensures Owed(StoreStep(s, id, folder, own, overRf, ttl, ok), i)
  {
    assert InFlight(s, id) ==> id in s.recs;
    hide Exclusive;
  }

  lemma ImportOwed(s: State, id: Id, ok: bool, i: Id)
    requires Exclusive(s) && Owed(s, i)
    ensures Owed(ImportStep(s, id, ok), i)
  {
    assert InFlight(s, id) ==> id in s.recs;
    hide Exclusive;
  }

  lemma FlushOwed(s: State, e: Event, i: Id)
    requires Owed(s, i) && !Loses(s, e, i) && s.queueing.None? && e.FlushReceipt?
    ensures Owed(Effect(s, e), i)
  {
  }

  /** What happens in the control transport, and the crash that empties it. */
  lemma TransportOwed(s: State, e: Event, i: Id)
    requires Owed(s, i) && !Loses(s, e, i)
    requires e.ReceiptAired? || e.ReceiptDropped? || e.TransportStops? || e.Crash?
    ensures Owed(Effect(s, e), i)
  {
  }

  /** Queueing receipts, timeouts and the volatile rest. */
  lemma RestOwed(s: State, e: Event, i: Id)
    requires Owed(s, i) && (s.queueing.Some? ==> !OnControlThread(e))
    requires e.WorkerFails? || e.StatusWritten? || e.CompressDone? || e.SessionEnds? || e.PollStart? || e.PollDone?
             || e.Timeout?
             || e.QueueReceipt? || e.ClearReceiptDue?
    ensures Owed(Effect(s, e), i)
  {
  }

  lemma RfSendOwed(s: State, id: Id, rf: RfEnv, i: Id)
    requires Owed(s, i) && s.queueing.None?
    ensures Owed(RfSendStep(s, id, rf), i)
  {
  }

  lemma ServerSendOwed(s: State, id: Id, leave: bool, env: SendEnv, i: Id)
    requires Owed(s, i) && s.queueing.None?
    ensures Owed(ServerSendStep(s, id, leave, env), i)
  {
  }

  lemma RelayOwed(s: State, id: Id, ttl: int, way: RelayEnv, env: SendEnv, i: Id)
    requires Owed(s, i) && s.queueing.None?
    ensures Owed(RelayStep(s, id, ttl, way, env), i)
  {
    hide ServerSendStep;
    if id in s.recs {
      var r2 := s.recs[id].(previousHop := true, ttl := ttl - 1);
      assert Owed(WithRec(s, id, r2), i);
      ServerSendOwed(WithRec(s, id, r2), id, false, env, i);
      assert Owed(WithRec(s, id, CheckedFor(r2, way)), i);
      ServerSendOwed(WithRec(s, id, CheckedFor(r2, way)), id, false, env, i);
    }
  }

  lemma JobDoneOwed(s: State, closed: bool, writeOk: bool, rf: RfEnv, i: Id)
    requires Owed(s, i) && s.queueing.None?
    ensures Owed(JobDoneStep(s, closed, writeOk, rf), i)
  {
    hide RfSendStep;
    if s.job.Some? && s.job.value.phase.Finished? {
      var j := s.job.value;
      assert Owed(Released(s), i);
      RfSendOwed(Released(s), j.id, rf, i);
      if Returned(s) {
        var t := WithRec(Released(s), j.id, s.recs[j.id].(st := RfFallback));
        assert Owed(t, i);
        RfSendOwed(t, j.id, rf, i);
      }
    }
  }

  lemma DeleteOwed(s: State, id: Id, busy: bool, i: Id)
    requires Owed(s, i)
    ensures Owed(DeleteStep(s, id, busy), i)
  {
  }

  /** Exactly when a step loses a receipt: no other crash, failed write, deletion or answer does. */
  lemma ReceiptLostExactly(s: State, e: Event, id: Id)
    requires Exclusive(s) && Owed(s, id)
    ensures var t := Apply(s, e); Due(t, id) && !Covered(t, id) <==> Loses(s, e, id)
  {
    hide Exclusive;
    if Loses(s, e, id) {
      LosesUncovers(s, e, id);
    } else if s.queueing.None? || !OnControlThread(e) {
      EffectOwed(s, e, id);
    }
    hide Effect, Loses;
  }

  lemma LosesUncovers(s: State, e: Event, id: Id)
    requires Loses(s, e, id)
    ensures var t := Apply(s, e); Due(t, id) && !Covered(t, id)
  {
  }

  /** Some step of the run lost the receipt of a message. */
  ghost predicate LostIn(s: State, events: seq<Event>, id: Id) {
    exists i :: 0 <= i < |events| && Loses(Run(s, events[..i]), events[i], id)
  }

  /** The receipt obligation: in every run, crashes, failed disk writes and attempted deletions included,
      each bridged message marked delivered has its receipt durably due, durably queued, in the transport
      or aired, unless an earlier step lost it in the one way `Loses` describes. */
  lemma {:induction false} ReceiptObligation(s: State, events: seq<Event>, id: Id)
    requires Initial(s)
    ensures Exclusive(Run(s, events)) && (Owed(Run(s, events), id) || LostIn(s, events, id))
  {
    hide Effect, Loses, Owed;
    RunExclusive(s, events);
    if events == [] {
      StartsOwed(s, id);
    } else {
      var n := |events| - 1;
      var before := Run(s, events[..n]);
      ReceiptObligation(s, events[..n], id);
      if LostIn(s, events[..n], id) {
        var i :| 0 <= i < n && Loses(Run(s, events[..n][..i]), events[..n][i], id);
        assert events[..n][..i] == events[..i];
      } else if !Loses(before, events[n], id) && (before.queueing.None? || !OnControlThread(events[n])) {
        EffectOwed(before, events[n], id);
      }
    }
  }

  lemma StartsOwed(s: State, id: Id)
    requires Initial(s)
    ensures Owed(s, id)
  {
  }

  /** A bridged, delivered message leaves the mailbox only when its receipt was aired, is in the transport,
      or was lost. */
  lemma DeletedOnlyAfterReceipt(s: State, events: seq<Event>, id: Id, otherBusy: bool)
    requires Initial(s) && Due(Run(s, events), id) && id !in DeleteStep(Run(s, events), id, otherBusy).recs
    ensures var t := Run(s, events); id in t.aired || id in t.transport || LostIn(s, events, id)
  {
    ReceiptObligation(s, events, id);
    hide Run, LostIn;
  }

  // ---------------------------------------------------------------------------------------
  // What the protocol does not exclude

  lemma RunAppend(s: State, events: seq<Event>, e: Event)
    ensures Run(s, events + [e]) == Apply(Run(s, events), e)
  {
    assert (events + [e])[..|events|] == events;
  }

  /** A frame handed to the transport and cleared from disk is lost by a crash before it is keyed. */
  lemma CrashBeforeAiring(s: State, id: Id)
    requires Due(s, id) && !s.recs[id].receiptDue && id in s.receiptQueue && id !in s.aired && s.queueing.None?
    ensures var t := Apply(Apply(s, FlushReceipt(id, false, true)), Crash);
            Due(t, id) && !Covered(t, id) && t.receiptQueue !! {id}
  {
  }

  /** A durable record that blocks RF, and a live RF session for the same message. */
  predicate Overlap(s: State, id: Id) { id in s.recs && Held(s.recs[id].st) && id in s.sessions }

  /** The routes into that.  While RF is sending a message, reconciliation reports after the fallback that
      the server holds it after all; or an upstream station relays it here once more, to another radio, and
      it is put back to checking; or the worker reports on an upload that a declined relay put beside the
      session.  And a declined relay opens a session for a message that is held. */
  predicate Overlaps(s: State, e: Event, id: Id) {
    && id in s.recs
    && var r := s.recs[id];
       if Held(r.st) then OpensUnchecked(s, e, id)
       else
         && id in s.sessions
         && (|| (&& e.PollAnswer? && e.id == id && e.writeOk && s.polling && r.hasKey && r.st.RfFallback?
                 && e.answer.Some? && Held(e.answer.value))
             || (&& e.Relay? && e.id == id && s.queueing.None? && e.way.relaying && !e.way.single
                 && !Declines(s, id, e.ttl, e.way) && e.way.pathOk && e.way.stateOk && !(r.bridged && r.st.Delivered?))
             || (Clash(s, id) && ReportsHeld(s.job.value.phase, e)))
  }

  /** The worker publishes a state in which the server holds the message. */
  predicate ReportsHeld(phase: Phase, e: Event) {
    || (e.WorkerUpload? && phase.Started? && e.writeOk)
    || (e.WorkerReply? && phase.Uploaded? && e.writeOk && Held(e.reply))
    || (e.WorkerPutError? && phase.Uploaded? && e.writeOk && !e.definitive)
  }

  /** Exactly these steps make a held record and a live session coincide. */
  lemma OverlapExactly(s: State, e: Event, id: Id)
    requires Exclusive(s) && !Overlap(s, id)
    ensures Overlap(Apply(s, e), id) <==> Overlaps(s, e, id)
  {
    if s.queueing.None? || !OnControlThread(e) {
      match e
      case Relay(_, _, _, _) => RelayOverlap(s, e, id);
      case JobDone(_, _, _) => JobDoneOverlap(s, e, id);
      case WorkerUpload(_, _) => WorkerOverlap(s, e, id);
      case WorkerReply(_, _) => WorkerOverlap(s, e, id);
      case WorkerPutError(_, _) => WorkerOverlap(s, e, id);
      case PollAnswer(_, _, _) => PollOverlap(s, e, id);
      case _ => OtherOverlap(s, e, id);
    }
    hide Effect, Exclusive, ReportsHeld, Declines;
  }

  lemma RelayOverlap(s: State, e: Event, id: Id)
    requires !Overlap(s, id) && e.Relay? && s.queueing.None?
    ensures Overlap(Effect(s, e), id) <==> Overlaps(s, e, id)
  {
    RelayTouches(s, e.id, e.ttl, e.way, e.env);
    if e.id == id && id in s.recs && !OpensLeg(s, id, e.ttl, e.way) {
      if !e.way.relaying || (e.way.single && Live(s, id)) || Declines(s, id, e.ttl, e.way) {
        UntakenKeeps(s, id, e.ttl, e.way, e.env);
      } else {
        TakenOverlap(s, id, e.ttl, e.way, e.env);
      }
    }
    hide RelayStep, Declines;
  }

  lemma UntakenKeeps(s: State, id: Id, ttl: int, way: RelayEnv, env: SendEnv)
    requires id in s.recs
    requires !way.relaying || (way.single && Live(s, id)) || Declines(s, id, ttl, way)
    ensures id in RelayStep(s, id, ttl, way, env).recs && RelayStep(s, id, ttl, way, env).recs[id].st == s.recs[id].st
  {
    hide Declines, AcceptRelayStep;
  }

  lemma TakenOverlap(s: State, id: Id, ttl: int, way: RelayEnv, env: SendEnv)
    requires id in s.recs && way.relaying && !(way.single && Live(s, id)) && !Declines(s, id, ttl, way)
    requires !Overlap(s, id)
    ensures Overlap(RelayStep(s, id, ttl, way, env), id) <==>
            id in s.sessions && way.pathOk && way.stateOk && !(s.recs[id].bridged && s.recs[id].st.Delivered?)
  {
    hide ServerSendStep;
    var r2 := s.recs[id].(previousHop := true, ttl := ttl - 1);
    ServerTouches(WithRec(s, id, r2), id, false, env);
    ServerTouches(WithRec(s, id, CheckedFor(r2, way)), id, false, env);
  }

  lemma JobDoneOverlap(s: State, e: Event, id: Id)
    requires !Overlap(s, id) && e.JobDone?
    ensures !Overlap(Effect(s, e), id)
  {
  }

  lemma WorkerOverlap(s: State, e: Event, id: Id)
    requires Exclusive(s) && !Overlap(s, id) && (e.WorkerUpload? || e.WorkerReply? || e.WorkerPutError?)
    ensures Overlap(Effect(s, e), id) <==> Overlaps(s, e, id)
  {
  }

  lemma PollOverlap(s: State, e: Event, id: Id)
    requires !Overlap(s, id) && e.PollAnswer?
    ensures Overlap(Effect(s, e), id) <==> Overlaps(s, e, id)
  {
  }

  lemma OtherOverlap(s: State, e: Event, id: Id)
    requires !Overlap(s, id) && !e.Relay? && !e.JobDone? && !e.PollAnswer?
    requires !e.WorkerUpload? && !e.WorkerReply? && !e.WorkerPutError?
    ensures !Overlap(Effect(s, e), id) && !Overlaps(s, e, id)
  {
    if e.RfSend? {
      RfOpensFree(s, e.id, e.rf, id);
      RfKeepsRecords(s, e.id, e.rf);
    } else if e.CompressDone? {
      CompressOverlap(s, e.id, id);
    } else {
      OthersOpenNone(s, e);
      NothingNewHeld(s, e, id);
    }
    hide Effect, RfSendStep, CompressDoneStep, Held;
  }

  lemma CompressOverlap(s: State, i: Id, id: Id)
    requires !Overlap(s, id)
    ensures !Overlap(CompressDoneStep(s, i), id)
  {
  }

  lemma NothingNewHeld(s: State, e: Event, id: Id)
    requires !e.Relay? && !e.JobDone? && !e.PollAnswer? && !e.RfSend? && !e.CompressDone?
    requires !e.WorkerUpload? && !e.WorkerReply? && !e.WorkerPutError?
    ensures var t := Effect(s, e);
            id in t.recs && Held(t.recs[id].st) && id in s.sessions ==> id in s.recs && Held(s.recs[id].st)
  {
    hide RelayStep, JobDoneStep, WorkerUploadStep, WorkerReplyStep, WorkerPutErrorStep, PollAnswerStep, RfSendStep,
         ServerSendStep, CompressDoneStep, DeleteBlocked;
    if e.ServerSend? { ServerTouches(s, e.id, e.leave, e.env); }
  }

  /** In every run a message is held while its session is live only after one of these routes was
      taken. */
  lemma {:induction false} HeldWhileLive(s: State, events: seq<Event>, id: Id)
    requires Initial(s) && Overlap(Run(s, events), id)
    ensures exists i :: 0 <= i < |events| && Overlaps(Run(s, events[..i]), events[i], id)
  {
    hide Effect, Overlaps;
    RunExclusive(s, events);
    assert events != [];
    var n := |events| - 1;
    var before := Run(s, events[..n]);
    RunExclusive(s, events[..n]);
    if Overlap(before, id) {
      HeldWhileLive(s, events[..n], id);
      var i :| 0 <= i < n && Overlaps(Run(s, events[..n][..i]), events[..n][i], id);
      assert events[..n][..i] == events[..i];
    } else {
      OverlapExactly(before, events[n], id);
    }
  }

  /** The first route does occur: a fallback, a session, and then the server's acceptance. */
  lemma FallbackMayOverlapAcceptance() returns (s: State, events: seq<Event>)
    ensures Initial(s)
    ensures var t := Run(s, events); Overlap(t, 0) && t.recs[0].st.Accepted?
  {
    hide Run;
    var up := OUTGOING.(st := RfFallback, hasKey := true);
    var polling := Idle(up).(sessions := {0}, active := true, polling := true);
    s := Idle(OUTGOING);
    events := SendingAfterFallback();
    events := Extend(s, events, Idle(up).(sessions := {0}), PollStart, polling);
    events := Extend(s, events, polling, PollAnswer(0, Some(Accepted), true), WithRec(polling, 0, up.(st := Accepted)));
  }

  /** After 90 seconds of silence RF sends the message. */
  lemma SendingAfterFallback() returns (events: seq<Event>)
    ensures Run(Idle(OUTGOING), events) == Idle(OUTGOING.(st := RfFallback, hasKey := true)).(sessions := {0})
  {
    hide Run;
    var fallen := Idle(OUTGOING.(st := RfFallback, hasKey := true));
    events := SilentServer();
    events := Extend(Idle(OUTGOING), events, Idle(OUTGOING.(st := Unknown, hasKey := true)), Timeout(0, 90), fallen);
    events := Extend(Idle(OUTGOING), events, fallen, RfSend(0, RfEnv(true, true, true, false, true)),
                     fallen.(sessions := {0}));
  }

  /** An upload that the server never answers. */
  lemma SilentServer() returns (events: seq<Event>)
    ensures Run(Idle(OUTGOING), events) == Idle(OUTGOING.(st := Unknown, hasKey := true))
  {
    hide Run;
    var s, up := Idle(OUTGOING), OUTGOING.(st := Uploading, hasKey := true);
    var silent := Busy(up.(st := Unknown), Job(0, false, false, Finished(true)));
    RunEmpty(s);
    events := Extend(s, [], s, ServerSend(0, false, WILLING), Busy(OUTGOING, Job(0, false, false, Started)));
    events := Extend(s, events, Busy(OUTGOING, Job(0, false, false, Started)), WorkerUpload(0, true),
                     Busy(up, Job(0, false, false, Uploaded)));
    events := Extend(s, events, Busy(up, Job(0, false, false, Uploaded)), WorkerPutError(false, true), silent);
    events := Extend(s, events, silent, JobDone(false, true, RfEnv(true, true, true, false, true)),
                     Idle(up.(st := Unknown)));
  }

  /** A message composed here. */
  const OUTGOING := Rec(Outbox, true, NoState, false, false, 0, false, false, 5, false)

  /** So does the second, without any timeout or poll: a relayed message in its session on one radio is
      relayed here again, to the other. */
  lemma RelayMayOverlapSession() returns (s: State, events: seq<Event>)
    ensures Initial(s)
    ensures var t := Run(s, events); Overlap(t, 0) && t.recs[0].st.Checking?
  {
    hide Run;
    var rf, way := RfEnv(true, true, true, false, true), RelayEnv(true, true, false, true, 0, true, true);
    s := Idle(IN_TRANSIT);
    RunEmpty(s);
    events := Extend(s, [], s, RfSend(0, rf), s.(sessions := {0}));
    events := Extend(s, events, s.(sessions := {0}), Relay(0, 5, way, WILLING),
                     Idle(IN_TRANSIT.(st := Checking, bridged := true, ttl := 4)).(sessions := {0}));
  }

  /** And so does the declined relay, on one radio: a transit message is being uploaded, the server path is
      switched off, and the message is relayed here again.  RF announces it beside the upload. */
  lemma DeclinedRelayMayClash() returns (s: State, events: seq<Event>)
    ensures Initial(s)
    ensures var t := Run(s, events); Clash(t, 0) && Overlap(t, 0) && t.recs[0].st.Uploading?
  {
    hide Run;
    var taken := RelayEnv(true, true, true, true, 0, true, true);
    var declined := taken.(allowed := false);
    var r := IN_TRANSIT.(st := Checking, bridged := true, ttl := 4);
    var up := r.(st := Uploading, hasKey := true);
    var uploading := Busy(up, Job(0, false, true, Uploaded));
    s := Idle(IN_TRANSIT);
    RunEmpty(s);
    events := Extend(s, [], s, Relay(0, 5, taken, WILLING), Busy(r, Job(0, false, true, Started)));
    events := Extend(s, events, Busy(r, Job(0, false, true, Started)), WorkerUpload(0, true), uploading);
    events := Extend(s, events, uploading, Relay(0, 5, declined, WILLING), uploading.(sessions := {0}));
  }

  /** A server path with nothing in its way. */
  const WILLING := SendEnv(true, true, true, false, true, true, 0)

  /** A message relayed here that the server knows nothing of. */
  const IN_TRANSIT := Rec(Transit, false, NoState, false, false, 0, false, true, 5, false)

  /** A station with message 0 alone, doing nothing. */
  function Idle(r: Rec): State { State(map[0 := r], false, None, false, {}, {}, {}, {}, None, multiset{}, {}) }

  function Busy(r: Rec, j: Job): State { Idle(r).(active := true, job := Some(j), preparing := {0}) }

  lemma Extend(s: State, events: seq<Event>, t: State, e: Event, t': State) returns (longer: seq<Event>)
    requires Run(s, events) == t && Apply(t, e) == t'
    ensures Run(s, longer) == t'
  {
    longer := events + [e];
    RunAppend(s, events, e);
  }

  lemma RunEmpty(s: State)
    ensures Run(s, []) == s
  {
  }
}

/** The custody code in the form the station runs it: one object whose methods update the durable
    records and the volatile bookkeeping, each proved to be steps of the custody protocol. */
module CustodyService {
  import opened Wrappers
  import opened CustodyProtocol

  class Station {
    var recs: map<Id, Rec>
    var active: bool
    var job: Option<Job>
    var polling: bool
    var preparing: set<Id>
    var compressing: set<Id>
    var sessions: set<Id>
    var receiptQueue: set<Id>
    var queueing: Option<Id>
    ghost var transport: multiset<Id>
    ghost var aired: set<Id>

    ghost function View(): State
      reads this
    {
      State(recs, active, job, polling, preparing, compressing, sessions, receiptQueue, queueing, transport, aired)
    }

    /** A station started on a mailbox: volatile state is empty, durable receipts are reloaded. */
    constructor Restart(durable: map<Id, Rec>, ghost sent: set<Id>)
      ensures View() == CrashStep(View().(recs := durable, aired := sent))
    {
      recs, active, job, polling := durable, false, None, false;
      preparing, compressing, sessions := {}, {}, {};
      receiptQueue, queueing := PendingReceipts(durable), None;
      transport, aired := multiset{}, sent;
    }

    /** `ArdosService.send`: `None` leaves the message to RF policy, `Some(true)` means the server
        has or will have it, `Some(false)` refuses for now. */
    method Send(id: Id, leave: bool, env: SendEnv) returns (handled: Option<bool>)
      requires queueing.None?
      modifies this
      ensures View() == Apply(old(View()), ServerSend(id, leave, env))
      ensures handled.None? ==> View() == old(View())
      ensures handled == Some(true) ==> (id in recs && Held(recs[id].st)) || InFlight(View(), id)
      ensures handled != Some(true) ==> job == old(job)
    {
      SendIsStep(View(), id, leave, env);
      hide Apply, Effect;
      if id !in recs {
        return if leave || (env.enabled && env.serverFirst && !active && !env.lockFree) then Some(false) else None;
      }
      var blocked, answer := CheckSend(id, leave, env);
      if blocked { return answer; }
      hide SendBlocked;
      var r := recs[id];
      var bridge := r.folder.Transit?;
      if bridge && !r.st.Checking? {
        recs := recs[id := r.(st := Checking, bridged := true, attemptedAt := env.now)];
      }
      preparing := preparing + {id};
      active := true;
      if !env.submitOk {
        active := false;
        preparing := preparing - {id};
        return Some(false);
      }
      job := Some(Job(id, leave, bridge, Started));
      handled := Some(true);
    }

    /** The guards at the beginning of `send`, in their order, and what each of them answers. */
    method CheckSend(id: Id, leave: bool, env: SendEnv) returns (blocked: bool, answer: Option<bool>)
      requires id in recs
      ensures blocked <==> SendBlocked(View(), id, leave, env)
      ensures blocked && answer == Some(true) <==> Held(recs[id].st) && !recs[id].st.Checking?
    {
      var r := recs[id];
      var bridge := r.folder.Transit?;
      if Held(r.st) && !r.st.Checking? { return true, Some(true); }
      if !leave && r.st.RfFallback? { return true, None; }
      if !env.enabled { return true, if leave then Some(false) else None; }
      if !leave && !env.serverFirst { return true, None; }
      if active { return true, if leave || bridge then Some(false) else None; }
      if !env.lockFree { return true, Some(false); }
      if !bridge && (!r.folder.Outbox? || !r.own) { return true, if leave then Some(false) else None; }
      if bridge && (!r.previousHop || r.ttl < 1) { return true, Some(false); }
      if !bridge && !leave && env.manualRoute { return true, None; }
      if id in preparing || id in sessions { return true, Some(false); }
      if !env.clientOk { return true, if leave then Some(false) else None; }
      blocked, answer := false, None;
    }

    /** `_announce_prepared_mail`: recheck durable custody, then open the session. */
    method AnnouncePrepared(id: Id)
      modifies this
      ensures View() == Announce(old(View()), id)
    {
      if id in recs && (Held(recs[id].st) || recs[id].st.Delivered?) { return; }
      sessions := sessions + {id};
    }

    /** `send_queued` with the server already asked. */
    method SendQueued(id: Id, rf: RfEnv) returns (accepted: bool)
      requires queueing.None?
      modifies this
      ensures View() == Apply(old(View()), RfSend(id, rf))
      ensures accepted ==> old(id in recs && !Held(recs[id].st) && id !in preparing && id !in sessions)
    {
      RfSendIsStep(View(), id, rf);
      hide Apply, Effect;
      var blocked := CheckRf(id, rf);
      if blocked { return false; }
      hide RfBlocked;
      preparing := preparing + {id};
      if rf.compress {
        if !rf.queued {
          preparing := preparing - {id};
          return false;
        }
        compressing := compressing + {id};
        return true;
      }
      AnnouncePrepared(id);
      preparing := preparing - {id};
      accepted := true;
    }

    /** The guards of `send_queued`, in their order. */
    method CheckRf(id: Id, rf: RfEnv) returns (blocked: bool)
      ensures blocked <==> RfBlocked(View(), id, rf)
      ensures !blocked ==> id in recs && !Held(recs[id].st) && id !in preparing && id !in sessions
    {
      if id in recs && Held(recs[id].st) { return true; }
      if !rf.transportReady { return true; }
      if !rf.lockFree { return true; }
      if id in preparing || id in sessions { return true; }
      if id !in recs { return true; }
      if recs[id].folder.Transit? && recs[id].ttl < 1 { return true; }
      blocked := !rf.qsyOk;
    }

    /** The completion of a compression job. */
    method Compressed(id: Id)
      requires queueing.None? && id in compressing
      modifies this
      ensures View() == Apply(old(View()), CompressDone(id))
    {
      AnnouncePrepared(id);
      preparing := preparing - {id};
      compressing := compressing - {id};
    }

    /** The first half of `done`: the message is released. */
    method ReleaseJob() returns (j: Job)
      requires job.Some? && job.value.phase.Finished?
      modifies this
      ensures j == old(job).value && View() == Released(old(View()))
    {
      j := job.value;
      preparing := preparing - {j.id};
      active := false;
      job := None;
    }

    /** `done`: the completion of an upload job.  If the mark that a bridged message fell back cannot be
        written, the callback ends there. */
    method Done(closed: bool, writeOk: bool, rf: RfEnv) returns (ok: bool)
      requires queueing.None? && job.Some? && job.value.phase.Finished?
      modifies this
      ensures View() == Apply(old(View()), JobDone(closed, writeOk, rf))
      ensures !ok ==> !writeOk && recs == old(recs) && sessions == old(sessions)
    {
      JobDoneIsStep(View(), closed, writeOk, rf);
      assert Released(View()).queueing.None? && Released(View()).recs == recs && Released(View()).sessions == sessions;
      hide Apply, Effect, RfSendStep, Released;
      var j := ReleaseJob();
      if j.phase.error && j.bridge && j.id in recs && (recs[j.id].st.Checking? || recs[j.id].st.Rejected?) {
        if !writeOk { return false; }
        recs := recs[j.id := recs[j.id].(st := RfFallback)];
      }
      if j.phase.error && !j.leave && !closed && !(j.id in recs && Held(recs[j.id].st)) {
        RfSendIsStep(View(), j.id, rf);
        var accepted := SendQueued(j.id, rf);
      }
      ok := true;
    }

    /** `_publish_receipt`, its durable server half. */
    method PublishReceipt(id: Id, reply: ServerState)
      requires id in recs
      modifies this`recs
      ensures recs == old(recs)[id := Publish(old(recs)[id], reply)]
    {
      var r := recs[id];
      if r.bridged && reply.Delivered? && !r.st.Delivered? {
        r := r.(receiptDue := true);
      }
      recs := recs[id := r.(st := reply)];
    }

    /** One handoff of `_poll`: the server's answer, or its 404.  A write that fails ends the poll with the
        record as it was. */
    method Reconcile(id: Id, answer: Option<ServerState>, writeOk: bool) returns (ok: bool)
      requires polling
      modifies this
      ensures View() == Apply(old(View()), PollAnswer(id, answer, writeOk))
      ensures !ok ==> !writeOk
    {
      if id !in recs || !recs[id].hasKey || !(Held(recs[id].st) || recs[id].st.RfFallback?) { return true; }
      if !writeOk { return false; }
      match answer {
        case None =>
          recs := recs[id := recs[id].(st := if recs[id].bridged then RfFallback else NotAccepted)];
        case Some(reply) =>
          PublishReceipt(id, reply);
      }
      ok := true;
    }

    /** The timeout part of `tick`: every message past its 90 seconds falls back to RF.  `bad` are the
        messages whose record cannot be written; the first of them ends the tick, with the records in
        `left` as they were. */
    method TickTimeouts(now: int, bad: set<Id>) returns (ok: bool, ghost left: set<Id>, ghost events: seq<Event>)
      requires queueing.None? && !active
      modifies this`recs
      ensures View() == Run(old(View()), events)
      ensures Ticked(old(recs), recs, left, now)
      ensures if ok then left == {} else left * bad != {}
    {
      hide Apply, Expire;
      var todo := recs.Keys;
      events := [];
      while todo != {}
        invariant Ticked(old(recs), recs, todo, now)
        invariant View() == Run(old(View()), events)
        decreases todo
      {
        hide Ticked;
        var id :| id in todo;
        ghost var before := View();
        OneTicked(old(recs), recs, todo, id, now);
        ExpireIs(recs[id], now);
        if Overdue(recs[id], now) {
          if id in bad {
            assert id in todo * bad;
            return false, todo, events;
          }
          recs := recs[id := recs[id].(st := RfFallback)];
        }
        TimeoutIsStep(before, id, now);
        RunAppend(old(View()), events, Timeout(id, now));
        events := events + [Timeout(id, now)];
        todo := todo - {id};
      }
      ok, left := true, {};
    }

    /** `accept_relay` of the server path: `Ok(false)` declines, and an error is a write that failed. */
    method AcceptRelay(id: Id, ttl: int, way: RelayEnv, env: SendEnv) returns (r: Result<bool>)
      requires queueing.None?
      modifies this
      ensures r == Ok(false) <==> Declines(old(View()), id, ttl, way)
      ensures r == Ok(false) ==> View() == old(View())
      ensures r != Ok(false) ==> View() == AcceptRelayStep(old(View()), id, ttl, way, env)
    {
      if !way.allowed || id !in recs { return Ok(false); }
      var done := recs[id].bridged && recs[id].st.Delivered?;
      if !done && (!recs[id].folder.Transit? || ttl <= 1) { return Ok(false); }
      hide ServerSendStep;
      if !done {
        r := TakeRelay(id, ttl, way, env);
      } else if way.stateOk {
        recs := recs[id := recs[id].(receiptDue := true)];
        r := Ok(true);
      } else {
        r := Err("index not saved");
      }
    }

    /** The custody half of it: the next leg's data, the durable state, and the offer to the server. */
    method TakeRelay(id: Id, ttl: int, way: RelayEnv, env: SendEnv) returns (r: Result<bool>)
      requires queueing.None? && !Declines(View(), id, ttl, way) && !(recs[id].bridged && recs[id].st.Delivered?)
      modifies this
      ensures r != Ok(false) && View() == AcceptRelayStep(old(View()), id, ttl, way, env)
    {
      hide ServerSendStep;
      if !way.pathOk { return Err("index not saved"); }
      var r2 := recs[id].(previousHop := true, ttl := ttl - 1);
      var held := Held(r2.st);
      ghost var before := View();
      recs := recs[id := r2];
      if !held && !way.stateOk { return Err("index not saved"); }
      if !held {
        recs := recs[id := CheckedFor(r2, way)];
      }
      assert View() == WithRec(before, id, if held then r2 else CheckedFor(r2, way));
      SendIsStep(View(), id, false, env);
      var handled := Send(id, false, env);
      r := Ok(true);
    }

    /** `accept_relay` of the coordinator: a stored message waits in the queue of all radios. */
    method QueueRelay(id: Id, ttl: int, pathOk: bool) returns (r: Result<bool>)
      modifies this`recs
      ensures r == Ok(false) <==> id !in old(recs)
      ensures recs == if id in old(recs) && pathOk then
                        old(recs)[id := old(recs)[id].(previousHop := true, ttl := ttl - 1)]
                      else old(recs)
    {
      if id !in recs { return Ok(false); }
      if !pathOk { return Err("index not saved"); }
      recs := recs[id := recs[id].(previousHop := true, ttl := ttl - 1)];
      r := Ok(true);
    }

    /** `_relay_handoff`: the server path first, then the coordinator of several radios. */
    method RelayHandoff(id: Id, ttl: int, way: RelayEnv, env: SendEnv) returns (r: Result<bool>)
      requires queueing.None?
      modifies this
      ensures var s := old(View());
              if !Declines(s, id, ttl, way) then r != Ok(false) && View() == AcceptRelayStep(s, id, ttl, way, env)
              else if way.single || id !in s.recs then r == Ok(false) && View() == s
              else r != Ok(false) && View() == DeclinedStep(s, id, ttl, way)
    {
      hide AcceptRelayStep, Declines;
      r := AcceptRelay(id, ttl, way, env);
      if r == Ok(false) && !way.single {
        r := QueueRelay(id, ttl, way.pathOk);
      }
    }

    /** `_maybe_relay`: if nobody takes the message, its outbound leg is opened, whatever its custody. */
    method MaybeRelay(id: Id, ttl: int, way: RelayEnv, env: SendEnv) returns (leg: bool)
      requires queueing.None?
      modifies this
      ensures View() == Apply(old(View()), Relay(id, ttl, way, env))
      ensures leg ==> id in sessions
      ensures id !in old(sessions) ==> (leg <==> OpensLeg(old(View()), id, ttl, way))
    {
      RelayIsStep(View(), id, ttl, way, env);
      leg := false;
      if !way.relaying || (way.single && id in sessions) { return; }
      hide Apply, Effect, AcceptRelayStep, Declines;
      var r := RelayHandoff(id, ttl, way, env);
      if r == Ok(false) && ttl > 1 && way.routed {
        sessions := sessions + {id};
        leg := true;
      }
    }

    /** `transmit_receipt`: the frame is durable before it is queued. */
    method TransmitReceipt(id: Id)
      requires id in recs
      modifies this`recs, this`receiptQueue
      ensures recs == old(recs)[id := old(recs)[id].(pendingReceipt := true)]
      ensures receiptQueue == old(receiptQueue) + {id}
    {
      recs := recs[id := recs[id].(pendingReceipt := true)];
      if id !in receiptQueue {
        receiptQueue := receiptQueue + {id};
      }
    }

    /** The three durable writes for one due receipt, in their order; only the first `writes` of them
        succeed. */
    method QueueOneReceipt(id: Id, writes: nat) returns (ok: bool, ghost events: seq<Event>)
      requires queueing.None? && id in recs && DueNow(recs[id])
      modifies this`recs, this`receiptQueue, this`queueing
      ensures ok <==> writes >= 3
      ensures View() == Run(old(View()), events) == Queued(old(View()), id, writes)
    {
      events := ReceiptEvents(id, writes);
      ReceiptSteps(View(), id, writes);
      QueuedIs(View(), id, writes);
      hide Apply, Run, ReceiptEvents, DueNow, Queued, AfterReceipt;
      ok := writes > 2;
      if writes > 0 {
        WriteReceipt(id, writes);
      }
    }

    method WriteReceipt(id: Id, writes: nat)
      requires queueing.None? && id in recs && writes > 0
      modifies this`recs, this`receiptQueue, this`queueing
      ensures queueing.None? && receiptQueue == old(receiptQueue) + {id}
      ensures recs == old(recs)[id := AfterReceipt(old(recs)[id], writes)]
    {
      TransmitReceipt(id);
      queueing := Some(id);
      if writes > 1 {
        recs := recs[id := recs[id].(folder := Sent)];
      }
      if writes > 2 {
        recs := recs[id := recs[id].(receiptDue := false)];
      }
      queueing := None;
    }

    /** `_queue_rf_receipts`: queue every receipt that is due, then clear its flag.  `writes` says how many
        of a message's three writes succeed if not all do; the first failure ends the pass. */
    method QueueRfReceipts(writes: map<Id, nat>) returns (ok: bool, ghost events: seq<Event>)
      requires queueing.None?
      modifies this`recs, this`receiptQueue, this`queueing
      ensures queueing.None? && View() == Run(old(View()), events)
      ensures recs.Keys == old(recs).Keys
      ensures !ok ==> exists id :: id in writes && id in recs && writes[id] < 3 && DueNow(old(recs)[id])
      ensures ok ==> forall id :: id in recs ==> recs[id] == AfterReceipts(old(recs)[id])
      ensures ok ==> receiptQueue == old(receiptQueue) + (set id | id in old(recs) && DueNow(old(recs)[id]))
    {
      hide Apply, ReceiptsDone, Queued;
      var todo := recs.Keys;
      events := [];
      NoReceiptsDone(recs, receiptQueue);
      while todo != {}
        invariant todo <= recs.Keys == old(recs).Keys && queueing.None?
        invariant ReceiptsDone(old(recs), old(receiptQueue), recs, receiptQueue, todo)
        invariant View() == Run(old(View()), events)
        decreases todo
      {
        var id :| id in todo;
        OneReceiptDone(old(recs), old(receiptQueue), recs, receiptQueue, todo, id);
        if recs[id].st.Delivered? && recs[id].receiptDue && recs[id].previousHop {
          ghost var before := View();
          var succeed := if id in writes then writes[id] else 3;
          ghost var more;
          QueuedAll(before, id, succeed);
          ok, more := QueueOneReceipt(id, succeed);
          RunConcat(old(View()), events, more);
          events := events + more;
          if !ok { return; }
        }
        todo := todo - {id};
      }
      AllReceiptsDone(old(recs), old(receiptQueue), recs, receiptQueue);
      ok := true;
    }

    /** One receipt of `flush_receipts`: handed over, taken off the queue, and forgotten on disk. */
    method FlushOne(id: Id, stopped: bool, writeOk: bool)
      requires queueing.None? && id in receiptQueue
      modifies this`recs, this`receiptQueue, this`transport
      ensures View() == Apply(old(View()), FlushReceipt(id, stopped, writeOk))
      ensures receiptQueue == old(receiptQueue) - {id}
      ensures recs == if writeOk && id in old(recs) then old(recs)[id := old(recs)[id].(pendingReceipt := false)]
                      else old(recs)
    {
      FlushIsStep(View(), id, stopped, writeOk);
      hide Apply;
      if !stopped {
        transport := transport + multiset{id};
      }
      receiptQueue := receiptQueue - {id};
      if writeOk && id in recs {
        recs := recs[id := recs[id].(pendingReceipt := false)];
      }
    }

    /** `flush_receipts`: `ready` are the receipts whose radio can transmit now, `stopped` those whose
        transport has stopped, `bad` those whose record cannot be written; the first of these ends the
        pass. */
    method FlushReceipts(ready: set<Id>, stopped: set<Id>, bad: set<Id>)
      returns (ok: bool, ghost left: set<Id>, ghost events: seq<Event>)
      requires queueing.None?
      modifies this`recs, this`receiptQueue, this`transport
      ensures View() == Run(old(View()), events)
      ensures receiptQueue == old(receiptQueue) - (ready - left)
      ensures recs == Forgotten(old(recs), old(receiptQueue) * (ready - left) - bad)
      ensures if ok then left == {} else old(receiptQueue) * (ready - left) * bad != {}
    {
      hide Apply, Forgotten;
      var todo := receiptQueue;
      events := [];
      NoneForgotten(recs, receiptQueue * (ready - todo) - bad);
      while todo != {}
        invariant todo <= receiptQueue
        invariant receiptQueue == old(receiptQueue) - (ready - todo)
        invariant recs == Forgotten(old(recs), old(receiptQueue) * (ready - todo) - bad)
        invariant View() == Run(old(View()), events)
        decreases todo
      {
        var id :| id in todo;
        ghost var done := old(receiptQueue) * (ready - todo) - bad;
        ghost var now := old(receiptQueue) * (ready - (todo - {id})) - bad;
        assert now == if id in ready && id !in bad then done + {id} else done;
        OneForgotten(old(recs), recs, done, id);
        if id in ready {
          var writeOk := id !in bad;
          FlushOne(id, id in stopped, writeOk);
          RunAppend(old(View()), events, FlushReceipt(id, id in stopped, writeOk));
          events := events + [FlushReceipt(id, id in stopped, writeOk)];
          if !writeOk {
            left := todo - {id};
            assert id in old(receiptQueue) * (ready - left) * bad;
            return false, left, events;
          }
        }
        todo := todo - {id};
      }
      ok, left := true, {};
      assert old(receiptQueue) * ready == old(receiptQueue) * (ready - {});
    }

    /** Deleting one selected message, behind the station's guard. */
    method DeleteMail(id: Id, otherBusy: bool) returns (removed: bool)
      modifies this`recs
      ensures View() == Apply(old(View()), Delete(id, otherBusy))
      ensures removed ==> id !in recs
      ensures id in old(recs) && !removed ==> recs == old(recs)
    {
      if otherBusy || sessions != {} { return false; }
      if id in preparing { return false; }
      if id in recs && recs[id].bridged
         && (Held(recs[id].st) || recs[id].receiptDue || recs[id].pendingReceipt) {
        return false;
      }
      removed := id in recs;
      recs := recs - {id};
    }
  }

  // The steps of the protocol that the methods take.

  lemma SendIsStep(s: State, id: Id, leave: bool, env: SendEnv)
    requires s.queueing.None?
    ensures Apply(s, ServerSend(id, leave, env)) == ServerSendStep(s, id, leave, env)
  {
    hide ServerSendStep;
  }

  lemma RfSendIsStep(s: State, id: Id, rf: RfEnv)
    requires s.queueing.None?
    ensures Apply(s, RfSend(id, rf)) == RfSendStep(s, id, rf)
  {
    hide RfSendStep;
  }

  lemma JobDoneIsStep(s: State, closed: bool, writeOk: bool, rf: RfEnv)
    requires s.queueing.None?
    ensures Apply(s, JobDone(closed, writeOk, rf)) == JobDoneStep(s, closed, writeOk, rf)
  {
    hide JobDoneStep;
  }

  lemma RelayIsStep(s: State, id: Id, ttl: int, way: RelayEnv, env: SendEnv)
    requires s.queueing.None?
    ensures Apply(s, Relay(id, ttl, way, env)) == RelayStep(s, id, ttl, way, env)
  {
    hide RelayStep;
  }

  /** A receipt that the control thread would queue now. */
  predicate DueNow(r: Rec) { r.st.Delivered? && r.receiptDue && r.previousHop }

  function AfterReceipts(r: Rec): Rec {
    if DueNow(r) then r.(pendingReceipt := true, folder := Sent, receiptDue := false) else r
  }

  predicate Overdue(r: Rec, now: int) {
    (r.st.Checking? || r.st.Uploading? || r.st.Unknown?) && now - r.attemptedAt >= 90
  }

  /** Every record outside `todo` has had its timeout, the others are as they were. */
  ghost predicate Ticked(recs0: map<Id, Rec>, recs: map<Id, Rec>, todo: set<Id>, now: int) {
    && recs.Keys == recs0.Keys && todo <= recs.Keys
    && forall id :: id in recs ==> recs[id] == if id in todo then recs0[id] else Expire(recs0[id], now)
  }

  lemma OneTicked(recs0: map<Id, Rec>, recs: map<Id, Rec>, todo: set<Id>, id: Id, now: int)
    requires Ticked(recs0, recs, todo, now) && id in todo
    ensures id in recs && Ticked(recs0, recs[id := Expire(recs[id], now)], todo - {id}, now)
    ensures recs[id] == Expire(recs[id], now) ==> Ticked(recs0, recs, todo - {id}, now)
  {
    hide Expire;
  }

  lemma ExpireIs(r: Rec, now: int)
    ensures Expire(r, now) == if Overdue(r, now) then r.(st := RfFallback) else r
  {
  }

  lemma TimeoutIsStep(s: State, id: Id, now: int)
    requires s.queueing.None? && !s.active && id in s.recs
    ensures Apply(s, Timeout(id, now)) == s.(recs := s.recs[id := Expire(s.recs[id], now)])
  {
  }

  /** The receipts of all messages outside `todo` have been queued. */
  ghost predicate ReceiptsDone(recs0: map<Id, Rec>, queue0: set<Id>, recs: map<Id, Rec>, queue: set<Id>,
                               todo: set<Id>) {
    && recs.Keys == recs0.Keys
    && (forall id :: id in recs ==> recs[id] == if id in todo then recs0[id] else AfterReceipts(recs0[id]))
    && queue == queue0 + (set id | id in recs0 && id !in todo && DueNow(recs0[id]))
  }

  lemma NoReceiptsDone(recs: map<Id, Rec>, queue: set<Id>)
    ensures ReceiptsDone(recs, queue, recs, queue, recs.Keys)
  {
  }

  lemma OneReceiptDone(recs0: map<Id, Rec>, queue0: set<Id>, recs: map<Id, Rec>, queue: set<Id>, todo: set<Id>, id: Id)
    requires ReceiptsDone(recs0, queue0, recs, queue, todo) && id in todo && id in recs
    ensures recs[id] == recs0[id]
    ensures DueNow(recs[id]) ==>
              ReceiptsDone(recs0, queue0, recs[id := AfterReceipts(recs[id])], queue + {id}, todo - {id})
    ensures !DueNow(recs[id]) ==> ReceiptsDone(recs0, queue0, recs, queue, todo - {id})
  {
  }

  lemma AllReceiptsDone(recs0: map<Id, Rec>, queue0: set<Id>, recs: map<Id, Rec>, queue: set<Id>)
    requires ReceiptsDone(recs0, queue0, recs, queue, {})
    ensures recs.Keys == recs0.Keys && forall id :: id in recs ==> recs[id] == AfterReceipts(recs0[id])
    ensures queue == queue0 + (set id | id in recs0 && DueNow(recs0[id]))
  {
  }

  lemma {:induction false} RunConcat(s: State, es: seq<Event>, fs: seq<Event>)
    ensures Run(s, es + fs) == Run(Run(s, es), fs)
  {
    hide Apply;
    if fs == [] {
      assert es + fs == es;
    } else {
      var n := |fs| - 1;
      RunConcat(s, es, fs[..n]);
      assert (es + fs)[..|es + fs| - 1] == es + fs[..n];
    }
  }

  /** The steps of queueing one receipt of which only the first `writes` writes succeed. */
  function ReceiptEvents(id: Id, writes: nat): seq<Event> {
    if writes == 0 then [QueueReceipt(id, false)]
    else if writes == 1 then [QueueReceipt(id, true), ClearReceiptDue(false)]
    else [QueueReceipt(id, true), StatusWritten(id), ClearReceiptDue(writes > 2)]
  }

  function AfterReceipt(r: Rec, writes: nat): Rec {
    r.(pendingReceipt := r.pendingReceipt || writes > 0, folder := if writes > 1 then Sent else r.folder,
       receiptDue := r.receiptDue && writes < 3)
  }

  function Queued(s: State, id: Id, writes: nat): State
    requires id in s.recs
  {
    s.(recs := s.recs[id := AfterReceipt(s.recs[id], writes)],
       receiptQueue := if writes > 0 then s.receiptQueue + {id} else s.receiptQueue)
  }

  lemma QueuedAll(s: State, id: Id, writes: nat)
    requires id in s.recs && DueNow(s.recs[id])
    ensures writes >= 3 ==> Queued(s, id, writes) == s.(recs := s.recs[id := AfterReceipts(s.recs[id])],
                                                        receiptQueue := s.receiptQueue + {id})
    ensures Queued(s, id, writes).queueing == s.queueing && Queued(s, id, writes).recs.Keys == s.recs.Keys
  {
  }

  /** A message's receipt queued, its record being `r`. */
  function InQueue(s: State, id: Id, r: Rec, queueing: Option<Id>): State {
    s.(recs := s.recs[id := r], receiptQueue := s.receiptQueue + {id}, queueing := queueing)
  }

  lemma QueueIsStep(s: State, id: Id)
    requires s.queueing.None? && id in s.recs && DueNow(s.recs[id])
    ensures Apply(s, QueueReceipt(id, false)) == s
    ensures Apply(s, QueueReceipt(id, true)) == InQueue(s, id, s.recs[id].(pendingReceipt := true), Some(id))
  {
  }

  lemma StatusIsStep(s: State, id: Id, r: Rec)
    requires r.st.Delivered?
    ensures Apply(InQueue(s, id, r, Some(id)), StatusWritten(id)) == InQueue(s, id, r.(folder := Sent), Some(id))
  {
  }

  lemma ClearIsStep(s: State, id: Id, r: Rec, ok: bool)
    ensures Apply(InQueue(s, id, r, Some(id)), ClearReceiptDue(ok))
            == InQueue(s, id, r.(receiptDue := r.receiptDue && !ok), None)
  {
  }

  lemma ReceiptSteps(s: State, id: Id, writes: nat)
    requires s.queueing.None? && id in s.recs && DueNow(s.recs[id])
    ensures Run(s, ReceiptEvents(id, writes)) == Queued(s, id, writes)
  {
    hide Apply, InQueue, Queued;
    QueuedIs(s, id, writes);
    var es, r := ReceiptEvents(id, writes), s.recs[id].(pendingReceipt := true);
    QueueIsStep(s, id);
    assert es[..1] == [es[0]] && es[..0] == [] && Run(s, []) == s;
    if writes > 0 {
      assert Run(s, [es[0]]) == InQueue(s, id, r, Some(id));
      if writes == 1 {
        ClearIsStep(s, id, r, false);
        assert Run(s, es) == Apply(InQueue(s, id, r, Some(id)), es[1]);
      } else {
        StatusIsStep(s, id, r);
        ClearIsStep(s, id, r.(folder := Sent), writes > 2);
        assert es[..2][..1] == es[..1];
        assert Run(s, es) == Apply(Run(s, es[..2]), es[2]);
      }
    }
  }

  lemma QueuedIs(s: State, id: Id, writes: nat)
    requires s.queueing.None? && id in s.recs
    ensures Queued(s, id, writes) == if writes == 0 then s else InQueue(s, id, AfterReceipt(s.recs[id], writes), None)
  {
    if writes == 0 { assert s.recs == s.recs[id := AfterReceipt(s.recs[id], 0)]; }
  }

  /** The pending receipts of `done` are forgotten on disk. */
  ghost function Forgotten(recs: map<Id, Rec>, done: set<Id>): map<Id, Rec> {
    map id | id in recs :: if id in done then recs[id].(pendingReceipt := false) else recs[id]
  }

  lemma NoneForgotten(recs: map<Id, Rec>, done: set<Id>)
    requires done == {}
    ensures Forgotten(recs, done) == recs
  {
  }

  lemma OneForgotten(recs0: map<Id, Rec>, recs: map<Id, Rec>, done: set<Id>, id: Id)
    requires recs == Forgotten(recs0, done)
    ensures Forgotten(recs0, done + {id}) == if id in recs then recs[id := recs[id].(pendingReceipt := false)] else recs
  {
  }

  lemma FlushIsStep(s: State, id: Id, stopped: bool, writeOk: bool)
    requires s.queueing.None? && id in s.receiptQueue
    ensures Apply(s, FlushReceipt(id, stopped, writeOk)) ==
            s.(receiptQueue := s.receiptQueue - {id},
               transport := if stopped then s.transport else s.transport + multiset{id},
               recs := if id in s.recs && writeOk then s.recs[id := s.recs[id].(pendingReceipt := false)] else s.recs)
  {
  }
}
