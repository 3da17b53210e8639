/** The persistent mailbox: an index in memory, its atomically replaced image on disk, and the bundle
    files beside it.  Every disk write may fail. */
module MailboxState {
  import opened Wrappers

  type Id = nat

  /** The retry token of a message queued over the remote link. */
  datatype Remote = Remote(key: string, digest: string)

  type Path = map<string, string>

  /** One index entry. */
  datatype Meta = Meta(dest: string, folder: string, status: string, read: bool,
                       receivedAt: Option<int>, sentAt: Option<int>,
                       radioPath: Path, serverPath: Path, remote: Option<Remote>)

  /** What a message contributes to its entry. */
  datatype Mail = Mail(dest: string, folder: string, status: string, read: bool, hash: string)

  /** A bundle file, as `inspect_bundle` sees it. */
  datatype Bundle = Bundle(id: Id, dest: string, hash: string)

  /** `index.json`. */
  datatype Disk = Disk(counter: nat, messages: map<Id, Meta>)

  datatype State = State(index: map<Id, Meta>, counter: nat, disk: Disk, bundles: map<Id, Bundle>)

  const NO_MESSAGES: map<Id, Meta> := map[]

  /** Memory and disk agree. */
  predicate InSync(s: State) { s.index == s.disk.messages && s.counter == s.disk.counter }

  function Saved(s: State): State { s.(disk := Disk(s.counter, s.index)) }

  // --------------------------------------------------------------------------------------- ids

  const COUNTER_SPAN: nat := 0x10_0000

  /** A 12-bit station prefix over a 20-bit counter. */
  function IdOf(prefix: nat, counter: nat): Id
    requires prefix < 4096
  {
    prefix * COUNTER_SPAN + counter % COUNTER_SPAN
  }

  function NextIdStep(s: State, prefix: nat, saveOk: bool): (State, Result<Id>)
    requires prefix < 4096
  {
    var s1 := s.(counter := s.counter + 1);
    if saveOk then (Saved(s1), Ok(IdOf(prefix, s1.counter))) else (s1, Err("index not saved"))
  }

  // --------------------------------------------------------------------------------------- add

  /** A rebuilt entry keeps what this station learned locally. */
  function MetaFor(s: State, id: Id, mail: Mail): Meta {
    if id in s.index then
      s.index[id].(dest := mail.dest, folder := mail.folder, status := mail.status, read := mail.read)
    else Meta(mail.dest, mail.folder, mail.status, mail.read, None, None, map[], map[], None)
  }

  function FirstTime(known: Option<int>, now: Option<int>): Option<int> {
    if known.Some? then known else now
  }

  function AddStep(s: State, id: Id, mail: Mail, receivedAt: Option<int>, sentAt: Option<int>,
                   remote: Option<Remote>, writeOk: bool, saveOk: bool): (State, Result<()>)
  {
    if !writeOk then (s, Err("bundle not written")) else
      var s1 := s.(bundles := s.bundles[id := Bundle(id, mail.dest, mail.hash)]);
      var base := MetaFor(s, id, mail);
      var meta := base.(remote := if remote.Some? then remote else base.remote,
                        receivedAt := FirstTime(base.receivedAt, receivedAt), sentAt := FirstTime(base.sentAt, sentAt));
      if saveOk then (Saved(s1.(index := s.index[id := meta])), Ok(())) else (s1, Err("index not saved"))
  }

  // --------------------------------------------------------------------------------------- retry tokens

  predicate HoldsKey(index: map<Id, Meta>, id: Id, key: string) {
    id in index && index[id].remote.Some? && index[id].remote.value.key == key
  }

  predicate HasKey(index: map<Id, Meta>, key: string) {
    exists id :: id in index && HoldsKey(index, id, key)
  }

  /** Each token belongs to at most one message. */
  ghost predicate UniqueKeys(index: map<Id, Meta>) {
    forall i, j, key :: HoldsKey(index, i, key) && HoldsKey(index, j, key) ==> i == j
  }

  ghost function Holder(index: map<Id, Meta>, key: string): (id: Id)
    requires HasKey(index, key)
    ensures HoldsKey(index, id, key)
  {
    var id :| id in index && HoldsKey(index, id, key); id
  }

  /** `queue_remote_text`: the message's id and whether it was there already. */
  ghost function QueueRemoteStep(s: State, mail: Mail, key: string, digest: string, prefix: nat,
                                 idOk: bool, writeOk: bool, saveOk: bool): (State, Result<(Id, bool)>)
    requires prefix < 4096
  {
    if HasKey(s.index, key) then
      var id := Holder(s.index, key);
      if s.index[id].remote.value.digest != digest then (s, Err("Remote request token conflict"))
      else (s, Ok((id, true)))
    else
      var (s1, minted) := NextIdStep(s, prefix, idOk);
      if minted.Err? then (s1, Err(minted.error)) else
        var (s2, added) := AddStep(s1, minted.value, mail, None, None, Some(Remote(key, digest)), writeOk, saveOk);
        if added.Err? then (s2.(index := s2.index - {minted.value}), Err(added.error))
        else (s2, Ok((minted.value, false)))
  }

  // --------------------------------------------------------------------------------------- metadata

  datatype PathField = RadioPath | ServerPath

  function GetPath(m: Meta, field: PathField): Path {
    if field.RadioPath? then m.radioPath else m.serverPath
  }

  function SetPath(m: Meta, field: PathField, p: Path): Meta {
    if field.RadioPath? then m.(radioPath := p) else m.(serverPath := p)
  }

  /** `_path_metadata`: merge the updates, or put the entry back. */
  function PathStep(s: State, id: Id, field: PathField, updates: Path, saveOk: bool): (State, Result<Path>) {
    if id !in s.index then (s, Ok(map[]))
    else
      var value := GetPath(s.index[id], field) + updates;
      if updates == map[] then (s, Ok(value))
      else if saveOk then (Saved(s.(index := s.index[id := SetPath(s.index[id], field, value)])), Ok(value))
      else (s, Err("index not saved"))
  }

  function StatusOf(m: Meta, status: Option<string>, folder: Option<string>): Meta {
    m.(status := if status.Some? then status.value else m.status,
       folder := if folder.Some? then folder.value else m.folder)
  }

  /** `set_status` writes the entry in place and saves; nothing is put back on failure. */
  function StatusStep(s: State, id: Id, status: Option<string>, folder: Option<string>, saveOk: bool)
    : (State, Result<()>)
  {
    if id !in s.index then (s, Ok(()))
    else
      var s1 := s.(index := s.index[id := StatusOf(s.index[id], status, folder)]);
      if saveOk then (Saved(s1), Ok(())) else (s1, Err("index not saved"))
  }

  /** `mark_sent` likewise, the first time only. */
  function MarkSentStep(s: State, id: Id, now: int, saveOk: bool): (State, Result<()>) {
    if id !in s.index || s.index[id].sentAt.Some? then (s, Ok(()))
    else
      var s1 := s.(index := s.index[id := s.index[id].(sentAt := Some(now))]);
      if saveOk then (Saved(s1), Ok(())) else (s1, Err("index not saved"))
  }

  // --------------------------------------------------------------------------------------- import, delete

  /** `import_server`: acknowledged only once bundle and index are flushed. */
  function ImportStep(s: State, bundle: Bundle, me: string, receipt: Path, hash: string, now: int,
                      writeOk: bool, saveOk: bool): (State, Result<()>)
  {
    if bundle.dest != me then (s, Err("wrong_destination"))
    else if bundle.hash != hash then (s, Err("content_hash_mismatch"))
    else if bundle.id in s.index then
      if bundle.id !in s.bundles then (s, Err("bundle file missing"))
      else if s.bundles[bundle.id].hash != bundle.hash then (s, Err("local_message_id_conflict"))
      else
        var (s1, r) := PathStep(s, bundle.id, ServerPath, receipt["state" := "received"], saveOk);
        (s1, if r.Ok? then Ok(()) else Err(r.error))
    else if !writeOk then (s, Err("bundle not written"))
    else
      var s1 := s.(bundles := s.bundles[bundle.id := bundle]);
      var meta := Meta(bundle.dest, "inbox", "received", false, Some(now), None, map[],
                       receipt["state" := "received"], None);
      if saveOk then (Saved(s1.(index := s.index[bundle.id := meta])), Ok(())) else (s1, Err("index not saved"))
  }

  /** `delete`: the file first, then the entry; the entry comes back if the index cannot be saved. */
  function DeleteStep(s: State, id: Id, folder: Option<string>, unlinkOk: bool, saveOk: bool): (State, Result<bool>) {
    if folder.Some? && (id !in s.index || s.index[id].folder != folder.value) then (s, Ok(false))
    else if id in s.bundles && !unlinkOk then (s, Err("bundle not deleted"))
    else
      var s1 := s.(bundles := s.bundles - {id});
      if id !in s.index then (s1, Ok(false))
      else if saveOk then (Saved(s1.(index := s.index - {id})), Ok(true))
      else (s1, Err("index not saved"))
  }

  /** `clear`: the counter survives; locked bundle files stay. */
  function ClearStep(s: State, deletable: set<Id>, saveOk: bool): (State, Result<nat>) {
    var s1 := s.(index := NO_MESSAGES, bundles := s.bundles - deletable);
    if saveOk then (Saved(s1), Ok(|s.index|)) else (s1, Err("index not saved"))
  }

  /** `load`: memory is what the disk holds; an index that cannot be read counts as an empty one, and the
      counter is then left alone. */
  function LoadStep(s: State, readOk: bool): State {
    if readOk then s.(index := s.disk.messages, counter := s.disk.counter) else s.(index := NO_MESSAGES)
  }

  /** A restart: a new store, its counter at zero, is loaded. */
  function RestartStep(s: State, readOk: bool): State { LoadStep(s.(index := NO_MESSAGES, counter := 0), readOk) }

  // ---------------------------------------------------------------------------------------
  // Transactions

  /** Adding, path metadata, server import and deletion are transactions: whatever fails, an operation
      that raises leaves the index as it was, and one that returns leaves memory equal to disk. */
  lemma AddIsTransaction(s: State, id: Id, mail: Mail, rcv: Option<int>, sent: Option<int>, remote: Option<Remote>,
                         w: bool, v: bool)
    ensures var (t, r) := AddStep(s, id, mail, rcv, sent, remote, w, v);
            if r.Ok? then InSync(t) && id in t.index && id in t.bundles
            else t.index == s.index && t.disk == s.disk && t.counter == s.counter
  {
  }

  lemma PathIsTransaction(s: State, id: Id, field: PathField, updates: Path, v: bool)
    ensures var (t, r) := PathStep(s, id, field, updates, v);
            && (r.Err? || id !in s.index || updates == map[] ==> t == s)
            && (r.Ok? && id in s.index && updates != map[] ==> InSync(t))
            && (r.Ok? && id in s.index ==> GetPath(t.index[id], field) == r.value)
            && (r.Ok? ==> forall other :: other in s.index && other != id ==> t.index[other] == s.index[other])
  {
  }

  lemma ImportIsTransaction(s: State, b: Bundle, me: string, receipt: Path, hash: string, now: int, w: bool, v: bool)
    ensures var (t, r) := ImportStep(s, b, me, receipt, hash, now, w, v);
            if r.Ok? then InSync(t) else t.index == s.index && t.disk == s.disk && t.counter == s.counter
  {
    assert "state" in receipt["state" := "received"];
  }

  /** What an acknowledged import promises the server: durable entry, durable bundle, same content. */
  lemma ImportIsDurable(s: State, b: Bundle, me: string, receipt: Path, hash: string, now: int, w: bool, v: bool)
    ensures var (t, r) := ImportStep(s, b, me, receipt, hash, now, w, v);
            r.Ok? ==>
                      && b.dest == me && b.hash == hash
                      && b.id in t.disk.messages && b.id in t.bundles && t.bundles[b.id].hash == hash
                      && "state" in t.disk.messages[b.id].serverPath
                      && t.disk.messages[b.id].serverPath["state"] == "received"
  {
    assert "state" in receipt["state" := "received"];
  }

  lemma DeleteIsTransaction(s: State, id: Id, folder: Option<string>, u: bool, v: bool)
    ensures var (t, r) := DeleteStep(s, id, folder, u, v);
            && (r.Err? ==> t.index == s.index && t.disk == s.disk)
            && (r == Ok(true) ==> InSync(t) && id !in t.index && id !in t.bundles && t.index == s.index - {id})
            && (r == Ok(false) ==> t.index == s.index && t.disk == s.disk)
  {
  }

  /** `set_status` is not one: when its save fails, memory keeps the change that the disk lacks.  It
      leaves the index as it was exactly when it changed nothing. */
  lemma StatusNotRolledBack(s: State, id: Id, status: Option<string>, folder: Option<string>)
    requires id in s.index
    ensures var (t, r) := StatusStep(s, id, status, folder, false);
            && r.Err? && t.disk == s.disk
            && (t.index == s.index <==> (status.None? || status.value == s.index[id].status)
                                        && (folder.None? || folder.value == s.index[id].folder))
  {
    var (t, r) := StatusStep(s, id, status, folder, false);
    var changed := StatusOf(s.index[id], status, folder);
    assert t.index[id] == changed;
    if changed == s.index[id] { assert t.index == s.index; }
  }

  /** `queue_remote_text` drops the minted entry when it cannot be saved.  The index is as before
      exactly when the id was new, or was minted without an error after it. */
  lemma QueueRemoteRollback(s: State, mail: Mail, key: string, digest: string, prefix: nat, i: bool, w: bool, v: bool)
    requires prefix < 4096 && QueueRemoteStep(s, mail, key, digest, prefix, i, w, v).1.Err?
    ensures var t := QueueRemoteStep(s, mail, key, digest, prefix, i, w, v).0;
            t.index == s.index <==> HasKey(s.index, key) || !i || IdOf(prefix, s.counter + 1) !in s.index
  {
    var id := IdOf(prefix, s.counter + 1);
    var t := QueueRemoteStep(s, mail, key, digest, prefix, i, w, v).0;
    if !HasKey(s.index, key) && i {
      assert t.index == s.index - {id};
      if id in s.index { assert id !in t.index; }
    }
  }

  // ---------------------------------------------------------------------------------------
  // Runs

  datatype Op =
    | NextId(prefix: nat, saveOk: bool)
    | Add(id: Id, mail: Mail, receivedAt: Option<int>, sentAt: Option<int>, writeOk: bool, saveOk: bool)
    | QueueRemote(mail: Mail, key: string, digest: string, prefix: nat, idOk: bool, writeOk: bool, saveOk: bool)
    | PathUpdate(id: Id, field: PathField, updates: Path, saveOk: bool)
    | SetStatus(id: Id, status: Option<string>, folder: Option<string>, saveOk: bool)
    | MarkSent(id: Id, now: int, saveOk: bool)
    | Import(bundle: Bundle, me: string, receipt: Path, hash: string, now: int, writeOk: bool, saveOk: bool)
    | Delete(id: Id, inFolder: Option<string>, unlinkOk: bool, saveOk: bool)
    | Clear(deletable: set<Id>, saveOk: bool)
    | Restart(readOk: bool)

  predicate ValidOp(op: Op) {
    (op.NextId? ==> op.prefix < 4096) && (op.QueueRemote? ==> op.prefix < 4096)
  }

  ghost function Apply(s: State, op: Op): State
    requires ValidOp(op)
  {
    match op
    case NextId(prefix, v) => NextIdStep(s, prefix, v).0
    case Add(id, mail, rcv, sent, w, v) => AddStep(s, id, mail, rcv, sent, None, w, v).0
    case QueueRemote(mail, key, digest, prefix, i, w, v) => QueueRemoteStep(s, mail, key, digest, prefix, i, w, v).0
    case PathUpdate(id, field, updates, v) => PathStep(s, id, field, updates, v).0
    case SetStatus(id, status, folder, v) => StatusStep(s, id, status, folder, v).0
    case MarkSent(id, now, v) => MarkSentStep(s, id, now, v).0
    case Import(b, me, receipt, hash, now, w, v) => ImportStep(s, b, me, receipt, hash, now, w, v).0
    case Delete(id, folder, u, v) => DeleteStep(s, id, folder, u, v).0
    case Clear(deletable, v) => ClearStep(s, deletable, v).0
    case Restart(r) => RestartStep(s, r)
  }

  ghost predicate ValidOps(ops: seq<Op>) {
    forall i :: 0 <= i < |ops| ==> ValidOp(ops[i])
  }

  ghost function Run(s: State, ops: seq<Op>): State
    requires ValidOps(ops)
  {
    if ops == [] then s else Apply(Run(s, ops[..|ops| - 1]), ops[|ops| - 1])
  }

  // --------------------------------------------------------------------------------------- tokens

  /** No entry of `after` holds a token that its entry in `before` did not hold. */
  ghost predicate KeysFrom(before: map<Id, Meta>, after: map<Id, Meta>) {
    forall id :: id in after && after[id].remote.Some? ==> id in before && after[id].remote == before[id].remote
  }

  lemma KeysFromUnique(before: map<Id, Meta>, after: map<Id, Meta>)
    requires UniqueKeys(before) && KeysFrom(before, after)
    ensures UniqueKeys(after)
  {
    forall i, j, key | HoldsKey(after, i, key) && HoldsKey(after, j, key)
      ensures i == j
    {
      assert HoldsKey(before, i, key) && HoldsKey(before, j, key);
    }
  }

  /** A fresh token for one entry keeps tokens unique. */
  lemma NewKeyUnique(index: map<Id, Meta>, id: Id, m: Meta, key: string)
    requires UniqueKeys(index) && !HasKey(index, key) && m.remote.Some? && m.remote.value.key == key
    ensures UniqueKeys(index[id := m])
  {
    var after := index[id := m];
    forall i, j, k | HoldsKey(after, i, k) && HoldsKey(after, j, k)
      ensures i == j
    {
      if i != id { assert HoldsKey(index, i, k); }
      if j != id { assert HoldsKey(index, j, k); }
    }
  }

  ghost predicate UniqueEverywhere(s: State) { UniqueKeys(s.index) && UniqueKeys(s.disk.messages) }

  lemma QueueRemoteUnique(s: State, op: Op)
    requires op.QueueRemote? && ValidOp(op) && UniqueEverywhere(s)
    ensures UniqueEverywhere(Apply(s, op))
  {
    hide UniqueKeys;
    if !HasKey(s.index, op.key) && op.idOk {
      var id := IdOf(op.prefix, s.counter + 1);
      var t := Apply(s, op);
      if op.writeOk && op.saveOk {
        NewKeyUnique(s.index, id, t.index[id], op.key);
        assert t.index == s.index[id := t.index[id]];
      } else {
        KeysFromUnique(s.index, t.index);
      }
    }
  }

  /** An operation that accepts no token brings none in. */
  ghost predicate BringsNone(s: State, t: State) {
    KeysFrom(s.index, t.index) && (t.disk.messages == s.disk.messages || t.disk.messages == t.index)
  }

  lemma AddBringsNone(s: State, op: Op)
    requires ValidOp(op) && (op.Add? || op.NextId?)
    ensures BringsNone(s, Apply(s, op))
  {
    hide QueueRemoteStep, PathStep, StatusStep, MarkSentStep, ImportStep, DeleteStep, ClearStep;
  }

  lemma UpdateBringsNone(s: State, op: Op)
    requires ValidOp(op) && (op.PathUpdate? || op.SetStatus? || op.MarkSent?)
    ensures BringsNone(s, Apply(s, op))
  {
    hide QueueRemoteStep, AddStep, NextIdStep, ImportStep, DeleteStep, ClearStep;
  }

  lemma ImportBringsNone(s: State, op: Op)
    requires ValidOp(op) && op.Import?
    ensures BringsNone(s, Apply(s, op))
  {
    hide QueueRemoteStep, AddStep, NextIdStep, StatusStep, MarkSentStep, DeleteStep, ClearStep;
  }

  lemma DeleteBringsNone(s: State, op: Op)
    requires ValidOp(op) && (op.Delete? || op.Clear?)
    ensures BringsNone(s, Apply(s, op))
  {
    hide QueueRemoteStep, AddStep, NextIdStep, PathStep, StatusStep, MarkSentStep, ImportStep;
  }

  lemma ApplyUnique(s: State, op: Op)
    requires ValidOp(op) && UniqueEverywhere(s)
    ensures UniqueEverywhere(Apply(s, op))
  {
    if op.Restart? {
      hide UniqueKeys;
      assert Apply(s, op) == RestartStep(s, op.readOk);
    } else if op.QueueRemote? {
      QueueRemoteUnique(s, op);
    } else {
      hide UniqueKeys, Apply, KeysFrom;
      match op {
        case Add(_, _, _, _, _, _) => AddBringsNone(s, op);
        case NextId(_, _) => AddBringsNone(s, op);
        case PathUpdate(_, _, _, _) => UpdateBringsNone(s, op);
        case SetStatus(_, _, _, _) => UpdateBringsNone(s, op);
        case MarkSent(_, _, _) => UpdateBringsNone(s, op);
        case Import(_, _, _, _, _, _, _) => ImportBringsNone(s, op);
        case Delete(_, _, _, _) => DeleteBringsNone(s, op);
        case Clear(_, _) => DeleteBringsNone(s, op);
        case QueueRemote(_, _, _, _, _, _, _) =>
        case Restart(_) =>
      }
      KeysFromUnique(s.index, Apply(s, op).index);
    }
  }

  /** Across retries, failed writes and restarts each token maps to at most one retained message. */
  lemma {:induction false} TokensStayUnique(s: State, ops: seq<Op>)
    requires ValidOps(ops) && UniqueEverywhere(s)
    ensures UniqueEverywhere(Run(s, ops))
  {
    hide Apply, UniqueEverywhere;
    if ops != [] {
      TokensStayUnique(s, ops[..|ops| - 1]);
      ApplyUnique(Run(s, ops[..|ops| - 1]), ops[|ops| - 1]);
    }
  }

  /** The message is retained, with its token, in memory and on disk. */
  ghost predicate Retained(s: State, id: Id, remote: Remote) {
    && id in s.index && s.index[id].remote == Some(remote)
    && id in s.disk.messages && s.disk.messages[id].remote == Some(remote)
  }

  /** The operation does not remove the message, forget it or mint its id again. */
  ghost predicate Spares(s: State, op: Op, id: Id)
    requires ValidOp(op)
  {
    && !op.Clear? && (op.Delete? ==> op.id != id) && (op.Restart? ==> op.readOk)
    && (op.QueueRemote? ==> IdOf(op.prefix, s.counter + 1) != id)
  }

  ghost predicate AllSpare(s: State, ops: seq<Op>, id: Id)
    requires ValidOps(ops)
  {
    forall i :: 0 <= i < |ops| ==> Spares(Run(s, ops[..i]), ops[i], id)
  }

  lemma ApplyRetains(s: State, op: Op, id: Id, remote: Remote)
    requires ValidOp(op) && Retained(s, id, remote) && Spares(s, op, id)
    ensures Retained(Apply(s, op), id, remote)
  {
  }

  lemma {:induction false} RunRetains(s: State, ops: seq<Op>, id: Id, remote: Remote)
    requires ValidOps(ops) && Retained(s, id, remote) && AllSpare(s, ops, id)
    ensures Retained(Run(s, ops), id, remote)
  {
    hide Apply, Retained, Spares;
    if ops != [] {
      var init := ops[..|ops| - 1];
      forall i | 0 <= i < |init| ensures Spares(Run(s, init[..i]), init[i], id) { assert init[..i] == ops[..i]; }
      RunRetains(s, init, id, remote);
      ApplyRetains(Run(s, init), ops[|ops| - 1], id, remote);
    }
  }

  /** A retry is answered with the same message: once a token was accepted, then through any
      operations, failures and restarts that keep the message, asking again with the same content
      gives its id as a duplicate, and asking with other content is refused without a change. */
  lemma RetryIsIdempotent(s: State, mail: Mail, key: string, digest: string, prefix: nat, ops: seq<Op>,
                          mail': Mail, digest': string, i: bool, w: bool, v: bool)
    requires prefix < 4096 && UniqueEverywhere(s) && !HasKey(s.index, key)
    requires QueueRemoteStep(s, mail, key, digest, prefix, true, true, true).1.Ok?
    requires ValidOps(ops)
    requires var first := QueueRemoteStep(s, mail, key, digest, prefix, true, true, true);
             AllSpare(first.0, ops, first.1.value.0)
    ensures var first := QueueRemoteStep(s, mail, key, digest, prefix, true, true, true);
            var t := Run(first.0, ops);
            QueueRemoteStep(t, mail', key, digest', prefix, i, w, v) ==
            (t, if digest' == digest then Ok((first.1.value.0, true)) else Err("Remote request token conflict"))
  {
    var first := QueueRemoteStep(s, mail, key, digest, prefix, true, true, true);
    var id := first.1.value.0;
    QueueRemoteUnique(s, QueueRemote(mail, key, digest, prefix, true, true, true));
    RunRetains(first.0, ops, id, Remote(key, digest));
    TokensStayUnique(first.0, ops);
    var t := Run(first.0, ops);
    hide Run;
    assert HoldsKey(t.index, id, key);
  }

  // --------------------------------------------------------------------------------------- minted ids

  /** How many ids an operation tries to mint. */
  function Attempts(op: Op): nat { if op.NextId? || op.QueueRemote? then 1 else 0 }

  function AttemptsIn(ops: seq<Op>): nat {
    if ops == [] then 0 else AttemptsIn(ops[..|ops| - 1]) + Attempts(ops[|ops| - 1])
  }

  /** Both counters lie at or after `low`, the one on disk not ahead of the one in memory. */
  ghost predicate Ahead(s: State, low: nat, slack: nat) {
    low <= s.disk.counter <= s.counter <= low + slack
  }

  /** No restart finds the index unreadable. */
  ghost predicate Readable(ops: seq<Op>) {
    forall i :: 0 <= i < |ops| ==> (ops[i].Restart? ==> ops[i].readOk)
  }

  lemma ApplyAhead(s: State, op: Op, low: nat, slack: nat)
    requires ValidOp(op) && (op.Restart? ==> op.readOk) && Ahead(s, low, slack)
    ensures Ahead(Apply(s, op), low, slack + Attempts(op))
  {
  }

  lemma {:induction false} RunAhead(s: State, ops: seq<Op>, low: nat)
    requires ValidOps(ops) && Readable(ops) && Ahead(s, low, 0)
    ensures Ahead(Run(s, ops), low, AttemptsIn(ops))
  {
    hide Apply;
    if ops != [] {
      RunAhead(s, ops[..|ops| - 1], low);
      ApplyAhead(Run(s, ops[..|ops| - 1]), ops[|ops| - 1], low, AttemptsIn(ops[..|ops| - 1]));
    }
  }

  /** Ids are equal exactly when prefixes are and counters agree modulo the span. */
  lemma SameId(p: nat, c: nat, q: nat, d: nat)
    requires p < 4096 && q < 4096
    ensures IdOf(p, c) == IdOf(q, d) <==> p == q && c % COUNTER_SPAN == d % COUNTER_SPAN
    ensures IdOf(p, c) < 0x1_0000_0000
  {
  }

  lemma NearCountersDiffer(c: nat, d: nat)
    requires c < d < c + COUNTER_SPAN
    ensures c % COUNTER_SPAN != d % COUNTER_SPAN
  {
  }

  /** Minted ids do not repeat: whatever happens in between (restarts that can read the index, failed
      saves, a cleared mailbox), an id minted after fewer than 2^20 - 1 attempts differs from the one
      before. */
  lemma MintedIdsDiffer(s: State, prefix: nat, ops: seq<Op>, prefix': nat)
    requires prefix < 4096 && prefix' < 4096 && ValidOps(ops) && Readable(ops) && AttemptsIn(ops) + 1 < COUNTER_SPAN
    ensures var (s1, first) := NextIdStep(s, prefix, true);
            var second := NextIdStep(Run(s1, ops), prefix', true).1;
            first.Ok? && second.Ok? && first.value != second.value
  {
    hide Run, AttemptsIn;
    var (s1, first) := NextIdStep(s, prefix, true);
    RunAhead(s1, ops, s1.counter);
    var t := Run(s1, ops);
    NearCountersDiffer(s1.counter, t.counter + 1);
    SameId(prefix, s1.counter, prefix', t.counter + 1);
  }

  /** The operations of a station that mints `n` ids and does nothing else. */
  function Mints(prefix: nat, n: nat): (ops: seq<Op>)
    ensures |ops| == n && forall i :: 0 <= i < n ==> ops[i] == NextId(prefix, true)
  {
    seq(n, _ => NextId(prefix, true))
  }

  lemma {:induction false} MintsCount(s: State, prefix: nat, n: nat)
    requires prefix < 4096
    ensures Run(s, [Restart(false)] + Mints(prefix, n)).counter == n
  {
    hide Apply;
    var ops := [Restart(false)] + Mints(prefix, n);
    var init := ops[..|ops| - 1];
    if n > 0 {
      assert init == [Restart(false)] + Mints(prefix, n - 1);
      MintsCount(s, prefix, n - 1);
      assert Apply(Run(s, init), NextId(prefix, true)).counter == n by { MintCounts(Run(s, init), prefix); }
    } else {
      assert init == [] && Run(s, init) == s && Apply(s, Restart(false)).counter == 0 by { RestartCounts(s); }
    }
  }

  lemma MintCounts(s: State, prefix: nat)
    requires prefix < 4096
    ensures Apply(s, NextId(prefix, true)).counter == s.counter + 1
  {
  }

  lemma RestartCounts(s: State)
    ensures Apply(s, Restart(false)).counter == 0
  {
  }

  /** Why the index must be readable: a restart that cannot read it counts from zero again, and the ids
      that follow repeat the earlier ones exactly where the counters agree; a station that had minted one
      id repeats it at once. */
  lemma UnreadableIndexRepeats(s: State, prefix: nat, prefix': nat, n: nat)
    requires prefix < 4096 && prefix' < 4096
    ensures var (s1, first) := NextIdStep(s, prefix, true);
            var second := NextIdStep(Run(s1, [Restart(false)] + Mints(prefix', n)), prefix', true).1;
            && first.Ok? && second.Ok?
            && (second == first <==> prefix == prefix' && (n + 1) % COUNTER_SPAN == (s.counter + 1) % COUNTER_SPAN)
  {
    hide Run;
    var s1 := NextIdStep(s, prefix, true).0;
    MintsCount(s1, prefix', n);
    SameId(prefix, s.counter + 1, prefix', n + 1);
  }
}

/** The mailbox in the form the station runs it: one object whose methods change the index in place,
    save it and roll back, each proved to be a step on the mailbox state. */
module Mailbox {
  import opened Wrappers
  import opened MailboxState

  /** The store in the form it runs: methods that change the index in place, save it, and roll back
      what could not be saved.  Each write that may fail is a flag of the call. */
  class MessageStore {
    var index: map<Id, Meta>
    var counter: nat
    var disk: Disk
    var bundles: map<Id, Bundle>

    ghost function View(): State
      reads this
    {
      State(index, counter, disk, bundles)
    }

    constructor Open(onDisk: Disk, files: map<Id, Bundle>, readOk: bool)
      ensures View() == RestartStep(State(map[], 0, onDisk, files), readOk)
      ensures readOk ==> InSync(View())
    {
      index, counter, disk, bundles := map[], 0, onDisk, files;
      new;
      Load(readOk);
    }

    /** `load`. */
    method Load(readOk: bool)
      modifies this`index, this`counter
      ensures View() == LoadStep(old(View()), readOk)
    {
      if readOk {
        index := disk.messages;
        counter := disk.counter;
      } else {
        index := map[];
      }
    }

    /** `_save_index`: the replacement of the file is atomic, and an exception means it did not
        happen. */
    method SaveIndex(ok: bool) returns (saved: bool)
      modifies this`disk
      ensures saved == ok && View() == if ok then Saved(old(View())) else old(View())
    {
      if ok { disk := Disk(counter, index); }
      saved := ok;
    }

    method WriteBundle(id: Id, bundle: Bundle, ok: bool) returns (written: bool)
      modifies this`bundles
      ensures written == ok && bundles == if ok then old(bundles)[id := bundle] else old(bundles)
    {
      if ok { bundles := bundles[id := bundle]; }
      written := ok;
    }

    method NextId(prefix: nat, saveOk: bool) returns (r: Result<Id>)
      requires prefix < 4096
      modifies this
      ensures (View(), r) == NextIdStep(old(View()), prefix, saveOk)
    {
      counter := counter + 1;
      var id := IdOf(prefix, counter);
      var saved := SaveIndex(saveOk);
      r := if saved then Ok(id) else Err("index not saved");
    }

    method Add(id: Id, mail: Mail, receivedAt: Option<int>, sentAt: Option<int>, remote: Option<Remote>,
               writeOk: bool, saveOk: bool) returns (r: Result<()>)
      modifies this
      ensures (View(), r) == AddStep(old(View()), id, mail, receivedAt, sentAt, remote, writeOk, saveOk)
    {
      var known, previous := id in index, index;
      var written := WriteBundle(id, Bundle(id, mail.dest, mail.hash), writeOk);
      if !written { return Err("bundle not written"); }
      var meta := MetaFor(Snapshot(), id, mail);
      if remote.Some? { meta := meta.(remote := remote); }
      if receivedAt.Some? && meta.receivedAt.None? { meta := meta.(receivedAt := receivedAt); }
      if sentAt.Some? && meta.sentAt.None? { meta := meta.(sentAt := sentAt); }
      index := index[id := meta];
      var saved := SaveIndex(saveOk);
      if !saved {
        index := if known then index[id := previous[id]] else index - {id};
        assert index == previous;
        return Err("index not saved");
      }
      r := Ok(());
    }

    /** The state as a value, for helpers that only read it. */
    function Snapshot(): (s: State)
      reads this
      ensures s == View()
    {
      State(index, counter, disk, bundles)
    }

    /** `queue_remote_text`: look for the token, else mint, store and remember it. */
    method QueueRemoteText(mail: Mail, key: string, digest: string, prefix: nat, idOk: bool, writeOk: bool,
                           saveOk: bool)
      returns (r: Result<(Id, bool)>)
      requires prefix < 4096 && UniqueKeys(index)
      modifies this
      ensures (View(), r) == QueueRemoteStep(old(View()), mail, key, digest, prefix, idOk, writeOk, saveOk)
    {
      var todo := index.Keys;
      while todo != {}
        invariant todo <= index.Keys && View() == old(View())
        invariant forall id :: id in index && id !in todo ==> !HoldsKey(index, id, key)
        decreases todo
      {
        var id :| id in todo;
        var receipt := index[id].remote;
        if receipt.Some? && receipt.value.key == key {
          assert HoldsKey(index, id, key) && HoldsKey(index, Holder(index, key), key);
          if receipt.value.digest != digest { return Err("Remote request token conflict"); }
          return Ok((id, true));
        }
        todo := todo - {id};
      }
      assert !HasKey(index, key);
      var minted := NextId(prefix, idOk);
      if minted.Err? { return Err(minted.error); }
      var added := Add(minted.value, mail, None, None, Some(Remote(key, digest)), writeOk, saveOk);
      if added.Err? {
        index := index - {minted.value};
        return Err(added.error);
      }
      r := Ok((minted.value, false));
    }

    method PathMetadata(id: Id, field: PathField, updates: Path, saveOk: bool) returns (r: Result<Path>)
      modifies this
      ensures (View(), r) == PathStep(old(View()), id, field, updates, saveOk)
    {
      if id !in index { return Ok(map[]); }
      var old_, value := index[id], GetPath(index[id], field);
      if updates != map[] {
        ghost var before := index;
        value := value + updates;
        index := index[id := SetPath(old_, field, value)];
        var saved := SaveIndex(saveOk);
        if !saved {
          index := index[id := old_];
          assert index == before;
          return Err("index not saved");
        }
      }
      assert updates == map[] ==> value == value + updates;
      r := Ok(value);
    }

    method SetStatus(id: Id, status: Option<string>, folder: Option<string>, saveOk: bool) returns (r: Result<()>)
      modifies this
      ensures (View(), r) == StatusStep(old(View()), id, status, folder, saveOk)
    {
      if id !in index { return Ok(()); }
      ghost var before := index;
      if status.Some? { index := index[id := index[id].(status := status.value)]; }
      if folder.Some? { index := index[id := index[id].(folder := folder.value)]; }
      assert index == before[id := StatusOf(before[id], status, folder)];
      var saved := SaveIndex(saveOk);
      r := if saved then Ok(()) else Err("index not saved");
    }

    method MarkSent(id: Id, now: int, saveOk: bool) returns (r: Result<()>)
      modifies this
      ensures (View(), r) == MarkSentStep(old(View()), id, now, saveOk)
    {
      if id !in index || index[id].sentAt.Some? { return Ok(()); }
      index := index[id := index[id].(sentAt := Some(now))];
      var saved := SaveIndex(saveOk);
      r := if saved then Ok(()) else Err("index not saved");
    }

    method ImportServer(bundle: Bundle, me: string, receipt: Path, hash: string, now: int, writeOk: bool, saveOk: bool)
      returns (r: Result<()>)
      modifies this
      ensures (View(), r) == ImportStep(old(View()), bundle, me, receipt, hash, now, writeOk, saveOk)
    {
      if bundle.dest != me { return Err("wrong_destination"); }
      if bundle.hash != hash { return Err("content_hash_mismatch"); }
      if bundle.id in index {
        if bundle.id !in bundles { return Err("bundle file missing"); }
        if bundles[bundle.id].hash != bundle.hash { return Err("local_message_id_conflict"); }
        var merged := PathMetadata(bundle.id, ServerPath, receipt["state" := "received"], saveOk);
        return if merged.Ok? then Ok(()) else Err(merged.error);
      }
      ghost var before := index;
      var written := WriteBundle(bundle.id, bundle, writeOk);
      if !written { return Err("bundle not written"); }
      index := index[bundle.id := Meta(bundle.dest, "inbox", "received", false, Some(now), None, map[],
                                       receipt["state" := "received"], None)];
      var saved := SaveIndex(saveOk);
      if !saved {
        index := index - {bundle.id};
        assert index == before;
        return Err("index not saved");
      }
      r := Ok(());
    }

    /** One message of `_poll`'s mailbox pass: import, then acknowledge.  The acknowledgement is sent
        only when entry and bundle are durable with the announced content. */
    method PollDelivery(bundle: Bundle, me: string, receipt: Path, hash: string, now: int, writeOk: bool, saveOk: bool)
      returns (acknowledged: bool)
      modifies this
      ensures acknowledged ==> && bundle.id in disk.messages && bundle.id in bundles && bundles[bundle.id].hash == hash
                               && "state" in disk.messages[bundle.id].serverPath
                               && disk.messages[bundle.id].serverPath["state"] == "received"
      ensures !acknowledged ==> index == old(index) && disk == old(disk)
    {
      ImportIsDurable(View(), bundle, me, receipt, hash, now, writeOk, saveOk);
      ImportIsTransaction(View(), bundle, me, receipt, hash, now, writeOk, saveOk);
      var r := ImportServer(bundle, me, receipt, hash, now, writeOk, saveOk);
      acknowledged := r.Ok?;
    }

    method Delete(id: Id, folder: Option<string>, unlinkOk: bool, saveOk: bool) returns (r: Result<bool>)
      modifies this
      ensures (View(), r) == DeleteStep(old(View()), id, folder, unlinkOk, saveOk)
    {
      if folder.Some? && (id !in index || index[id].folder != folder.value) { return Ok(false); }
      if id in bundles && !unlinkOk { return Err("bundle not deleted"); }
      bundles := bundles - {id};
      if id !in index { return Ok(false); }
      var meta, before := index[id], index;
      index := index - {id};
      var saved := SaveIndex(saveOk);
      if !saved {
        index := index[id := meta];
        assert index == before;
        return Err("index not saved");
      }
      r := Ok(true);
    }

    method Clear(deletable: set<Id>, saveOk: bool) returns (r: Result<nat>)
      modifies this
      ensures (View(), r) == ClearStep(old(View()), deletable, saveOk)
    {
      var removed := |index|;
      index := map[];
      bundles := bundles - deletable;
      var saved := SaveIndex(saveOk);
      r := if saved then Ok(removed) else Err("index not saved");
    }
  }
}
