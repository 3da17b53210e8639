/** Requests and replies over BLE: messages cut into numbered fragments of at most 20 bytes, and the
    assembler that accepts only an unbroken run of them. */
module BleFraming {
  import opened Wrappers
  import opened Framing

  const FRAGMENT_BYTES: nat := 16
  const MAX_JSON: nat := 32768
  const ASSEMBLY_TIMEOUT := 30.0

  datatype Message = Message(tid: Byte, raw: seq<Byte>)

  // --------------------------------------------------------------------------------------- sender

  function FragmentCount(n: nat): nat { (n + FRAGMENT_BYTES - 1) / FRAGMENT_BYTES }

  /** `HEADER.pack`, little-endian, and the payload. */
  function Packet(flags: Byte, tid: Byte, index: nat, payload: seq<Byte>): (p: seq<Byte>)
    requires index < 65536
    ensures |p| == 4 + |payload|
  {
    [flags, tid, index % 256, index / 256] + payload
  }

  function Slice(raw: seq<Byte>, i: nat): (s: seq<Byte>)
    requires i < FragmentCount(|raw|)
    ensures 1 <= |s| <= FRAGMENT_BYTES
  {
    raw[i * FRAGMENT_BYTES..if (i + 1) * FRAGMENT_BYTES < |raw| then (i + 1) * FRAGMENT_BYTES else |raw|]
  }

  function Flags(raw: seq<Byte>, i: nat): Byte {
    (if i == 0 then 1 else 0) + if (i + 1) * FRAGMENT_BYTES >= |raw| then 2 else 0
  }

  /** Fragment `i` of a message the sender accepts. */
  function Fragment(m: Message, i: nat): seq<Byte>
    requires |m.raw| <= MAX_JSON && i < FragmentCount(|m.raw|)
  {
    Packet(Flags(m.raw, i), m.tid, i, Slice(m.raw, i))
  }

  /** `fragments` on the encoded JSON, which `json_bytes` has already bounded. */
  method Fragments(m: Message) returns (packets: seq<seq<Byte>>)
    requires |m.raw| <= MAX_JSON
    ensures |packets| == FragmentCount(|m.raw|)
    ensures forall i :: 0 <= i < |packets| ==> packets[i] == Fragment(m, i) && 5 <= |packets[i]| <= 20
  {
    packets := [];
    var offset := 0;
    while offset < |m.raw|
      invariant offset == |packets| * FRAGMENT_BYTES
      invariant |packets| <= FragmentCount(|m.raw|)
      invariant forall i :: 0 <= i < |packets| ==> packets[i] == Fragment(m, i) && 5 <= |packets[i]| <= 20
    {
      var flags: Byte := (if offset == 0 then 1 else 0) + if offset + FRAGMENT_BYTES >= |m.raw| then 2 else 0;
      var end := if offset + FRAGMENT_BYTES < |m.raw| then offset + FRAGMENT_BYTES else |m.raw|;
      packets := packets + [Packet(flags, m.tid, offset / FRAGMENT_BYTES, m.raw[offset..end])];
      offset := offset + FRAGMENT_BYTES;
    }
  }

  // ------------------------------------------------------------------------------------- assembler

  /** The fields of the assembler. */
  datatype Assembly = Assembly(data: seq<Byte>, tid: Option<Byte>, index: nat, started: real)

  /** A packet taken, a packet that completes a message, or an error raised. */
  datatype Outcome = More | Done(message: Message) | Refused

  predicate Starts(p: seq<Byte>) { |p| >= 4 && p[0] % 2 == 1 }

  predicate Ends(p: seq<Byte>) { |p| >= 4 && p[0] / 2 % 2 == 1 }

  function IndexIn(p: seq<Byte>): nat requires |p| >= 4 { p[2] as int + 256 * (p[3] as int) }

  /** Length and flags are possible. */
  predicate WellFormed(p: seq<Byte>) { 5 <= |p| <= 20 && p[0] < 4 }

  /** The packet belongs next: it opens a transfer, or carries on the one under way. */
  predicate Fits(a: Assembly, p: seq<Byte>, now: real)
    requires |p| >= 4
  {
    if Starts(p) then IndexIn(p) == 0 && a.tid.None?
    else a.tid == Some(p[1]) && a.index == IndexIn(p) && now - a.started <= ASSEMBLY_TIMEOUT
  }

  /** `Assembler.feed`, up to the JSON decoding of what it completes. */
  function Feed(a: Assembly, p: seq<Byte>, now: real): (Assembly, Outcome) {
    if !WellFormed(p) || !Fits(a, p, now) then (a, Refused)
    else
      var data := (if Starts(p) then [] else a.data) + p[4..];
      var b := Assembly(data, Some(p[1]), IndexIn(p) + 1, if Starts(p) then now else a.started);
      if |data| > MAX_JSON then (b, Refused)
      else if !Ends(p) then (b, More)
      else (b.(data := [], tid := None), Done(Message(p[1], data)))
  }

  const NEW_ASSEMBLY := Assembly([], None, 0, 0.0)

  class Assembler {
    var data: seq<Byte>
    var transferId: Option<Byte>
    var index: nat
    var started: real

    function View(): Assembly
      reads this
    {
      Assembly(data, transferId, index, started)
    }

    constructor ()
      ensures View() == NEW_ASSEMBLY
    {
      data, transferId, index, started := [], None, 0, 0.0;
    }

    /** `feed`: the state may already have moved when the size check raises. */
    method Take(packet: seq<Byte>, now: real) returns (outcome: Outcome)
      modifies this
      ensures (View(), outcome) == Feed(old(View()), packet, now)
    {
      if !(5 <= |packet| <= 20) { return Refused; }
      var flags, tid, number := packet[0], packet[1], packet[2] as int + 256 * (packet[3] as int);
      if flags >= 4 { return Refused; }
      if flags % 2 == 1 {
        if number != 0 || transferId.Some? { return Refused; }
        data := [];
        transferId, index, started := Some(tid), 0, now;
      }
      if transferId != Some(tid) || index != number || now - started > ASSEMBLY_TIMEOUT { return Refused; }
      data := data + packet[4..];
      index := index + 1;
      if |data| > MAX_JSON { return Refused; }
      if flags / 2 % 2 == 0 { return More; }
      var raw := data;
      transferId := None;
      data := [];
      outcome := Done(Message(tid, raw));
    }
  }

  // ------------------------------------------------------------------------------------- round trip

  datatype Arrival = Arrival(packet: seq<Byte>, now: real)

  /** What feeding a stream leaves, and the outcome of each packet. */
  function FeedAll(a: Assembly, stream: seq<Arrival>): (r: (Assembly, seq<Outcome>))
    ensures |r.1| == |stream|
    decreases |stream|
  {
    if stream == [] then (a, [])
    else
      var (b, o) := Feed(a, stream[0].packet, stream[0].now);
      var (c, os) := FeedAll(b, stream[1..]);
      (c, [o] + os)
  }

  /** A message and the times its fragments arrive. */
  datatype Sent = Sent(message: Message, times: seq<real>)

  /** A message the sender can cut up, whose fragments arrive inside the window of its first. */
  predicate Timely(s: Sent) {
    && 1 <= |s.message.raw| <= MAX_JSON && |s.times| == FragmentCount(|s.message.raw|)
    && forall i :: 0 <= i < |s.times| ==> s.times[i] - s.times[0] <= ASSEMBLY_TIMEOUT
  }

  /** The fragments of one message from number `i` on. */
  function Arrivals(s: Sent, i: nat): (stream: seq<Arrival>)
    requires Timely(s) && i <= |s.times|
    ensures |stream| == |s.times| - i
    decreases |s.times| - i
  {
    if i == |s.times| then [] else [Arrival(Fragment(s.message, i), s.times[i])] + Arrivals(s, i + 1)
  }

  function Outcomes(s: Sent, i: nat): (os: seq<Outcome>)
    requires Timely(s) && i <= |s.times|
    decreases |s.times| - i
  {
    if i == |s.times| then []
    else [if i + 1 == |s.times| then Done(s.message) else More] + Outcomes(s, i + 1)
  }

  /** The assembler after the first `i` fragments of a message, `i > 0`, the last not among them. */
  predicate Midway(a: Assembly, s: Sent, i: nat)
    requires Timely(s)
  {
    && 0 < i < |s.times| && a.tid == Some(s.message.tid) && a.index == i && a.started == s.times[0]
    && a.data == s.message.raw[..i * FRAGMENT_BYTES]
  }

  lemma FragmentFits(s: Sent, i: nat)
    requires Timely(s) && i < |s.times|
    ensures var p := Fragment(s.message, i);
            && WellFormed(p) && p[1] == s.message.tid && IndexIn(p) == i && p[4..] == Slice(s.message.raw, i)
            && (Starts(p) <==> i == 0) && (Ends(p) <==> i + 1 == |s.times|)
  {
    var p := Fragment(s.message, i);
    assert p[4..] == Slice(s.message.raw, i);
    assert (i + 1) * FRAGMENT_BYTES >= |s.message.raw| <==> i + 1 == |s.times|;
  }

  /** The next fragment of a message is taken, and the last one completes it. */
  lemma NextFragment(a: Assembly, s: Sent, i: nat)
    requires Timely(s) && i < |s.times| && (if i == 0 then a.tid.None? else Midway(a, s, i))
    ensures var (b, o) := Feed(a, Fragment(s.message, i), s.times[i]);
            if i + 1 == |s.times| then o == Done(s.message) && b.tid.None? else o == More && Midway(b, s, i + 1)
  {
    FragmentFits(s, i);
    var raw := s.message.raw;
    var end := if (i + 1) * FRAGMENT_BYTES < |raw| then (i + 1) * FRAGMENT_BYTES else |raw|;
    assert raw[..i * FRAGMENT_BYTES] + raw[i * FRAGMENT_BYTES..end] == raw[..end];
    hide Fragment, Starts, Ends, IndexIn, WellFormed;
  }

  lemma {:induction false} OneMessage(a: Assembly, s: Sent, i: nat)
    requires Timely(s) && i <= |s.times|
    requires if i == 0 || i == |s.times| then a.tid.None? else Midway(a, s, i)
    ensures FeedAll(a, Arrivals(s, i)).1 == Outcomes(s, i) && FeedAll(a, Arrivals(s, i)).0.tid.None?
    decreases |s.times| - i
  {
    if i < |s.times| {
      NextFragment(a, s, i);
      hide Feed, Fragment;
      var (b, o) := Feed(a, Fragment(s.message, i), s.times[i]);
      OneMessage(b, s, i + 1);
      assert Arrivals(s, i)[1..] == Arrivals(s, i + 1);
    }
  }

  function StreamOf(sent: seq<Sent>): seq<Arrival>
    requires forall k :: 0 <= k < |sent| ==> Timely(sent[k])
  {
    if sent == [] then [] else Arrivals(sent[0], 0) + StreamOf(sent[1..])
  }

  function OutcomesOf(sent: seq<Sent>): seq<Outcome>
    requires forall k :: 0 <= k < |sent| ==> Timely(sent[k])
  {
    if sent == [] then [] else Outcomes(sent[0], 0) + OutcomesOf(sent[1..])
  }

  lemma {:induction false} FeedAppend(a: Assembly, s: seq<Arrival>, t: seq<Arrival>)
    ensures FeedAll(a, s + t).1 == FeedAll(a, s).1 + FeedAll(FeedAll(a, s).0, t).1
    ensures FeedAll(a, s + t).0 == FeedAll(FeedAll(a, s).0, t).0
    decreases |s|
  {
    if s == [] {
      assert s + t == t;
    } else {
      hide Feed;
      assert (s + t)[1..] == s[1..] + t;
      FeedAppend(Feed(a, s[0].packet, s[0].now).0, s[1..], t);
    }
  }

  /** Feeding the fragments of any run of messages yields exactly those messages, each at its final
      fragment, whatever identifiers they carry. */
  lemma {:induction false} RoundTrip(a: Assembly, sent: seq<Sent>)
    requires a.tid.None? && forall k :: 0 <= k < |sent| ==> Timely(sent[k])
    ensures FeedAll(a, StreamOf(sent)).1 == OutcomesOf(sent)
    decreases |sent|
  {
    if sent != [] {
      OneMessage(a, sent[0], 0);
      FeedAppend(a, Arrivals(sent[0], 0), StreamOf(sent[1..]));
      RoundTrip(FeedAll(a, Arrivals(sent[0], 0)).0, sent[1..]);
    }
  }

  // ------------------------------------------------------------------------- whatever is accepted

  /** The assembler after any stream at all. */
  function After(stream: seq<Arrival>): Assembly {
    if stream == [] then NEW_ASSEMBLY
    else Feed(After(stream[..|stream| - 1]), stream[|stream| - 1].packet, stream[|stream| - 1].now).0
  }

  predicate Taken(a: Assembly, x: Arrival) { WellFormed(x.packet) && Fits(a, x.packet, x.now) }

  /** Where the packets of the latest transfer stand in the stream. */
  function Latest(stream: seq<Arrival>): seq<nat> {
    if stream == [] then []
    else
      var n := |stream| - 1;
      if !Taken(After(stream[..n]), stream[n]) then Latest(stream[..n])
      else if Starts(stream[n].packet) then [n]
      else Latest(stream[..n]) + [n]
  }

  /** Packet `x` is number `k` of a transfer begun at `started`. */
  predicate InRun(x: Arrival, k: nat, tid: Byte, started: real) {
    && WellFormed(x.packet) && x.packet[1] == tid && IndexIn(x.packet) == k
    && (Starts(x.packet) <==> k == 0) && x.now - started <= ASSEMBLY_TIMEOUT
  }

  /** `at` are positions, in order, of packets numbered from a start fragment on, with one transfer id
      and inside the window of the first. */
  predicate Unbroken(stream: seq<Arrival>, at: seq<nat>, tid: Byte) {
    && at != []
    && (forall k :: 0 <= k < |at| ==> at[k] < |stream|)
    && (forall j, k :: 0 <= j < k < |at| ==> at[j] < at[k])
    && (forall k :: 0 <= k < |at| ==> InRun(stream[at[k]], k, tid, stream[at[0]].now))
  }

  function Payload(x: Arrival): seq<Byte> { if |x.packet| >= 4 then x.packet[4..] else [] }

  function Payloads(stream: seq<Arrival>, at: seq<nat>): seq<Byte>
    requires forall k :: 0 <= k < |at| ==> at[k] < |stream|
  {
    if at == [] then [] else Payloads(stream, at[..|at| - 1]) + Payload(stream[at[|at| - 1]])
  }

  /** No packet of the run but possibly the last says that it ends the message. */
  predicate OnlyLastEnds(stream: seq<Arrival>, at: seq<nat>) {
    forall k :: 0 <= k < |at| - 1 && at[k] < |stream| ==> !Ends(stream[at[k]].packet)
  }

  lemma {:induction false} PayloadsGrow(stream: seq<Arrival>, more: Arrival, at: seq<nat>)
    requires forall k :: 0 <= k < |at| ==> at[k] < |stream|
    ensures Payloads(stream + [more], at) == Payloads(stream, at)
    decreases |at|
  {
    if at != [] {
      PayloadsGrow(stream, more, at[..|at| - 1]);
    }
  }

  lemma {:induction false} PayloadCount(stream: seq<Arrival>, at: seq<nat>, tid: Byte)
    requires forall k :: 0 <= k < |at| ==> at[k] < |stream| && WellFormed(stream[at[k]].packet)
    ensures |at| <= |Payloads(stream, at)|
    decreases |at|
  {
    if at != [] {
      PayloadCount(stream, at[..|at| - 1], tid);
    }
  }

  /** What is held of a transfer whose packets stand at `at`. */
  predicate HoldsRun(tid: Byte, data: seq<Byte>, index: nat, started: real, stream: seq<Arrival>, at: seq<nat>) {
    && Unbroken(stream, at, tid)
    && data == Payloads(stream, at) && index == |at| && started == stream[at[0]].now
    && (|data| <= MAX_JSON ==> OnlyLastEnds(stream, at) && !Ends(stream[at[|at| - 1]].packet))
  }

  /** What the assembler holds of a transfer under way. */
  predicate Holds(a: Assembly, stream: seq<Arrival>, at: seq<nat>) {
    a.tid.Some? ==> HoldsRun(a.tid.value, a.data, a.index, a.started, stream, at)
  }

  lemma RunGrows(stream: seq<Arrival>, at: seq<nat>, x: Arrival, tid: Byte)
    requires Unbroken(stream, at, tid) && InRun(x, |at|, tid, stream[at[0]].now)
    ensures Unbroken(stream + [x], at + [|stream|], tid)
  {
    hide InRun;
    var more, next := stream + [x], at + [|stream|];
    assert forall k :: 0 <= k < |at| ==> next[k] == at[k] && more[at[k]] == stream[at[k]];
  }

  lemma PayloadsTake(stream: seq<Arrival>, at: seq<nat>, x: Arrival)
    requires forall k :: 0 <= k < |at| ==> at[k] < |stream|
    ensures Payloads(stream + [x], at + [|stream|]) == Payloads(stream, at) + Payload(x)
  {
    PayloadsGrow(stream, x, at);
    assert (at + [|stream|])[..|at|] == at;
  }

  lemma EndsGrow(stream: seq<Arrival>, at: seq<nat>, x: Arrival)
    requires at != [] && forall k :: 0 <= k < |at| ==> at[k] < |stream|
    requires OnlyLastEnds(stream, at) && !Ends(stream[at[|at| - 1]].packet)
    ensures OnlyLastEnds(stream + [x], at + [|stream|])
  {
    hide Ends;
    assert forall k :: 0 <= k < |at| ==> (stream + [x])[at[k]] == stream[at[k]];
  }

  lemma RunStarts(stream: seq<Arrival>, x: Arrival)
    requires WellFormed(x.packet) && Starts(x.packet) && IndexIn(x.packet) == 0
    ensures Unbroken(stream + [x], [|stream|], x.packet[1])
    ensures OnlyLastEnds(stream + [x], [|stream|])
  {
    hide Ends, IndexIn;
    assert InRun(x, 0, x.packet[1], x.now);
    hide InRun, Starts, WellFormed;
    assert (stream + [x])[|stream|] == x;
  }

  lemma FirstPayload(stream: seq<Arrival>, x: Arrival)
    ensures Payloads(stream + [x], [|stream|]) == Payload(x)
  {
    var at: seq<nat> := [];
    PayloadsTake(stream, at, x);
    assert at + [|stream|] == [|stream|] && Payloads(stream, at) == [];
    hide Payloads, Payload;
  }

  lemma RunStays(stream: seq<Arrival>, at: seq<nat>, x: Arrival, a: Assembly)
    requires Holds(a, stream, at)
    ensures Holds(a, stream + [x], at)
  {
    if a.tid.Some? {
      PayloadsGrow(stream, x, at);
      hide InRun, Ends;
      assert forall k :: 0 <= k < |at| ==> (stream + [x])[at[k]] == stream[at[k]];
    }
  }

  lemma ContinuedRun(a: Assembly, stream: seq<Arrival>, at: seq<nat>, x: Arrival)
    requires Holds(a, stream, at) && Taken(a, x) && !Starts(x.packet)
    ensures Unbroken(stream + [x], at + [|stream|], x.packet[1])
    ensures Payloads(stream + [x], at + [|stream|]) == a.data + Payload(x)
    ensures at != [] && at[0] < |stream| && stream[at[0]].now == a.started && IndexIn(x.packet) == |at|
  {
    hide Payloads, OnlyLastEnds, Ends, IndexIn;
    assert InRun(x, |at|, x.packet[1], stream[at[0]].now);
    hide InRun, Fits, WellFormed;
    RunGrows(stream, at, x, x.packet[1]);
    PayloadsTake(stream, at, x);
  }

  lemma ContinuedEnds(a: Assembly, stream: seq<Arrival>, at: seq<nat>, x: Arrival)
    requires Holds(a, stream, at) && a.tid.Some? && |a.data| <= MAX_JSON
    ensures OnlyLastEnds(stream + [x], at + [|stream|])
  {
    hide Payloads, Ends, IndexIn;
    hide InRun;
    EndsGrow(stream, at, x);
  }

  /** The run after a packet that is taken, whatever its outcome. */
  lemma TakenRun(a: Assembly, stream: seq<Arrival>, at: seq<nat>, x: Arrival)
    requires Holds(a, stream, at) && Taken(a, x)
    ensures var to := if Starts(x.packet) then [|stream|] else at + [|stream|];
            && Unbroken(stream + [x], to, x.packet[1])
            && Payloads(stream + [x], to) == (if Starts(x.packet) then [] else a.data) + x.packet[4..]
            && |to| == IndexIn(x.packet) + 1
            && (Starts(x.packet) || |a.data| <= MAX_JSON ==> OnlyLastEnds(stream + [x], to))
            && (stream + [x])[to[0]].now == (if Starts(x.packet) then x.now else a.started)
  {
    hide Payloads, OnlyLastEnds, Unbroken, HoldsRun, IndexIn;
    if Starts(x.packet) {
      RunStarts(stream, x);
      FirstPayload(stream, x);
    } else {
      ContinuedRun(a, stream, at, x);
      if |a.data| <= MAX_JSON {
        ContinuedEnds(a, stream, at, x);
      }
    }
  }

  lemma {:induction false} AlwaysHolds(stream: seq<Arrival>)
    ensures Holds(After(stream), stream, Latest(stream))
    decreases |stream|
  {
    if stream != [] {
      var n := |stream| - 1;
      AlwaysHolds(stream[..n]);
      assert stream[..n] + [stream[n]] == stream;
      HoldsNext(After(stream[..n]), stream[..n], Latest(stream[..n]), stream[n]);
    }
  }

  lemma HoldsNext(a: Assembly, stream: seq<Arrival>, at: seq<nat>, x: Arrival)
    requires Holds(a, stream, at)
    ensures Holds(Feed(a, x.packet, x.now).0, stream + [x],
                  if !Taken(a, x) then at else if Starts(x.packet) then [|stream|] else at + [|stream|])
  {
    if Taken(a, x) {
      HoldsTaken(a, stream, at, x);
    } else {
      RunStays(stream, at, x, a);
    }
    hide Holds;
  }

  function DataWith(a: Assembly, x: Arrival): seq<Byte> { (if Starts(x.packet) then [] else a.data) + Payload(x) }

  function RunWith(stream: seq<Arrival>, at: seq<nat>, x: Arrival): seq<nat> {
    if Starts(x.packet) then [|stream|] else at + [|stream|]
  }

  lemma HeldRun(a: Assembly, stream: seq<Arrival>, at: seq<nat>, x: Arrival)
    requires Holds(a, stream, at) && Taken(a, x) && (|DataWith(a, x)| > MAX_JSON || !Ends(x.packet))
    ensures HoldsRun(x.packet[1], DataWith(a, x), IndexIn(x.packet) + 1, if Starts(x.packet) then x.now else a.started,
                     stream + [x], RunWith(stream, at, x))
  {
    TakenRun(a, stream, at, x);
    hide Unbroken, Payloads, OnlyLastEnds, IndexIn, Holds, Fits, Starts, Ends;
    var to := RunWith(stream, at, x);
    assert to[|to| - 1] == |stream| && (stream + [x])[|stream|] == x;
  }

  lemma HoldsTaken(a: Assembly, stream: seq<Arrival>, at: seq<nat>, x: Arrival)
    requires Holds(a, stream, at) && Taken(a, x)
    ensures Holds(Feed(a, x.packet, x.now).0, stream + [x], RunWith(stream, at, x))
  {
    FeedTakes(a, x);
    if |DataWith(a, x)| > MAX_JSON || !Ends(x.packet) {
      HeldRun(a, stream, at, x);
    }
    hide HoldsRun, Feed, Fits, Starts, Ends, IndexIn, DataWith, RunWith;
  }

  /** The state after a packet that is taken. */
  lemma FeedTakes(a: Assembly, x: Arrival)
    requires Taken(a, x)
    ensures var b := Feed(a, x.packet, x.now).0;
            if |DataWith(a, x)| > MAX_JSON || !Ends(x.packet) then
              b == Assembly(DataWith(a, x), Some(x.packet[1]), IndexIn(x.packet) + 1,
                            if Starts(x.packet) then x.now else a.started)
            else b.tid.None?
  {
    hide Starts, Ends, IndexIn;
  }

  lemma RunCount(stream: seq<Arrival>, at: seq<nat>, tid: Byte)
    requires Unbroken(stream, at, tid)
    ensures |at| <= |Payloads(stream, at)|
  {
    hide IndexIn;
    PayloadCount(stream, at, tid);
  }

  /** What a completed message says of the packet that completed it. */
  lemma DoneMeans(a: Assembly, x: Arrival)
    requires Feed(a, x.packet, x.now).1.Done?
    ensures Taken(a, x) && Ends(x.packet) && |DataWith(a, x)| <= MAX_JSON
    ensures Starts(x.packet) || |a.data| <= MAX_JSON
    ensures Feed(a, x.packet, x.now).1.message == Message(x.packet[1], DataWith(a, x))
  {
    hide Starts, Ends, IndexIn, Fits;
  }

  lemma LatestNext(stream: seq<Arrival>, x: Arrival)
    requires Taken(After(stream), x)
    ensures Latest(stream + [x]) == RunWith(stream, Latest(stream), x)
  {
    assert (stream + [x])[..|stream|] == stream;
  }

  /** Whatever is accepted from any stream at all is the concatenation of an unbroken run of packets:
      numbered from a start fragment, one transfer id, inside the window, ended only by the last; and
      the sixteen-bit number never wraps. */
  lemma AcceptedIsUnbroken(stream: seq<Arrival>, x: Arrival)
    requires Feed(After(stream), x.packet, x.now).1.Done?
    ensures var m, all, at := Feed(After(stream), x.packet, x.now).1.message, stream + [x], Latest(stream + [x]);
            && Unbroken(all, at, m.tid) && OnlyLastEnds(all, at)
            && at[|at| - 1] == |stream| && Ends(x.packet)
            && m.raw == Payloads(all, at) && |at| <= |m.raw| <= MAX_JSON
  {
    var a, at := After(stream), Latest(stream);
    AlwaysHolds(stream);
    DoneMeans(a, x);
    LatestNext(stream, x);
    TakenRun(a, stream, at, x);
    hide Feed, Payloads, OnlyLastEnds, Unbroken, Holds, Fits, WellFormed, IndexIn, After, Latest, Starts, Ends;
    RunCount(stream + [x], RunWith(stream, at, x), x.packet[1]);
  }
}
