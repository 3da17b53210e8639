/** Recompressing a PNG's image data: chunks are parsed and checked, the IDAT chunks become one, and
    everything else is kept.  The checksum, the decompressor and the compressor are parameters. */
module PngRewrite {
  import opened Wrappers
  import opened Framing

  type U32 = n: nat | n < 0x1_0000_0000

  const SIGNATURE: seq<Byte> := [0x89, 0x50, 0x4E, 0x47, 0x0D, 0x0A, 0x1A, 0x0A]
  const IHDR: seq<Byte> := [0x49, 0x48, 0x44, 0x52]
  const IDAT: seq<Byte> := [0x49, 0x44, 0x41, 0x54]
  const IEND: seq<Byte> := [0x49, 0x45, 0x4E, 0x44]

  /** The tools the rewrite relies on. */
  datatype Tools = Tools(crc: seq<Byte> -> U32, decompress: seq<Byte> -> Option<seq<Byte>>,
                         compress: seq<Byte> -> seq<Byte>)

  /** `struct.pack(">I", n)`. */
  function Big(n: U32): (b: seq<Byte>)
    ensures |b| == 4
  {
    [n / 256 / 256 / 256, n / 256 / 256 % 256, n / 256 % 256, n % 256]
  }

  function Number(b: seq<Byte>): U32
    requires |b| == 4
  {
    ((b[0] as int * 256 + b[1] as int) * 256 + b[2] as int) * 256 + b[3] as int
  }

  lemma NumberBig(n: U32)
    ensures Number(Big(n)) == n
  {
  }

  lemma BigNumber(b: seq<Byte>)
    requires |b| == 4
    ensures Big(Number(b)) == b
  {
    var high := b[0] as int * 256 + b[1] as int;
    LastDigit(b[0] as int, b[1]);
    LastDigit(high, b[2]);
    LastDigit(high * 256 + b[2] as int, b[3]);
  }

  lemma LastDigit(q: nat, digit: Byte)
    ensures (q * 256 + digit) / 256 == q && (q * 256 + digit) % 256 == digit
  {
  }

  // --------------------------------------------------------------------------------------- chunks

  datatype Chunk = Chunk(kind: seq<Byte>, payload: seq<Byte>)

  predicate Sized(c: Chunk) { |c.kind| == 4 && |c.payload| < 0x1_0000_0000 }

  /** `_png_chunk`: length, type, data and checksum. */
  function Raw(crc: seq<Byte> -> U32, c: Chunk): (r: seq<Byte>)
    requires Sized(c)
    ensures |r| == 12 + |c.payload|
  {
    Big(|c.payload|) + c.kind + c.payload + Big(crc(c.kind + c.payload))
  }

  /** The length a chunk at `at` announces. */
  function LengthAt(s: seq<Byte>, at: nat): U32
    requires at + 12 <= |s|
  {
    Number(s[at..at + 4])
  }

  function EndAt(s: seq<Byte>, at: nat): nat
    requires at + 12 <= |s|
  {
    at + 12 + LengthAt(s, at)
  }

  function ChunkAt(s: seq<Byte>, at: nat): (c: Chunk)
    requires at + 12 <= |s| && EndAt(s, at) <= |s|
    ensures Sized(c)
  {
    Chunk(s[at + 4..at + 8], s[at + 8..EndAt(s, at) - 4])
  }

  /** A whole chunk stands at `at`, and its checksum is right. */
  predicate GoodAt(crc: seq<Byte> -> U32, s: seq<Byte>, at: nat) {
    && at + 12 <= |s| && EndAt(s, at) <= |s|
    && crc(ChunkAt(s, at).kind + ChunkAt(s, at).payload) == Number(s[EndAt(s, at) - 4..EndAt(s, at)])
  }

  /** What is wrong where no good chunk stands. */
  function Fault(s: seq<Byte>, at: nat): string {
    if at + 12 > |s| then "truncated PNG chunk"
    else if EndAt(s, at) > |s| then "truncated PNG payload"
    else "PNG chunk CRC mismatch"
  }

  /** The chunks from `at` to the end marker or the end of the file, and where they end. */
  function Parse(crc: seq<Byte> -> U32, s: seq<Byte>, at: nat): Result<(seq<Chunk>, nat)>
    decreases if at < |s| then |s| - at else 0
  {
    if at >= |s| then Ok(([], at))
    else if !GoodAt(crc, s, at) then Err(Fault(s, at))
    else if ChunkAt(s, at).kind == IEND then Ok(([ChunkAt(s, at)], EndAt(s, at)))
    else
      var rest := Parse(crc, s, EndAt(s, at));
      if rest.Err? then rest else Ok(([ChunkAt(s, at)] + rest.value.0, rest.value.1))
  }

  predicate AllSized(cs: seq<Chunk>) { forall i :: 0 <= i < |cs| ==> Sized(cs[i]) }

  function Printed(crc: seq<Byte> -> U32, cs: seq<Chunk>): seq<Byte>
    requires AllSized(cs)
  {
    if cs == [] then [] else Raw(crc, cs[0]) + Printed(crc, cs[1..])
  }

  /** Only the last chunk, and that one, is the end marker. */
  predicate Ended(cs: seq<Chunk>) {
    cs != [] && cs[|cs| - 1].kind == IEND && forall i :: 0 <= i < |cs| - 1 ==> cs[i].kind != IEND
  }

  lemma RawAt(crc: seq<Byte> -> U32, s: seq<Byte>, at: nat)
    requires GoodAt(crc, s, at)
    ensures s[at..EndAt(s, at)] == Raw(crc, ChunkAt(s, at))
  {
    var c, end := ChunkAt(s, at), EndAt(s, at);
    BigNumber(s[at..at + 4]);
    BigNumber(s[end - 4..end]);
    assert s[at..end] == s[at..at + 4] + s[at + 4..at + 8] + s[at + 8..end - 4] + s[end - 4..end];
  }

  lemma GoodRaw(crc: seq<Byte> -> U32, before: seq<Byte>, c: Chunk, after: seq<Byte>)
    requires Sized(c)
    ensures var s := before + Raw(crc, c) + after;
            GoodAt(crc, s, |before|) && ChunkAt(s, |before|) == c && EndAt(s, |before|) == |before| + |Raw(crc, c)|
  {
    var s, at, n := before + Raw(crc, c) + after, |before|, |c.payload|;
    assert s[at..at + 4] == Big(n);
    NumberBig(n);
    assert s[at + 4..at + 8] == c.kind;
    assert s[at + 8..at + 8 + n] == c.payload;
    assert s[at + 8 + n..at + 12 + n] == Big(crc(c.kind + c.payload));
    NumberBig(crc(c.kind + c.payload));
    hide Big, Number;
  }

  lemma PrintedNext(crc: seq<Byte> -> U32, c: Chunk, cs: seq<Chunk>)
    requires Sized(c) && AllSized(cs)
    ensures AllSized([c] + cs) && Printed(crc, [c] + cs) == Raw(crc, c) + Printed(crc, cs)
  {
    hide Raw;
    assert ([c] + cs)[1..] == cs;
  }

  /** Printing what was parsed gives the bytes back, up to where parsing ended. */
  lemma {:induction false} PrintParsed(crc: seq<Byte> -> U32, s: seq<Byte>, at: nat)
    requires at <= |s| && Parse(crc, s, at).Ok?
    ensures var (cs, end) := Parse(crc, s, at).value;
            AllSized(cs) && at <= end <= |s| && s[at..end] == Printed(crc, cs)
    decreases |s| - at
  {
    if at < |s| {
      var end := EndAt(s, at);
      RawAt(crc, s, at);
      hide Raw, EndAt, ChunkAt;
      if ChunkAt(s, at).kind == IEND {
        assert Printed(crc, [ChunkAt(s, at)]) == Raw(crc, ChunkAt(s, at)) + Printed(crc, []);
      } else {
        PrintParsed(crc, s, end);
        var (cs, last) := Parse(crc, s, end).value;
        assert s[at..last] == s[at..end] + s[end..last];
        PrintedNext(crc, ChunkAt(s, at), cs);
      }
    }
  }

  /** Parsing what was printed gives the chunks back. */
  lemma {:induction false} ParsePrinted(crc: seq<Byte> -> U32, before: seq<Byte>, cs: seq<Chunk>)
    requires AllSized(cs) && Ended(cs)
    ensures Parse(crc, before + Printed(crc, cs), |before|) == Ok((cs, |before| + |Printed(crc, cs)|))
    decreases |cs|
  {
    hide Raw, GoodAt, ChunkAt, EndAt, Printed, Sized, Fault;
    GoodFirst(crc, before, cs);
    assert cs == [cs[0]] + cs[1..];
    if |cs| == 1 {
      PrintedNone(crc);
      assert cs == [cs[0]] && cs[1..] == [];
      assert |before + Raw(crc, cs[0])| == |before + Printed(crc, cs)|;
    } else {
      assert cs[0].kind != IEND;
      ParsePrinted(crc, before + Raw(crc, cs[0]), cs[1..]);
    }
  }

  lemma PrintedNone(crc: seq<Byte> -> U32)
    ensures Printed(crc, []) == []
  {
  }

  lemma GoodFirst(crc: seq<Byte> -> U32, before: seq<Byte>, cs: seq<Chunk>)
    requires AllSized(cs) && cs != []
    ensures var s := before + Printed(crc, cs);
            && GoodAt(crc, s, |before|) && ChunkAt(s, |before|) == cs[0]
            && EndAt(s, |before|) == |before + Raw(crc, cs[0])| <= |s|
            && |before| < |s| && s == before + Raw(crc, cs[0]) + Printed(crc, cs[1..])
  {
    PrintedJoins(crc, before, cs);
    GoodRaw(crc, before, cs[0], Printed(crc, cs[1..]));
    hide Raw, GoodAt, ChunkAt, EndAt, Printed;
  }

  /** What follows the chunks already printed is one more of them, and then the rest. */
  lemma PrintedJoins(crc: seq<Byte> -> U32, before: seq<Byte>, cs: seq<Chunk>)
    requires AllSized(cs) && cs != []
    ensures AllSized(cs[1..]) && Raw(crc, cs[0]) != []
    ensures before + Printed(crc, cs) == before + Raw(crc, cs[0]) + Printed(crc, cs[1..])
  {
    PrintedFirst(crc, cs);
    var first, after := Raw(crc, cs[0]), Printed(crc, cs[1..]);
    hide Raw, Printed;
    assert before + (first + after) == before + first + after;
  }

  lemma PrintedFirst(crc: seq<Byte> -> U32, cs: seq<Chunk>)
    requires AllSized(cs) && cs != []
    ensures AllSized(cs[1..]) && Printed(crc, cs) == Raw(crc, cs[0]) + Printed(crc, cs[1..])
  {
    hide Raw;
  }

  // -------------------------------------------------------------------------------------- rewriting

  /** The image data, joined over the IDAT chunks. */
  function ImageData(cs: seq<Chunk>): seq<Byte> {
    if cs == [] then []
    else ImageData(cs[..|cs| - 1]) + if cs[|cs| - 1].kind == IDAT then cs[|cs| - 1].payload else []
  }

  /** The chunks other than IDAT, in order. */
  function Others(cs: seq<Chunk>): seq<Chunk> {
    if cs == [] then []
    else Others(cs[..|cs| - 1]) + if cs[|cs| - 1].kind == IDAT then [] else [cs[|cs| - 1]]
  }

  predicate Has(cs: seq<Chunk>, kind: seq<Byte>) { exists i :: 0 <= i < |cs| && cs[i].kind == kind }

  /** One IDAT chunk where the first one stood, the others dropped, everything else as it was. */
  function Rewritten(cs: seq<Chunk>, data: seq<Byte>): seq<Chunk> {
    if cs == [] then []
    else
      var n := |cs| - 1;
      Rewritten(cs[..n], data)
      + if cs[n].kind != IDAT then [cs[n]] else if Has(cs[..n], IDAT) then [] else [Chunk(IDAT, data)]
  }

  /** A whole file: header and end marker, image data, and nothing after the end. */
  predicate WholeFile(cs: seq<Chunk>, end: nat, size: nat) {
    Has(cs, IHDR) && Has(cs, IEND) && ImageData(cs) != [] && end == size
  }

  /** `optimize_png_zopfli`. */
  function Optimized(tools: Tools, original: seq<Byte>): Result<seq<Byte>> {
    if !(SIGNATURE <= original) then Err("not a PNG stream")
    else
      var parsed := Parse(tools.crc, original, |SIGNATURE|);
      if parsed.Err? then Err(parsed.error)
      else
        var (cs, end) := parsed.value;
        if !WholeFile(cs, end, |original|) then Err("incomplete PNG stream")
        else
          var scanlines := tools.decompress(ImageData(cs));
          if scanlines.None? then Err("damaged image data")
          else
            var data := tools.compress(scanlines.value);
            if tools.decompress(data) != scanlines then Err("Zopfli changed the PNG scanline stream")
            else if |data| >= 0x1_0000_0000 then Err("chunk too long")
            else
              PrintParsed(tools.crc, original, |SIGNATURE|);
              RewrittenSized(cs, data);
              var output := SIGNATURE + Printed(tools.crc, Rewritten(cs, data));
              Ok(if |output| < |original| then output else original)
  }

  lemma {:induction false} RewrittenSized(cs: seq<Chunk>, data: seq<Byte>)
    requires AllSized(cs) && |data| < 0x1_0000_0000
    ensures AllSized(Rewritten(cs, data))
    decreases |cs|
  {
    if cs != [] {
      RewrittenSized(cs[..|cs| - 1], data);
    }
  }

  lemma {:induction false} RewrittenIs(cs: seq<Chunk>, data: seq<Byte>)
    ensures Others(Rewritten(cs, data)) == Others(cs)
    ensures ImageData(Rewritten(cs, data)) == if Has(cs, IDAT) then data else []
    ensures Has(Rewritten(cs, data), IDAT) == Has(cs, IDAT)
    decreases |cs|
  {
    if cs != [] {
      var n := |cs| - 1;
      RewrittenIs(cs[..n], data);
      HasLast(cs, IDAT);
      var shorter, all := Rewritten(cs[..n], data), Rewritten(cs, data);
      if all != shorter {
        assert all[..|all| - 1] == shorter;
        HasLast(all, IDAT);
      }
    }
  }

  lemma HasLast(cs: seq<Chunk>, kind: seq<Byte>)
    requires cs != []
    ensures Has(cs, kind) <==> Has(cs[..|cs| - 1], kind) || cs[|cs| - 1].kind == kind
  {
    if Has(cs, kind) && cs[|cs| - 1].kind != kind {
      var i :| 0 <= i < |cs| && cs[i].kind == kind;
      assert cs[..|cs| - 1][i].kind == kind;
    }
    if Has(cs[..|cs| - 1], kind) {
      var i :| 0 <= i < |cs| - 1 && cs[..|cs| - 1][i].kind == kind;
      assert cs[i].kind == kind;
    }
  }

  lemma {:induction false} RewrittenHas(cs: seq<Chunk>, data: seq<Byte>, kind: seq<Byte>)
    ensures Has(Rewritten(cs, data), kind) == Has(cs, kind)
    decreases |cs|
  {
    if cs != [] {
      var n := |cs| - 1;
      RewrittenHas(cs[..n], data, kind);
      HasLast(cs, kind);
      var shorter, all := Rewritten(cs[..n], data), Rewritten(cs, data);
      if all != shorter {
        assert all[..|all| - 1] == shorter;
        HasLast(all, kind);
      }
    }
  }

  /** Chunks before the last are not end markers. */
  predicate EndsOnce(cs: seq<Chunk>) { forall i :: 0 <= i < |cs| - 1 ==> cs[i].kind != IEND }

  lemma {:induction false} ParsedEndsOnce(crc: seq<Byte> -> U32, s: seq<Byte>, at: nat)
    requires Parse(crc, s, at).Ok?
    ensures EndsOnce(Parse(crc, s, at).value.0)
    decreases if at < |s| then |s| - at else 0
  {
    hide ChunkAt, EndAt, Fault;
    if at < |s| && GoodAt(crc, s, at) && ChunkAt(s, at).kind != IEND {
      EndAfter(s, at);
      ParsedEndsOnce(crc, s, EndAt(s, at));
    }
  }

  lemma EndAfter(s: seq<Byte>, at: nat)
    requires at + 12 <= |s|
    ensures EndAt(s, at) > at
  {
  }

  lemma EndedChunks(cs: seq<Chunk>)
    requires EndsOnce(cs) && Has(cs, IEND)
    ensures Ended(cs)
  {
    var i :| 0 <= i < |cs| && cs[i].kind == IEND;
  }

  /** The rewritten chunks end as the original ones do. */
  lemma RewrittenEnded(cs: seq<Chunk>, data: seq<Byte>)
    requires Ended(cs)
    ensures Ended(Rewritten(cs, data))
  {
    var n := |cs| - 1;
    assert forall i :: 0 <= i < n ==> cs[..n][i].kind == cs[i].kind;
    RewrittenHas(cs[..n], data, IEND);
    var rest, all := Rewritten(cs[..n], data), Rewritten(cs, data);
    assert all == rest + [cs[n]];
    assert forall i :: 0 <= i < |rest| ==> all[i] == rest[i];
  }

  lemma {:induction false} SomeImage(cs: seq<Chunk>)
    requires ImageData(cs) != []
    ensures Has(cs, IDAT)
    decreases |cs|
  {
    HasLast(cs, IDAT);
    if cs[|cs| - 1].kind != IDAT {
      SomeImage(cs[..|cs| - 1]);
    }
  }

  /** What the accepted file holds. */
  predicate Holds(tools: Tools, s: seq<Byte>, cs: seq<Chunk>, scanlines: seq<Byte>) {
    && SIGNATURE <= s && Parse(tools.crc, s, |SIGNATURE|) == Ok((cs, |s|)) && WholeFile(cs, |s|, |s|)
    && tools.decompress(ImageData(cs)) == Some(scanlines)
  }

  /** The chunks of a file that holds them, printed after the signature, are the file. */
  lemma HeldChunks(tools: Tools, s: seq<Byte>, cs: seq<Chunk>, scanlines: seq<Byte>)
    requires Holds(tools, s, cs, scanlines)
    ensures AllSized(cs) && Ended(cs) && Has(cs, IDAT) && s == SIGNATURE + Printed(tools.crc, cs)
  {
    hide Parse, Printed, Ended, EndsOnce, Has;
    PrintParsed(tools.crc, s, |SIGNATURE|);
    ParsedEndsOnce(tools.crc, s, |SIGNATURE|);
    EndedChunks(cs);
    SomeImage(cs);
    assert s == s[..8] + s[8..|s|];
  }

  lemma RewrittenWhole(cs: seq<Chunk>, data: seq<Byte>, n: nat, m: nat)
    requires WholeFile(cs, n, n) && data != []
    ensures WholeFile(Rewritten(cs, data), m, m) && ImageData(Rewritten(cs, data)) == data
  {
    hide Rewritten, Has;
    SomeImage(cs);
    RewrittenIs(cs, data);
    RewrittenHas(cs, data, IHDR);
    RewrittenHas(cs, data, IEND);
  }

  lemma PrintedFile(crc: seq<Byte> -> U32, cs: seq<Chunk>)
    requires AllSized(cs) && Ended(cs)
    ensures var s := SIGNATURE + Printed(crc, cs); SIGNATURE <= s && Parse(crc, s, |SIGNATURE|) == Ok((cs, |s|))
  {
    hide Parse, Printed, AllSized, Ended;
    FileParsed(crc, SIGNATURE, cs);
  }

  lemma FileParsed(crc: seq<Byte> -> U32, start: seq<Byte>, cs: seq<Chunk>)
    requires AllSized(cs) && Ended(cs)
    ensures start <= start + Printed(crc, cs)
    ensures Parse(crc, start + Printed(crc, cs), |start|) == Ok((cs, |start + Printed(crc, cs)|))
  {
    hide Parse, Printed, AllSized, Ended;
    ParsePrinted(crc, start, cs);
  }

  /** The recompressed file is accepted: its chunks parse, with their lengths and checksums, and hold the
      same scanlines. */
  lemma RewrittenHolds(tools: Tools, s: seq<Byte>, cs: seq<Chunk>, scanlines: seq<Byte>)
    requires Holds(tools, s, cs, scanlines)
    requires var data := tools.compress(scanlines);
             tools.decompress(data) == Some(scanlines) && data != [] && |data| < 0x1_0000_0000
    ensures var to := Rewritten(cs, tools.compress(scanlines));
            && AllSized(to) && Holds(tools, SIGNATURE + Printed(tools.crc, to), to, scanlines)
            && Others(to) == Others(cs)
  {
    var data := tools.compress(scanlines);
    var to := Rewritten(cs, data);
    HeldChunks(tools, s, cs, scanlines);
    hide Parse, Printed, Rewritten, Ended, Has, Others, ImageData, WholeFile, AllSized;
    RewrittenSized(cs, data);
    RewrittenEnded(cs, data);
    RewrittenIs(cs, data);
    RewrittenWhole(cs, data, |s|, |SIGNATURE + Printed(tools.crc, to)|);
    PrintedFile(tools.crc, to);
  }

  /** What the rewrite returns for a file that holds `cs`. */
  lemma OptimizedIs(tools: Tools, s: seq<Byte>, cs: seq<Chunk>, scanlines: seq<Byte>)
    requires Holds(tools, s, cs, scanlines)
    requires var data := tools.compress(scanlines);
             tools.decompress(data) == Some(scanlines) && |data| < 0x1_0000_0000
    ensures AllSized(Rewritten(cs, tools.compress(scanlines)))
    ensures var output := SIGNATURE + Printed(tools.crc, Rewritten(cs, tools.compress(scanlines)));
            Optimized(tools, s) == Ok(if |output| < |s| then output else s)
  {
    HeldChunks(tools, s, cs, scanlines);
    RewrittenSized(cs, tools.compress(scanlines));
    hide Parse, Printed, Rewritten, Ended, Has, ImageData, WholeFile, AllSized;
  }

  /** What an accepted file holds. */
  lemma AcceptedHolds(tools: Tools, s: seq<Byte>) returns (cs: seq<Chunk>, scanlines: seq<Byte>)
    requires Optimized(tools, s).Ok?
    ensures Holds(tools, s, cs, scanlines)
    ensures tools.decompress(tools.compress(scanlines)) == Some(scanlines)
            && |tools.compress(scanlines)| < 0x1_0000_0000
  {
    hide Parse, Printed, Rewritten, Has, ImageData;
    cs := Parse(tools.crc, s, |SIGNATURE|).value.0;
    scanlines := tools.decompress(ImageData(cs)).value;
  }

  /** The rewrite of an accepted file: no longer than the input, parsed again with right lengths and
      checksums, the same other chunks in the same order, image data with the same scanlines; and a second
      rewrite changes nothing. */
  lemma RewriteSound(tools: Tools, original: seq<Byte>)
    returns (before: seq<Chunk>, after: seq<Chunk>, scanlines: seq<Byte>)
    requires tools.decompress([]).None?
    requires Optimized(tools, original).Ok?
    ensures var out := Optimized(tools, original).value;
            && |out| <= |original|
            && Holds(tools, original, before, scanlines) && Holds(tools, out, after, scanlines)
            && Others(after) == Others(before)
            && Optimized(tools, out) == Ok(out)
  {
    before, scanlines := AcceptedHolds(tools, original);
    var data := tools.compress(scanlines);
    var to := Rewritten(before, data);
    hide Parse, Printed, Rewritten, Holds, AllSized, Others, Optimized;
    OptimizedIs(tools, original, before, scanlines);
    RewrittenHolds(tools, original, before, scanlines);
    var output := SIGNATURE + Printed(tools.crc, to);
    if |output| < |original| {
      after := to;
      OptimizedIs(tools, output, to, scanlines);
      RewrittenTwice(before, data);
    } else {
      after := before;
    }
  }

  lemma {:induction false} RewrittenTwice(cs: seq<Chunk>, data: seq<Byte>)
    ensures Rewritten(Rewritten(cs, data), data) == Rewritten(cs, data)
    decreases |cs|
  {
    if cs != [] {
      var n := |cs| - 1;
      RewrittenTwice(cs[..n], data);
      RewrittenHas(cs[..n], data, IDAT);
      var shorter, all := Rewritten(cs[..n], data), Rewritten(cs, data);
      if all != shorter {
        assert all[..|all| - 1] == shorter;
      }
    }
  }

  // ---------------------------------------------------------------------------------- as it is written

  /** The walk over the chunks. */
  method ReadChunks(tools: Tools, original: seq<Byte>)
    returns (chunks: seq<Chunk>, data: seq<Byte>, position: nat, error: Option<string>)
    requires |SIGNATURE| <= |original|
    ensures error.None? ==>
              Parse(tools.crc, original, |SIGNATURE|) == Ok((chunks, position)) && data == ImageData(chunks)
    ensures error.Some? ==> Parse(tools.crc, original, |SIGNATURE|) == Err(error.value)
  {
    chunks, data, position, error := [], [], |SIGNATURE|, None;
    PrependedNone(Parse(tools.crc, original, position));
    while position < |original|
      invariant |SIGNATURE| <= position <= |original| && error.None?
      invariant data == ImageData(chunks)
      invariant Parse(tools.crc, original, |SIGNATURE|)
                == Prepended(chunks, Parse(tools.crc, original, position))
    {
      hide GoodAt, ChunkAt, EndAt, Fault, ImageData;
      ParseNext(tools.crc, original, position);
      if !GoodAt(tools.crc, original, position) {
        return chunks, data, position, Some(Fault(original, position));
      }
      EndInside(tools.crc, original, position);
      var c := ChunkAt(original, position);
      PrependedTwice(chunks, c, Parse(tools.crc, original, EndAt(original, position)));
      ImageDataNext(chunks, c);
      if c.kind == IDAT {
        data := data + c.payload;
      }
      position := EndAt(original, position);
      chunks := chunks + [c];
      if c.kind == IEND { return; }
    }
    assert chunks + [] == chunks;
  }

  /** Chunks already read in front of what is left to parse. */
  function Prepended(cs: seq<Chunk>, rest: Result<(seq<Chunk>, nat)>): Result<(seq<Chunk>, nat)> {
    if rest.Err? then rest else Ok((cs + rest.value.0, rest.value.1))
  }

  lemma PrependedNone(rest: Result<(seq<Chunk>, nat)>)
    ensures Prepended([], rest) == rest
  {
    if rest.Ok? {
      assert [] + rest.value.0 == rest.value.0;
    }
  }

  lemma PrependedTwice(cs: seq<Chunk>, c: Chunk, rest: Result<(seq<Chunk>, nat)>)
    ensures Prepended(cs, Prepended([c], rest)) == Prepended(cs + [c], rest)
  {
    if rest.Ok? {
      assert cs + ([c] + rest.value.0) == cs + [c] + rest.value.0;
    }
  }

  lemma ParseNext(crc: seq<Byte> -> U32, s: seq<Byte>, at: nat)
    requires at < |s|
    ensures Parse(crc, s, at)
            == if !GoodAt(crc, s, at) then Err(Fault(s, at))
               else if ChunkAt(s, at).kind == IEND then Ok(([ChunkAt(s, at)], EndAt(s, at)))
               else Prepended([ChunkAt(s, at)], Parse(crc, s, EndAt(s, at)))
  {
  }

  lemma EndInside(crc: seq<Byte> -> U32, s: seq<Byte>, at: nat)
    requires GoodAt(crc, s, at)
    ensures at < EndAt(s, at) <= |s|
  {
  }

  lemma ImageDataNext(cs: seq<Chunk>, c: Chunk)
    ensures ImageData(cs + [c]) == ImageData(cs) + if c.kind == IDAT then c.payload else []
  {
    assert (cs + [c])[..|cs|] == cs;
  }

  /** The output loop. */
  method WriteChunks(tools: Tools, chunks: seq<Chunk>, data: seq<Byte>) returns (output: seq<Byte>)
    requires AllSized(chunks) && |data| < 0x1_0000_0000
    ensures AllSized(Rewritten(chunks, data)) && output == SIGNATURE + Printed(tools.crc, Rewritten(chunks, data))
  {
    hide Rewritten, Has, Printed, Raw;
    output := SIGNATURE;
    WriteStart(tools.crc, chunks, data);
    var wrote := false;
    ghost var done: seq<Chunk> := [];
    var i := 0;
    while i < |chunks|
      invariant 0 <= i <= |chunks|
      invariant done == Rewritten(chunks[..i], data) && AllSized(done)
      invariant wrote == Has(chunks[..i], IDAT)
      invariant output == SIGNATURE + Printed(tools.crc, done)
    {
      var c := chunks[i];
      WriteNext(chunks, i, data);
      if c.kind != IDAT {
        PrintedLast(tools.crc, done, c);
        output, done := output + Raw(tools.crc, c), done + [c];
      } else if !wrote {
        PrintedLast(tools.crc, done, Chunk(IDAT, data));
        output, done := output + Raw(tools.crc, Chunk(IDAT, data)), done + [Chunk(IDAT, data)];
        wrote := true;
      }
      i := i + 1;
    }
    assert chunks[..i] == chunks;
  }

  lemma WriteStart(crc: seq<Byte> -> U32, cs: seq<Chunk>, data: seq<Byte>)
    ensures Rewritten(cs[..0], data) == [] && !Has(cs[..0], IDAT) && SIGNATURE + Printed(crc, []) == SIGNATURE
  {
  }

  lemma WriteNext(cs: seq<Chunk>, i: nat, data: seq<Byte>)
    requires i < |cs|
    ensures Rewritten(cs[..i + 1], data) == Rewritten(cs[..i], data)
            + if cs[i].kind != IDAT then [cs[i]] else if Has(cs[..i], IDAT) then [] else [Chunk(IDAT, data)]
    ensures Has(cs[..i + 1], IDAT) <==> Has(cs[..i], IDAT) || cs[i].kind == IDAT
  {
    assert cs[..i + 1][..i] == cs[..i];
    HasLast(cs[..i + 1], IDAT);
  }

  lemma {:induction false} PrintedLast(crc: seq<Byte> -> U32, cs: seq<Chunk>, c: Chunk)
    requires AllSized(cs) && Sized(c)
    ensures AllSized(cs + [c]) && Printed(crc, cs + [c]) == Printed(crc, cs) + Raw(crc, c)
    decreases |cs|
  {
    hide Raw, Sized;
    if cs == [] {
      assert [c][1..] == [];
    } else {
      PrintedLast(crc, cs[1..], c);
      assert (cs + [c])[1..] == cs[1..] + [c];
    }
  }

  /** `optimize_png_zopfli`. */
  method OptimizePng(tools: Tools, original: seq<Byte>) returns (r: Result<seq<Byte>>)
    ensures r == Optimized(tools, original)
  {
    if !(SIGNATURE <= original) { return Err("not a PNG stream"); }
    var chunks, data, position, error := ReadChunks(tools, original);
    if error.Some? { return Err(error.value); }
    if !(Has(chunks, IHDR) && Has(chunks, IEND)) || data == [] || position != |original| {
      return Err("incomplete PNG stream");
    }
    hide Parse, Rewritten, Printed, ImageData, Has;
    var scanlines := tools.decompress(data);
    if scanlines.None? { return Err("damaged image data"); }
    var compressed := tools.compress(scanlines.value);
    if tools.decompress(compressed) != scanlines { return Err("Zopfli changed the PNG scanline stream"); }
    if |compressed| >= 0x1_0000_0000 { return Err("chunk too long"); }
    PrintParsed(tools.crc, original, |SIGNATURE|);
    var output := WriteChunks(tools, chunks, compressed);
    r := Ok(if |output| < |original| then output else original);
  }
}
