/** The explicit code profiles: one encoder and one soft decoder for all twelve, and the lengths
    both ends compute from the byte count alone. */
module Coding {
  import opened Trellis
  import opened Wrappers
  import opened Puncturing
  import opened LdpcGraph
  import opened LdpcEncoder
  import Decoder = LdpcDecoder

  datatype LdpcRate = Ldpc12 | Ldpc23 | Ldpc710 | Ldpc34 | Ldpc45 | Ldpc78 | Ldpc910

  datatype FecProfile = Conv(conv: ConvRate) | Ldpc(ldpc: LdpcRate)

  function Numerator(rate: LdpcRate): nat {
    match rate
    case Ldpc12 => 1 case Ldpc23 => 2 case Ldpc710 => 7 case Ldpc34 => 3
    case Ldpc45 => 4 case Ldpc78 => 7 case Ldpc910 => 9
  }

  function Denominator(rate: LdpcRate): nat {
    match rate
    case Ldpc12 => 2 case Ldpc23 => 3 case Ldpc710 => 10 case Ldpc34 => 4
    case Ldpc45 => 5 case Ldpc78 => 8 case Ldpc910 => 10
  }

  /** `_ldpc_dimensions`: parity bits for `information` bits, rounded up and never none. */
  function ParityCount(information: nat, rate: LdpcRate): (parity: nat)
    ensures parity >= 1
    ensures parity * Numerator(rate) >= information * (Denominator(rate) - Numerator(rate))
    ensures parity > 1 ==> (parity - 1) * Numerator(rate) < information * (Denominator(rate) - Numerator(rate))
  {
    var n, d := Numerator(rate), Denominator(rate);
    var parity := (information * (d - n) + n - 1) / n;
    if parity < 1 then 1 else parity
  }

  /** The searches of the graph construction can end. */
  predicate Buildable(information: nat, rate: LdpcRate) {
    information == 0 || ParityCount(information, rate) >= 3
  }

  /** Exactly these short blocks have a graph whose construction never ends: one byte at rates 4/5
      and 7/8, and one or two bytes at rate 9/10. */
  lemma UnbuildableBlocks(byteCount: nat, rate: LdpcRate, orders: seq<seq<nat>>)
    requires Orders(orders, 8 * byteCount)
    ensures !ConstructionEnds(8 * byteCount, ParityCount(8 * byteCount, rate), orders) <==>
            (byteCount == 1 && rate in {Ldpc45, Ldpc78, Ldpc910}) || (byteCount == 2 && rate == Ldpc910)
  {
    EndsExactly(8 * byteCount, ParityCount(8 * byteCount, rate), orders);
    FewChecks(byteCount, rate);
  }

  lemma FewChecks(byteCount: nat, rate: LdpcRate)
    ensures !Buildable(8 * byteCount, rate) <==>
            (byteCount == 1 && rate in {Ldpc45, Ldpc78, Ldpc910}) || (byteCount == 2 && rate == Ldpc910)
  {
    match rate
    case Ldpc12 =>
    case Ldpc23 =>
    case Ldpc710 =>
    case Ldpc34 =>
    case Ldpc45 =>
    case Ldpc78 =>
    case Ldpc910 =>
  }

  /** `encoded_bits`: the exact transmitted length. */
  function EncodedBits(byteCount: nat, profile: FecProfile): nat {
    match profile
    case Conv(rate) => PuncturedBits(MotherBits(byteCount), rate)
    case Ldpc(rate) => 8 * byteCount + ParityCount(8 * byteCount, rate)
  }

  ghost predicate Supported(information: nat, profile: FecProfile, orders: seq<seq<nat>>) {
    profile.Ldpc? ==> Orders(orders, information) && Buildable(information, profile.ldpc)
  }

  ghost function ProfileGraph(information: nat, rate: LdpcRate, orders: seq<seq<nat>>): Graph
    requires Orders(orders, information)
  {
    GraphOf(information, ParityCount(information, rate), orders)
  }

  /** `sent` is the coded section of `bits`: the thinned convolutional code word, or the code word
      of the sparse graph that begins with them. */
  ghost predicate IsEncoding(bits: seq<bool>, profile: FecProfile, orders: seq<seq<nat>>, sent: seq<bool>)
    requires Supported(|bits|, profile, orders)
  {
    match profile
    case Conv(rate) => sent == Puncture(ConvEncoded(bits), rate)
    case Ldpc(rate) => IsCodeword(ProfileGraph(|bits|, rate, orders), sent) && sent[..|bits|] == bits
  }

  /** The length of every coded section is the one computed from the byte count. */
  lemma EncodedLength(bits: seq<bool>, byteCount: nat, profile: FecProfile, orders: seq<seq<nat>>, sent: seq<bool>)
    requires |bits| == 8 * byteCount && Supported(|bits|, profile, orders) && IsEncoding(bits, profile, orders, sent)
    ensures |sent| == EncodedBits(byteCount, profile)
  {
    if profile.Conv? {
      PuncturedBitsExact(MotherBits(byteCount), profile.conv);
    }
  }

  /** There is one coded section for each message. */
  lemma EncodingUnique(bits: seq<bool>, profile: FecProfile, orders: seq<seq<nat>>, a: seq<bool>, b: seq<bool>)
    requires Supported(|bits|, profile, orders)
    requires IsEncoding(bits, profile, orders, a) && IsEncoding(bits, profile, orders, b)
    ensures a == b
  {
    if profile.Ldpc? {
      var parity := ParityCount(|bits|, profile.ldpc);
      ConstructionValid(|bits|, parity, orders);
      CodewordUnique(GraphOf(|bits|, parity, orders), Lanes(|bits|, parity, orders, 3).checks, a, b);
    }
  }

  /** `encode_bits`. */
  method EncodeBits(bits: seq<bool>, profile: FecProfile, orders: seq<seq<nat>>) returns (sent: seq<bool>)
    requires Supported(|bits|, profile, orders)
    ensures IsEncoding(bits, profile, orders, sent)
  {
    match profile
    case Conv(rate) =>
      sent := EncodeConv(bits, rate);
    case Ldpc(rate) =>
      var parity := ParityCount(|bits|, rate);
      ConstructionValid(|bits|, parity, orders);
      var g := BuildGraph(|bits|, parity, orders);
      sent := Encode(bits, g, Lanes(|bits|, parity, orders, 3).checks);
  }

  /** `decode_soft`.  Whatever the profile and the length, every message is recovered from any
      confidences that carry the signs of its coded section. */
  method DecodeSoft(soft: seq<real>, byteCount: nat, profile: FecProfile, orders: seq<seq<nat>>)
    returns (r: Result<seq<bool>>)
    requires Supported(8 * byteCount, profile, orders)
    ensures r.Ok? <==> |soft| == EncodedBits(byteCount, profile)
    ensures forall bits: seq<bool>, sent: seq<bool> ::
              |bits| == 8 * byteCount && IsEncoding(bits, profile, orders, sent) && RightSigns(soft, sent) ==>
              r == Ok(bits)
  {
    hide ConvEncoded, Puncture, KeptCount, IsCodeword, RightSigns, GraphOf, Lanes, PuncturedBits;
    match profile {
      case Conv(rate) =>
        r := DecodeConv(soft, byteCount, rate);
        PuncturedBitsExact(MotherBits(byteCount), rate);
      case Ldpc(rate) =>
        r := DecodeLdpc(soft, 8 * byteCount, rate, orders);
    }
  }

  method DecodeLdpc(soft: seq<real>, information: nat, rate: LdpcRate, orders: seq<seq<nat>>)
    returns (r: Result<seq<bool>>)
    requires Orders(orders, information) && Buildable(information, rate)
    ensures r.Ok? <==> |soft| == information + ParityCount(information, rate)
    ensures forall sent: seq<bool> ::
              IsCodeword(ProfileGraph(information, rate, orders), sent) && RightSigns(soft, sent) ==>
              r == Ok(sent[..information])
  {
    hide Lanes, Linked;
    var parity := ParityCount(information, rate);
    ConstructionValid(information, parity, orders);
    var g := BuildGraph(information, parity, orders);
    if information == 0 {
      // The only check covers the only bit: its decision is immaterial, no data bit is returned.
      r := if |soft| == parity then Ok([]) else Err("LDPC section has the wrong length");
      return;
    }
    ghost var hard, early;
    r, hard, early := Decoder.Decode(soft, g, 48, Lanes(information, parity, orders, 3).checks);
  }
}
