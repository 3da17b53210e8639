/** The rate controller of one directed path: modulation, code rate and burst size, moved by delivery
    reports.  Signal quality is measured in reals. */
module Adaptation {
  import opened Wrappers
  import opened Coding
  import opened Puncturing

  // --------------------------------------------------------------------------------------- tables

  /** An index `sc_mcs` knows: an entry of `SC_MCS_TABLE`. */
  type Mcs = m: nat | m < 21

  /** `sc_mcs(index).bits_per_symbol`. */
  function Bits(mcs: Mcs): (b: real)
    ensures b >= 1.0
  {
    [1.0, 2.0, 4.0, 6.0, 8.0, 4.0, 5.0, 3.0, 5.0, 6.0, 7.0, 7.0, 8.0, 9.0, 9.0, 10.0, 4.0, 6.0, 8.0, 10.0, 5.375][mcs]
  }

  /** `sc_mcs(index).min_snr_db`. */
  function MinSnr(mcs: Mcs): real
  {
    [3.0, 3.0, 10.5, 15.5, 24.0, 11.0, 15.0, 7.0, 14.0, 17.0, 20.5, 21.0, 25.0, 29.0, 30.0, 34.0,
     10.5, 15.5, 24.0, 34.0, 15.0][mcs]
  }

  /** `fec_spec(fec).rate`. */
  function CodeRate(fec: FecProfile): (r: real)
    ensures 0.5 <= r <= 0.9
  {
    match fec
    case Conv(Rate12) => 0.5
    case Conv(Rate23) => 2.0 / 3.0
    case Conv(Rate34) => 0.75
    case Conv(Rate56) => 5.0 / 6.0
    case Conv(Rate78) => 0.875
    case Ldpc(rate) => Numerator(rate) as real / Denominator(rate) as real
  }

  /** `fec_snr_margin_db`. */
  function FecMargin(fec: FecProfile): real { 14.0 * (CodeRate(fec) - 0.5) }

  const BURST_LADDER: seq<nat> := [256, 512, 1024, 2048, 4096, 8192, 16384]

  const CONV_LADDER: seq<FecProfile> := [Conv(Rate12), Conv(Rate23), Conv(Rate34), Conv(Rate56), Conv(Rate78)]

  const LDPC_LADDER: seq<FecProfile> :=
    [Ldpc(Ldpc12), Ldpc(Ldpc23), Ldpc(Ldpc710), Ldpc(Ldpc34), Ldpc(Ldpc45), Ldpc(Ldpc78), Ldpc(Ldpc910)]

  function Least(a: nat, b: nat): nat { if a <= b then a else b }

  function Most(a: nat, b: nat): nat { if a <= b then b else a }

  function IndexOf<T(==)>(s: seq<T>, x: T): (i: nat)
    requires x in s
    ensures i < |s| && s[i] == x
  {
    if s[0] == x then 0 else 1 + IndexOf(s[1..], x)
  }

  /** The position of a modulation on the ladder, 0 when it is not there. */
  function Position(ladder: seq<Mcs>, mcs: Mcs): nat { if mcs in ladder then IndexOf(ladder, mcs) else 0 }

  /** Distinct table entries whose density never falls along the ladder. */
  ghost predicate Ascending(ladder: seq<Mcs>) {
    && ladder != []
    && (forall i, j :: 0 <= i < j < |ladder| ==> ladder[i] != ladder[j] && Bits(ladder[i]) <= Bits(ladder[j]))
  }

  // ---------------------------------------------------------------------------------------- state

  datatype Config = Config(
    adaptiveFec: bool, modernLdpc: bool, fixedFec: FecProfile, initialFec: Option<FecProfile>,
    adaptiveBurst: bool, fixedBurst: nat, minBurst: nat, maxBurst: nat, initialBurst: Option<nat>, arqBlock: nat,
    cleanBursts: nat, lossCooldown: nat, alpha: real, rapid: bool)

  /** `AdaptationConfig.__post_init__`. */
  predicate Accepted(cfg: Config) {
    && cfg.arqBlock in BURST_LADDER && cfg.minBurst in BURST_LADDER && cfg.maxBurst in BURST_LADDER
    && cfg.minBurst <= cfg.maxBurst && cfg.fixedBurst in BURST_LADDER
    && cfg.arqBlock <= cfg.minBurst && cfg.arqBlock <= cfg.fixedBurst
    && (cfg.initialBurst.Some? ==>
          cfg.initialBurst.value in BURST_LADDER && cfg.minBurst <= cfg.initialBurst.value <= cfg.maxBurst)
    && cfg.cleanBursts >= 1 && 0.0 < cfg.alpha <= 1.0
  }

  function FecLadder(cfg: Config): seq<FecProfile> { if cfg.modernLdpc then LDPC_LADDER else CONV_LADDER }

  /** The codes the controller may choose from. */
  function Fecs(cfg: Config): seq<FecProfile> { if cfg.adaptiveFec then FecLadder(cfg) else [cfg.fixedFec] }

  datatype TxProfile = TxProfile(mcs: Mcs, fec: FecProfile, burst: nat, arq: nat)

  datatype Quality = Quality(snr: real, evm: real)

  /** One bounded experiment at a time: where it came from, and the quality measured there. */
  datatype Probe = Probe(
    fecFrom: Option<FecProfile>, mcsFrom: Option<Mcs>, baseline: Option<TxProfile>, quality: Option<Quality>)

  const NO_PROBE := Probe(None, None, None, None)

  /** What a path has taught: failed trials, quality by profile, and window ceilings. */
  datatype Learned = Learned(
    rejections: map<(Mcs, FecProfile, Mcs, FecProfile), Quality>,
    quality: map<(Mcs, FecProfile), Quality>,
    ceiling: map<(Mcs, FecProfile), (nat, Quality)>,
    ceilingClean: map<(Mcs, FecProfile), nat>)

  datatype Meters = Meters(mcs: Option<Mcs>, snr: Option<real>, evm: Option<real>, latestSnr: Option<real>)

  datatype Dimension = ByMcs | ByFec

  datatype Upgrade = FecNext | BurstNext

  /** `mcs`, `fec` and `burst` are the current choices; `streak`, `cooldown` and `upgrade` belong to
      the incremental policy, the rest to the capacity policy. */
  datatype Controller = Controller(
    cfg: Config, mcs: Mcs, fec: FecProfile, burst: nat, meters: Meters,
    streak: nat, cooldown: nat, upgrade: Upgrade,
    probe: Probe, learned: Learned, dimension: Dimension, lossCooldown: nat)

  datatype Report = Report(
    sent: nat, acked: nat, retransmitted: nat, unique: nat, elapsed: real,
    snr: Option<real>, evm: Option<real>, mcs: Option<Mcs>, remaining: Option<nat>)

  /** `__post_init__`. */
  function Init(cfg: Config, mcs: Mcs): Controller {
    var fec := if !cfg.adaptiveFec then cfg.fixedFec
               else if cfg.initialFec.Some? then cfg.initialFec.value
               else if cfg.modernLdpc then Ldpc(Ldpc12) else Conv(Rate12);
    var burst := if !cfg.adaptiveBurst then cfg.fixedBurst
                 else Least(if cfg.initialBurst.Some? then cfg.initialBurst.value else Most(cfg.minBurst, 2048),
                            cfg.maxBurst);
    Controller(cfg, mcs, fec, burst, Meters(None, None, None, None), 0, 0, FecNext,
               NO_PROBE, Learned(map[], map[], map[], map[]), ByMcs, 0)
  }

  /** `profile`. */
  function Profile(c: Controller): TxProfile {
    var burst := if c.cfg.adaptiveBurst then c.burst else c.cfg.fixedBurst;
    TxProfile(c.mcs, if c.cfg.adaptiveFec then c.fec else c.cfg.fixedFec,
              if c.probe.fecFrom.Some? || c.probe.mcsFrom.Some? then Least(burst, Most(2048, c.cfg.arqBlock))
              else burst,
              c.cfg.arqBlock)
  }

  /** Information bits per symbol. */
  function Density(mcs: Mcs, fec: FecProfile): (d: real)
    ensures d > 0.0
  {
    Bits(mcs) * CodeRate(fec)
  }

  // ---------------------------------------------------------------------------------------- bursts

  function Allowed(cfg: Config, sizes: seq<nat>): seq<nat> {
    if sizes == [] then []
    else (if cfg.minBurst <= sizes[0] <= cfg.maxBurst then [sizes[0]] else []) + Allowed(cfg, sizes[1..])
  }

  /** `_allowed_bursts`. */
  function AllowedBursts(cfg: Config): seq<nat> { Allowed(cfg, BURST_LADDER) }

  function FirstAtLeast(sizes: seq<nat>, target: nat, otherwise: nat): nat {
    if sizes == [] then otherwise
    else if sizes[0] >= target then sizes[0]
    else FirstAtLeast(sizes[1..], target, otherwise)
  }

  predicate InRange(cfg: Config, burst: nat) { burst in BURST_LADDER && cfg.minBurst <= burst <= cfg.maxBurst }

  lemma {:induction false} AllowedAre(cfg: Config, sizes: seq<nat>, b: nat)
    ensures b in Allowed(cfg, sizes) <==> b in sizes && cfg.minBurst <= b <= cfg.maxBurst
  {
    if sizes != [] {
      AllowedAre(cfg, sizes[1..], b);
      assert sizes == [sizes[0]] + sizes[1..];
    }
  }

  lemma {:induction false} FirstAtLeastIn(sizes: seq<nat>, target: nat, otherwise: nat)
    ensures FirstAtLeast(sizes, target, otherwise) in sizes || FirstAtLeast(sizes, target, otherwise) == otherwise
  {
    if sizes != [] {
      FirstAtLeastIn(sizes[1..], target, otherwise);
    }
  }

  /** A size fitted to the allowed bursts is on the ladder and in range. */
  lemma FittedInRange(cfg: Config, target: nat)
    requires Accepted(cfg)
    ensures InRange(cfg, FirstAtLeast(AllowedBursts(cfg), target, cfg.maxBurst))
  {
    var b := FirstAtLeast(AllowedBursts(cfg), target, cfg.maxBurst);
    FirstAtLeastIn(AllowedBursts(cfg), target, cfg.maxBurst);
    AllowedAre(cfg, BURST_LADDER, b);
  }

  // --------------------------------------------------------------------------- what is measured

  function Ewma(cfg: Config, before: Option<real>, value: real): real {
    if before.None? then value else before.value + cfg.alpha * (value - before.value)
  }

  function Averaged(cfg: Config, before: Option<real>, value: Option<real>): Option<real> {
    if value.None? then before else Some(Ewma(cfg, before, value.value))
  }

  /** The measuring part of `report_burst`: another constellation starts a new average. */
  function Metered(cfg: Config, m: Meters, r: Report): Meters {
    var n := if cfg.rapid && r.mcs.Some? && r.mcs != m.mcs then Meters(r.mcs, None, None, None) else m;
    Meters(n.mcs, Averaged(cfg, n.snr, r.snr), Averaged(cfg, n.evm, r.evm), r.snr)
  }

  /** `measured`: both figures are there and sensible. */
  function Measured(r: Report): Option<Quality> {
    if r.snr.Some? && r.evm.Some? && r.snr.value > 0.0 && 0.0 < r.evm.value < 1.0 then
      Some(Quality(r.snr.value, r.evm.value))
    else None
  }

  /** The fixed part of the admission table of `_fec_upgrade_allowed`. */
  function RequiredSnr(fec: FecProfile): real {
    match fec
    case Ldpc(Ldpc12) => 0.0
    case Ldpc(Ldpc23) => 8.0
    case Ldpc(Ldpc710) => 11.0
    case Ldpc(Ldpc34) => 14.0
    case Ldpc(Ldpc45) => 16.5
    case Ldpc(Ldpc78) => 23.0
    case Ldpc(Ldpc910) => 28.0
    case Conv(_) => 99.0
  }

  function PermittedEvm(fec: FecProfile): Option<real> {
    if fec == Ldpc(Ldpc45) then Some(0.16)
    else if fec == Ldpc(Ldpc78) then Some(0.09)
    else if fec == Ldpc(Ldpc910) then Some(0.06)
    else None
  }

  /** The measured margin `rapid_acquisition` asks for. */
  predicate RapidMargin(c: Controller, fec: FecProfile) {
    && c.meters.snr.Some?
    && (var required := MinSnr(c.mcs) + 1.5 + FecMargin(fec);
        c.meters.snr.value >= required && (c.meters.latestSnr.Some? ==> c.meters.latestSnr.value >= required))
  }

  /** `_fec_upgrade_allowed`. */
  predicate UpgradeAllowed(c: Controller, fec: FecProfile) {
    !c.cfg.modernLdpc ||
    ((c.cfg.rapid ==> RapidMargin(c, fec))
     && (if c.meters.snr.None? then PermittedEvm(fec).None?
         else && c.meters.snr.value >= RequiredSnr(fec)
              && (PermittedEvm(fec).None? || c.meters.evm.None? || c.meters.evm.value <= PermittedEvm(fec).value)))
  }

  // --------------------------------------------------------------------------- what always holds

  /** Every lookup of the current choices on its ladder succeeds. */
  predicate OnLadders(c: Controller, ladder: seq<Mcs>) {
    && c.mcs in ladder && c.fec in Fecs(c.cfg)
    && (c.cfg.adaptiveBurst ==> InRange(c.cfg, c.burst))
  }

  /** A baseline is remembered exactly while a probe-from field is set, and lies on the ladders. */
  predicate ProbeSound(c: Controller, ladder: seq<Mcs>) {
    && (c.probe.baseline.Some? <==> c.probe.fecFrom.Some? || c.probe.mcsFrom.Some?)
    && (c.probe.baseline.Some? ==>
          c.probe.baseline.value.mcs in ladder && c.probe.baseline.value.fec in Fecs(c.cfg))
  }

  ghost predicate Valid(c: Controller, ladder: seq<Mcs>) {
    Accepted(c.cfg) && Ascending(ladder) && OnLadders(c, ladder) && ProbeSound(c, ladder)
  }

  /** The constructor leaves every choice on its ladder exactly when the initial code of an adaptive
      controller, if one is given, belongs to the family it adapts in. */
  lemma InitValid(cfg: Config, mcs: Mcs, ladder: seq<Mcs>)
    requires Accepted(cfg) && Ascending(ladder) && mcs in ladder
    ensures Valid(Init(cfg, mcs), ladder) <==>
            (cfg.adaptiveFec && cfg.initialFec.Some? ==> cfg.initialFec.value in FecLadder(cfg))
  {
  }

  // ------------------------------------------------------------------------- the incremental policy

  /** `_downgrade`: one code step down, or one burst step. */
  function Downgrade(c: Controller): Controller
    requires c.fec in Fecs(c.cfg) && (c.cfg.adaptiveBurst ==> c.burst in AllowedBursts(c.cfg))
  {
    if c.cfg.adaptiveFec && IndexOf(FecLadder(c.cfg), c.fec) > 0 then
      c.(fec := FecLadder(c.cfg)[IndexOf(FecLadder(c.cfg), c.fec) - 1], upgrade := FecNext)
    else if c.cfg.adaptiveBurst && IndexOf(AllowedBursts(c.cfg), c.burst) > 0 then
      c.(burst := AllowedBursts(c.cfg)[IndexOf(AllowedBursts(c.cfg), c.burst) - 1], upgrade := FecNext)
    else c.(upgrade := FecNext)
  }

  /** The next code up, if the ladder has one and the measured margin admits it. */
  function NextFec(c: Controller): Option<FecProfile>
    requires c.fec in Fecs(c.cfg)
  {
    if c.cfg.adaptiveFec && IndexOf(FecLadder(c.cfg), c.fec) + 1 < |FecLadder(c.cfg)|
       && UpgradeAllowed(c, FecLadder(c.cfg)[IndexOf(FecLadder(c.cfg), c.fec) + 1]) then
      Some(FecLadder(c.cfg)[IndexOf(FecLadder(c.cfg), c.fec) + 1])
    else None
  }

  /** `_upgrade`: code and burst take turns. */
  function Upgraded(c: Controller): Controller
    requires c.fec in Fecs(c.cfg) && (c.cfg.adaptiveBurst ==> c.burst in AllowedBursts(c.cfg))
  {
    var next := NextFec(c);
    if c.upgrade.FecNext? && next.Some? then c.(fec := next.value, upgrade := BurstNext)
    else if c.cfg.adaptiveBurst && IndexOf(AllowedBursts(c.cfg), c.burst) + 1 < |AllowedBursts(c.cfg)| then
      c.(burst := AllowedBursts(c.cfg)[IndexOf(AllowedBursts(c.cfg), c.burst) + 1], upgrade := FecNext)
    else if next.Some? then c.(fec := next.value, upgrade := BurstNext)
    else c.(upgrade := BurstNext)
  }

  /** Quality that lets an acquiring link take the whole window at once. */
  predicate WindowEarned(c: Controller, r: Report) {
    && c.cfg.rapid && c.cfg.adaptiveBurst && r.retransmitted == 0 && r.unique >= 512
    && r.snr.Some? && r.snr.value >= 10.0 && r.evm.Some? && r.evm.value <= 0.25
  }

  predicate FecEvidence(c: Controller, r: Report) {
    && c.cfg.rapid && c.cfg.modernLdpc && r.retransmitted == 0 && r.unique >= 2048
    && r.snr.Some? && r.snr.value >= 13.0 && r.evm.Some? && r.evm.value <= 0.18
  }

  /** The clean branch of `report_burst`. */
  function CleanBurst(c: Controller, r: Report): Controller
    requires c.fec in Fecs(c.cfg) && (c.cfg.adaptiveBurst ==> c.burst in AllowedBursts(c.cfg))
    requires c.cfg.maxBurst in AllowedBursts(c.cfg)
  {
    var d := c.(burst := if WindowEarned(c, r) then c.cfg.maxBurst else c.burst, streak := c.streak + 1);
    var threshold := if FecEvidence(c, r) then Least(c.cfg.cleanBursts, 2) else c.cfg.cleanBursts;
    if d.streak < threshold then d
    else if FecEvidence(c, r) && c.cfg.adaptiveFec && d.fec == Ldpc(Ldpc12) && UpgradeAllowed(d, Ldpc(Ldpc34)) then
      d.(streak := 0, fec := Ldpc(Ldpc34), upgrade := BurstNext)
    else Upgraded(d.(streak := 0))
  }

  /** `report_burst` with profile adaptation. */
  function BurstStep(c: Controller, r: Report): Controller
    requires c.fec in Fecs(c.cfg) && (c.cfg.adaptiveBurst ==> c.burst in AllowedBursts(c.cfg))
    requires c.cfg.maxBurst in AllowedBursts(c.cfg)
  {
    var m := c.(meters := Metered(c.cfg, c.meters, r));
    if r.acked < Most(1, r.sent) then
      Downgrade(m.(streak := 0, cooldown := if c.cfg.rapid then 0 else c.cfg.lossCooldown))
    else if c.cfg.rapid && r.retransmitted > 0 then m
    else if c.cooldown > 0 then m.(cooldown := c.cooldown - 1, streak := if c.cfg.rapid then c.streak + 1 else 0)
    else CleanBurst(m, r)
  }

  // --------------------------------------------------------------------------- the capacity policy

  /** Admission of a denser constellation from its measured margin; `amplitude(x)` is ten to the
      power of minus `x` over twenty. */
  predicate Admitted(current: TxProfile, item: Mcs, q: Quality, amplitude: real -> real)
  {
    var margin := 0.5 + FecMargin(current.fec);
    if Bits(current.mcs) == 2.0 && Bits(item) >= 7.0 then
      var wide := if margin < 2.0 then 2.0 else margin;
      q.snr >= MinSnr(item) + wide && q.evm <= amplitude(MinSnr(item) + wide)
    else q.snr >= MinSnr(item) + margin
  }

  /** The admitted rungs of `higher`, highest first. */
  function AdmittedFirst(current: TxProfile, higher: seq<Mcs>, q: Quality, amplitude: real -> real): seq<Mcs>
  {
    if higher == [] then [] else
      AdmittedFirst(current, higher[1..], q, amplitude)
      + if Admitted(current, higher[0], q, amplitude) then [higher[0]] else []
  }

  /** Every code no weaker than the current one, weakest first, that makes `item` denser than `floor`. */
  function JointChoices(current: TxProfile, item: Mcs, fecs: seq<FecProfile>, floor: real): seq<TxProfile>
  {
    if fecs == [] then [] else
      var n := |fecs| - 1;
      (if Density(item, fecs[n]) > floor then [TxProfile(item, fecs[n], current.burst, current.arq)] else [])
      + JointChoices(current, item, fecs[..n], floor)
  }

  function McsCandidates(current: TxProfile, targets: seq<Mcs>, fecs: seq<FecProfile>, floor: real): seq<TxProfile>
  {
    if targets == [] then []
    else JointChoices(current, targets[0], fecs, floor) + McsCandidates(current, targets[1..], fecs, floor)
  }

  /** The codes above the current one whose margin is there, highest first. */
  function FecsFirst(c: Controller, higher: seq<FecProfile>): seq<FecProfile> {
    if higher == [] then []
    else FecsFirst(c, higher[1..]) + if UpgradeAllowed(c, higher[0]) then [higher[0]] else []
  }

  function Without(fecs: seq<FecProfile>, fec: FecProfile): seq<FecProfile> {
    if fecs == [] then [] else (if fecs[0] == fec then [] else [fecs[0]]) + Without(fecs[1..], fec)
  }

  function Codes(current: TxProfile, fecs: seq<FecProfile>): seq<TxProfile> {
    if fecs == [] then []
    else [TxProfile(current.mcs, fecs[0], current.burst, current.arq)] + Codes(current, fecs[1..])
  }

  /** A confirmed short modulation trial with room left for a faster code. */
  predicate ShortFec(current: TxProfile, baseline: Option<TxProfile>, q: Quality, r: Report)
  {
    && baseline.Some? && baseline.value.mcs != current.mcs && current.fec == Ldpc(Ldpc12)
    && Bits(current.mcs) >= 4.0 && r.unique >= Most(2048, 8 * current.arq)
    && r.remaining.Some? && r.remaining.value >= 6144
    && q.snr >= MinSnr(current.mcs) + 2.5 && q.evm <= 0.13
  }

  /** The next rung may be tried without measured margin. */
  predicate Blind(current: TxProfile, baseline: Option<TxProfile>, q: Quality, r: Report)
  {
    baseline.None? || r.unique >= Most(4096, 16 * current.arq) || ShortFec(current, baseline, q, r)
  }

  function McsTargets(current: TxProfile, higher: seq<Mcs>, q: Quality, amplitude: real -> real, blind: bool): seq<Mcs>
  {
    var admitted := AdmittedFirst(current, higher, q, amplitude);
    admitted + if blind && higher != [] && higher[0] !in admitted then [higher[0]] else []
  }

  function FecTargets(c: Controller, higher: seq<FecProfile>, short: bool, blind: bool): seq<FecProfile> {
    if !c.cfg.adaptiveFec || higher == [] then [] else
      var admitted := FecsFirst(c, higher);
      var ordered := if short then [Ldpc(Ldpc45)] + Without(admitted, Ldpc(Ldpc45)) else admitted;
      ordered + if blind && higher[0] !in ordered then [higher[0]] else []
  }

  /** The time a target saves on what is left. */
  function Saved(current: TxProfile, target: TxProfile, r: Report): real
    requires r.remaining.Some? && r.unique > 0
  {
    r.elapsed * r.remaining.value as real / r.unique as real
    * (1.0 - Density(current.mcs, current.fec) / Density(target.mcs, target.fec))
  }

  /** What is left must repay the turn a trial costs. */
  predicate Pays(current: TxProfile, target: TxProfile, r: Report) {
    r.remaining.Some? && r.elapsed > 0.0 && r.unique > 0 ==>
      Saved(current, target, r) >= 1.5 && Saved(current, target, r) >= r.elapsed
  }

  /** Quality clearly better than the one a trial failed at. */
  predicate Better(q: Quality, failed: Quality) { q.snr >= failed.snr + 1.5 || q.evm <= failed.evm * 0.85 }

  /** A failed trial of this constellation from the current one, with no weaker a code, stands. */
  predicate Spoiled(c: Controller, current: TxProfile, target: TxProfile, q: Quality) {
    exists k :: k in c.learned.rejections && k.0 == target.mcs && k.2 == current.mcs
                && CodeRate(k.1) <= CodeRate(target.fec) && !Better(q, c.learned.rejections[k])
  }

  function Chosen(c: Controller, current: TxProfile, choices: seq<TxProfile>, q: Quality, r: Report): Option<TxProfile>
  {
    if choices == [] then None
    else if Pays(current, choices[0], r) && !Spoiled(c, current, choices[0], q) then Some(choices[0])
    else Chosen(c, current, choices[1..], q, r)
  }

  function StartTrial(c: Controller, current: TxProfile, q: Quality, target: TxProfile, tried: Dimension): Controller {
    c.(probe := Probe(if target.fec != current.fec then Some(current.fec) else None,
                      if target.mcs != current.mcs then Some(current.mcs) else None,
                      Some(current), Some(q)),
       mcs := target.mcs, fec := target.fec, dimension := if tried.ByMcs? then ByFec else ByMcs)
  }

  // Where the candidates come from.

  lemma {:induction false} AdmittedFrom(current: TxProfile, higher: seq<Mcs>, q: Quality, amplitude: real -> real)
    ensures forall m :: m in AdmittedFirst(current, higher, q, amplitude) ==> m in higher
  {
    if higher != [] {
      AdmittedFrom(current, higher[1..], q, amplitude);
    }
  }

  lemma {:induction false} FecsFrom(c: Controller, higher: seq<FecProfile>)
    ensures forall f :: f in FecsFirst(c, higher) ==> f in higher
  {
    if higher != [] {
      FecsFrom(c, higher[1..]);
    }
  }

  lemma {:induction false} WithoutFrom(fecs: seq<FecProfile>, fec: FecProfile)
    ensures forall f :: f in Without(fecs, fec) ==> f in fecs
  {
    if fecs != [] {
      WithoutFrom(fecs[1..], fec);
    }
  }

  lemma {:induction false} CodesFrom(current: TxProfile, fecs: seq<FecProfile>)
    ensures forall t :: t in Codes(current, fecs) ==> t.mcs == current.mcs && t.fec in fecs
  {
    if fecs != [] {
      CodesFrom(current, fecs[1..]);
    }
  }

  lemma {:induction false} JointFrom(current: TxProfile, item: Mcs, fecs: seq<FecProfile>, floor: real)
    ensures forall t :: t in JointChoices(current, item, fecs, floor) ==>
              t.mcs == item && t.fec in fecs && Density(item, t.fec) > floor
  {
    if fecs != [] {
      JointFrom(current, item, fecs[..|fecs| - 1], floor);
    }
  }

  lemma {:induction false} McsFrom(current: TxProfile, targets: seq<Mcs>, fecs: seq<FecProfile>, floor: real)
    ensures forall t :: t in McsCandidates(current, targets, fecs, floor) ==>
              t.mcs in targets && t.fec in fecs && Density(t.mcs, t.fec) > floor
  {
    if targets != [] {
      hide Density;
      McsFrom(current, targets[1..], fecs, floor);
      JointFrom(current, targets[0], fecs, floor);
    }
  }

  lemma {:induction false} ChosenFrom(c: Controller, current: TxProfile, choices: seq<TxProfile>, q: Quality, r: Report)
    ensures var t := Chosen(c, current, choices, q, r);
            t.Some? ==> t.value in choices && !Spoiled(c, current, t.value, q) && Pays(current, t.value, r)
  {
    if choices != [] {
      hide Spoiled, Pays;
      ChosenFrom(c, current, choices[1..], q, r);
    }
  }

  // ----------------------------------------------------------------------------- one clean window

  /** The candidates of one dimension above a delivered profile. */
  function Candidates(c: Controller, ladder: seq<Mcs>, baseline: Option<TxProfile>, q: Quality, r: Report,
                      amplitude: real -> real, dimension: Dimension): seq<TxProfile>
    requires Valid(c, ladder)
  {
    var current := Profile(c);
    var at := IndexOf(Fecs(c.cfg), c.fec);
    var blind := Blind(current, baseline, q, r);
    if dimension.ByMcs? then
      McsCandidates(current, McsTargets(current, ladder[Position(ladder, c.mcs) + 1..], q, amplitude, blind),
                    Fecs(c.cfg)[..at + 1], Density(current.mcs, current.fec))
    else
      Codes(current, FecTargets(c, Fecs(c.cfg)[at + 1..], ShortFec(current, baseline, q, r), blind))
  }

  /** What a trial may try: on the ladders, and denser than the profile it starts from. */
  predicate Climbs(c: Controller, ladder: seq<Mcs>, t: TxProfile) {
    t.mcs in ladder && t.fec in Fecs(c.cfg)
    && Density(t.mcs, t.fec) > Density(c.mcs, Profile(c).fec)
  }

  lemma McsClimbs(c: Controller, ladder: seq<Mcs>, baseline: Option<TxProfile>, q: Quality, r: Report,
                  amplitude: real -> real)
    requires Valid(c, ladder)
    ensures forall t :: t in Candidates(c, ladder, baseline, q, r, amplitude, ByMcs) ==> Climbs(c, ladder, t)
  {
    hide Density, Blind, ShortFec, Admitted, ProbeSound, Accepted, CodeRate, Bits, AdmittedFirst, McsCandidates;
    var current := Profile(c);
    var higher := ladder[Position(ladder, c.mcs) + 1..];
    var targets := McsTargets(current, higher, q, amplitude, Blind(current, baseline, q, r));
    AdmittedFrom(current, higher, q, amplitude);
    assert forall m :: m in targets ==> m in ladder;
    McsFrom(current, targets, Fecs(c.cfg)[..IndexOf(Fecs(c.cfg), c.fec) + 1], Density(current.mcs, current.fec));
  }

  /** Rates rise along both families. */
  lemma RatesRise(cfg: Config, i: nat, j: nat)
    requires i < j < |Fecs(cfg)|
    ensures CodeRate(Fecs(cfg)[i]) < CodeRate(Fecs(cfg)[j])
  {
  }

  lemma DenserCode(mcs: Mcs, a: FecProfile, b: FecProfile)
    ensures CodeRate(a) < CodeRate(b) ==> Density(mcs, a) < Density(mcs, b)
    ensures CodeRate(a) <= CodeRate(b) ==> Density(mcs, a) <= Density(mcs, b)
  {
  }

  lemma DenserMcs(a: Mcs, b: Mcs, fec: FecProfile)
    requires Bits(a) <= Bits(b)
    ensures Density(a, fec) <= Density(b, fec)
  {
  }

  lemma FecTargetsAbove(c: Controller, at: nat, short: bool, blind: bool)
    requires at < |Fecs(c.cfg)| && (short ==> Fecs(c.cfg)[at] == Ldpc(Ldpc12))
    ensures forall f :: f in FecTargets(c, Fecs(c.cfg)[at + 1..], short, blind) ==>
              f in Fecs(c.cfg) && CodeRate(Fecs(c.cfg)[at]) < CodeRate(f)
  {
    hide UpgradeAllowed;
    var higher := Fecs(c.cfg)[at + 1..];
    forall f | f in higher
      ensures f in Fecs(c.cfg) && CodeRate(Fecs(c.cfg)[at]) < CodeRate(f)
    {
      var j :| 0 <= j < |higher| && higher[j] == f;
      RatesRise(c.cfg, at, at + 1 + j);
    }
    FecsFrom(c, higher);
    WithoutFrom(FecsFirst(c, higher), Ldpc(Ldpc45));
    if short && c.cfg.adaptiveFec && higher != [] {
      assert LDPC_LADDER[4] == Ldpc(Ldpc45);
    }
  }

  lemma FecClimbs(c: Controller, ladder: seq<Mcs>, baseline: Option<TxProfile>, q: Quality, r: Report,
                  amplitude: real -> real)
    requires Valid(c, ladder)
    ensures forall t :: t in Candidates(c, ladder, baseline, q, r, amplitude, ByFec) ==> Climbs(c, ladder, t)
  {
    var current := Profile(c);
    var at := IndexOf(Fecs(c.cfg), c.fec);
    var short := ShortFec(current, baseline, q, r);
    var targets := FecTargets(c, Fecs(c.cfg)[at + 1..], short, Blind(current, baseline, q, r));
    hide Density, Blind, FecTargets, CodeRate, Admitted, Bits, MinSnr;
    FecTargetsAbove(c, at, short, Blind(current, baseline, q, r));
    CodesFrom(current, targets);
    forall t | t in Codes(current, targets)
      ensures Climbs(c, ladder, t)
    {
      DenserCode(c.mcs, c.fec, t.fec);
    }
  }

  function Tried(c: Controller, ladder: seq<Mcs>, baseline: Option<TxProfile>, q: Quality, r: Report,
                 amplitude: real -> real, dimension: Dimension): Option<TxProfile>
    requires Valid(c, ladder)
  {
    Chosen(c, Profile(c), Candidates(c, ladder, baseline, q, r, amplitude, dimension), q, r)
  }

  /** No trial pays for itself this late or after so little data. */
  predicate TooLate(current: TxProfile, baseline: Option<TxProfile>, q: Quality, r: Report) {
    || (r.remaining.Some? && r.remaining.value <= Most(8192, 32 * current.arq) && !ShortFec(current, baseline, q, r))
    || r.unique < Most(512, current.arq)
  }

  /** The search for the next trial: the two dimensions take turns at going first. */
  function Explore(c: Controller, ladder: seq<Mcs>, baseline: Option<TxProfile>, q: Quality, r: Report,
                   amplitude: real -> real): Controller
    requires Valid(c, ladder)
  {
    var other := if c.dimension.ByFec? then ByMcs else ByFec;
    if TooLate(Profile(c), baseline, q, r) then c
    else
      var first := Tried(c, ladder, baseline, q, r, amplitude, c.dimension);
      if first.Some? then StartTrial(c, Profile(c), q, first.value, c.dimension)
      else
        var second := Tried(c, ladder, baseline, q, r, amplitude, other);
        if second.Some? then StartTrial(c, Profile(c), q, second.value, other) else c
  }

  /** The window a clean report would like next. */
  function Desired(c: Controller, current: TxProfile, baseline: Option<TxProfile>, r: Report): nat {
    if baseline.Some? && baseline.value.fec != current.fec then Most(c.cfg.minBurst, 2 * r.unique)
    else if current.fec == Ldpc(Ldpc12) then c.cfg.maxBurst
    else Most(c.cfg.minBurst, 2 * c.burst)
  }

  /** What a clean report does to the ceiling of its profile, and the limit it still sets. */
  function Ceiling(l: Learned, key: (Mcs, FecProfile), q: Quality, r: Report): (Learned, Option<nat>) {
    if key !in l.ceiling then (l, None)
    else
      var (limit, failed) := l.ceiling[key];
      var clean := (if key in l.ceilingClean then l.ceilingClean[key] else 0) + if r.unique >= limit then 1 else 0;
      if Better(q, failed) || (clean >= 2 && r.remaining.Some? && r.remaining.value >= 2 * limit) then
        (l.(ceiling := l.ceiling - {key}, ceilingClean := l.ceilingClean - {key}), None)
      else (l.(ceilingClean := l.ceilingClean[key := clean]), Some(limit))
  }

  /** The window growth of a clean report. */
  function Grown(c: Controller, current: TxProfile, baseline: Option<TxProfile>, q: Quality, r: Report): Controller {
    if !c.cfg.adaptiveBurst || r.unique < 512 then c
    else
      var (learned, limit) := Ceiling(c.learned, (current.mcs, current.fec), q, r);
      var desired := Desired(c, current, baseline, r);
      var target := if limit.Some? then Least(desired, limit.value) else desired;
      c.(learned := learned,
         burst := Least(c.cfg.maxBurst, FirstAtLeast(AllowedBursts(c.cfg), target, c.cfg.maxBurst)))
  }

  /** What a clean measured report is taken as: the trial is confirmed and the quality remembered. */
  function Confirmed(c: Controller, q: Quality): Controller {
    c.(probe := NO_PROBE,
       learned := c.learned.(quality := c.learned.quality[(Profile(c).mcs, Profile(c).fec) := q]))
  }

  // ----------------------------------------------------------------------------- one lossy window

  /** A sparse loss that still leaves the faster code clearly ahead of its baseline. */
  predicate StillAhead(current: TxProfile, baseline: TxProfile, r: Report) {
    && current.mcs == baseline.mcs && current.fec != baseline.fec && r.sent >= 4
    && r.acked as real * Density(current.mcs, current.fec)
       >= r.sent as real * Density(baseline.mcs, baseline.fec) * 1.25
  }

  /** Loss at a dense constellation whose measured margin is missing. */
  predicate Overreached(current: TxProfile, ladder: seq<Mcs>, q: Option<Quality>) {
    && q.Some? && Position(ladder, current.mcs) > 0 && Bits(current.mcs) >= 7.0
    && q.value.snr < MinSnr(current.mcs) + FecMargin(current.fec) - 1.0
  }

  /** A few blocks of a long window lost, for the first time. */
  predicate SparseLoss(c: Controller, current: TxProfile, r: Report) {
    && current.fec != Ldpc(Ldpc12) && r.sent >= 16 && r.acked * 8 >= r.sent * 7
    && c.lossCooldown == 0 && current.burst > c.cfg.minBurst
  }

  function KeepFaster(c: Controller): Controller {
    c.(burst := Least(c.cfg.maxBurst, Most(c.cfg.minBurst, 2 * Profile(c).burst)), probe := NO_PROBE)
  }

  function StepConstellation(c: Controller, ladder: seq<Mcs>): Controller
    requires ladder != []
  {
    c.(mcs := ladder[Most(1, Position(ladder, c.mcs)) - 1],
       burst := Most(c.cfg.minBurst, Least(Profile(c).burst / 2, c.burst)))
  }

  function ShortenWindow(c: Controller, q: Option<Quality>, r: Report): Controller {
    var current := Profile(c);
    var observed := r.sent * current.arq;
    var target := if r.sent - r.acked == 1 then observed else (observed + 1) / 2;
    var burst := Most(c.cfg.minBurst,
                      Least(current.burst, FirstAtLeast(AllowedBursts(c.cfg), target, c.cfg.maxBurst)));
    var key := (current.mcs, current.fec);
    if q.None? then c.(burst := burst)
    else c.(burst := burst,
            learned := c.learned.(ceiling := c.learned.ceiling[key := (burst, q.value)],
                                  ceilingClean := c.learned.ceilingClean[key := 0]))
  }

  /** One physical rung below a profile: a stronger code, or the next constellation down. */
  function RungBelow(c: Controller, ladder: seq<Mcs>): TxProfile
    requires Valid(c, ladder)
  {
    var current := Profile(c);
    var at := IndexOf(Fecs(c.cfg), c.fec);
    TxProfile(if at > 0 then current.mcs else ladder[Most(1, Position(ladder, current.mcs)) - 1],
              Fecs(c.cfg)[Most(1, at) - 1], c.burst, current.arq)
  }

  /** A trial that jumped several rungs and lost little retreats one constellation only. */
  predicate PartialLoss(c: Controller, ladder: seq<Mcs>, r: Report)
    requires ladder != []
  {
    && c.probe.baseline.Some? && Profile(c).mcs != c.probe.baseline.value.mcs
    && r.sent >= 4 && r.acked * 4 >= r.sent * 3
    && ladder[Most(1, Position(ladder, c.mcs)) - 1] != c.probe.baseline.value.mcs
  }

  /** Where a loss falls back to. */
  function FallbackOf(c: Controller, ladder: seq<Mcs>, r: Report): TxProfile
    requires Valid(c, ladder)
  {
    var current := Profile(c);
    if PartialLoss(c, ladder, r) then
      var rung := TxProfile(ladder[Most(1, Position(ladder, c.mcs)) - 1], current.fec, c.burst, current.arq);
      if rung.mcs == current.mcs then RungBelow(c, ladder) else rung
    else if c.probe.baseline.None? then RungBelow(c, ladder)
    else
      var b := c.probe.baseline.value;
      if b.mcs == current.mcs && b.fec == current.fec then RungBelow(c, ladder) else b
  }

  /** The quality a failed trial is remembered with. */
  function FailedQuality(c: Controller, ladder: seq<Mcs>, r: Report): Option<Quality>
    requires Valid(c, ladder)
  {
    var key := (FallbackOf(c, ladder, r).mcs, FallbackOf(c, ladder, r).fec);
    if PartialLoss(c, ladder, r) then Measured(r)
    else if c.probe.baseline.Some? then c.probe.quality
    else if key in c.learned.quality then Some(c.learned.quality[key])
    else None
  }

  function Fallback(c: Controller, ladder: seq<Mcs>, r: Report): Controller
    requires Valid(c, ladder)
  {
    var current, to := Profile(c), FallbackOf(c, ladder, r);
    var failed := FailedQuality(c, ladder, r);
    c.(mcs := to.mcs, fec := to.fec, probe := NO_PROBE,
       burst := if (to.mcs, to.fec) == (current.mcs, current.fec) then Most(c.cfg.minBurst, c.burst / 2) else c.burst,
       learned := if failed.None? then c.learned else
         c.learned.(rejections := c.learned.rejections[(current.mcs, current.fec, to.mcs, to.fec) := failed.value]))
  }

  /** The lossy branch of `report_capacity_burst`. */
  function LossStep(c: Controller, ladder: seq<Mcs>, r: Report): Controller
    requires Valid(c, ladder)
  {
    var current := Profile(c);
    var base := c.(lossCooldown := 2);
    if c.probe.baseline.Some? && StillAhead(current, c.probe.baseline.value, r) then KeepFaster(base)
    else if c.probe.baseline.None? && Overreached(current, ladder, Measured(r)) then StepConstellation(base, ladder)
    else if c.probe.baseline.None? && SparseLoss(c, current, r) then ShortenWindow(base, Measured(r), r)
    else Fallback(base, ladder, r)
  }

  /** A clean measured report before the next trial is looked for. */
  function Settled(c: Controller, q: Quality, r: Report): Controller {
    Grown(Confirmed(c, q), Profile(c), c.probe.baseline, q, r)
  }

  // -------------------------------------------------------------------------- everything stays valid

  /** Doubling, halving and shortening a burst within the limits stay on the ladder. */
  lemma ClampedInRange(cfg: Config, b: nat)
    requires Accepted(cfg)
    ensures b in BURST_LADDER ==> InRange(cfg, Least(cfg.maxBurst, Most(cfg.minBurst, 2 * b)))
    ensures InRange(cfg, b) ==> InRange(cfg, Most(cfg.minBurst, b / 2))
  {
  }

  lemma MinOfInRange(cfg: Config, a: nat, b: nat)
    requires InRange(cfg, a) && InRange(cfg, b)
    ensures InRange(cfg, Least(a, b)) && InRange(cfg, Most(cfg.minBurst, Least(a, b)))
  {
  }

  lemma ProfileBurst(c: Controller)
    requires Accepted(c.cfg) && (c.cfg.adaptiveBurst ==> InRange(c.cfg, c.burst))
    ensures Profile(c).burst in BURST_LADDER
  {
  }

  lemma SettledValid(c: Controller, ladder: seq<Mcs>, q: Quality, r: Report)
    requires Valid(c, ladder)
    ensures Valid(Settled(c, q, r), ladder)
  {
    hide Ceiling, Desired, Ascending, Accepted, InRange;
    var d := Confirmed(c, q);
    var (learned, limit) := Ceiling(d.learned, (Profile(c).mcs, Profile(c).fec), q, r);
    var desired := Desired(d, Profile(c), c.probe.baseline, r);
    var target := if limit.Some? then Least(desired, limit.value) else desired;
    FittedInRange(c.cfg, target);
    MaxInRange(c.cfg);
    MinOfInRange(c.cfg, c.cfg.maxBurst, FirstAtLeast(AllowedBursts(c.cfg), target, c.cfg.maxBurst));
  }

  lemma MaxInRange(cfg: Config)
    requires Accepted(cfg)
    ensures InRange(cfg, cfg.maxBurst)
  {
  }

  /** The clean branch of `report_capacity_burst`. */
  function CleanStep(c: Controller, ladder: seq<Mcs>, r: Report, amplitude: real -> real): Controller
    requires Valid(c, ladder)
  {
    var q := Measured(r);
    if q.None? then c.(probe := NO_PROBE)
    else
      SettledValid(c, ladder, q.value, r);
      if c.lossCooldown > 0 then Settled(c, q.value, r).(lossCooldown := c.lossCooldown - 1)
      else Explore(Settled(c, q.value, r), ladder, c.probe.baseline, q.value, r, amplitude)
  }

  /** `report_capacity_burst`. */
  function CapacityStep(c: Controller, ladder: seq<Mcs>, r: Report, amplitude: real -> real): Controller
    requires Valid(c, ladder)
  {
    var m := c.(meters := Metered(c.cfg, c.meters, r), streak := 0);
    if r.retransmitted > 0 then m
    else if r.acked < r.sent then LossStep(m, ladder, r)
    else CleanStep(m, ladder, r, amplitude)
  }

  lemma TrialValid(c: Controller, ladder: seq<Mcs>, q: Quality, t: TxProfile, tried: Dimension)
    requires Valid(c, ladder) && Climbs(c, ladder, t)
    ensures Valid(StartTrial(c, Profile(c), q, t, tried), ladder)
  {
    hide Ascending, Accepted, InRange;
  }

  lemma TriedClimbs(c: Controller, ladder: seq<Mcs>, baseline: Option<TxProfile>, q: Quality, r: Report,
                    amplitude: real -> real, dimension: Dimension)
    requires Valid(c, ladder)
    ensures var t := Tried(c, ladder, baseline, q, r, amplitude, dimension); t.Some? ==> Climbs(c, ladder, t.value)
  {
    hide Candidates, Climbs, Valid;
    McsClimbs(c, ladder, baseline, q, r, amplitude);
    FecClimbs(c, ladder, baseline, q, r, amplitude);
    ChosenFrom(c, Profile(c), Candidates(c, ladder, baseline, q, r, amplitude, dimension), q, r);
  }

  /** Exploring starts nothing, or a trial of a profile above the current one. */
  lemma ExploreTrial(c: Controller, ladder: seq<Mcs>, baseline: Option<TxProfile>, q: Quality, r: Report,
                     amplitude: real -> real)
    returns (t: Option<TxProfile>, tried: Dimension)
    requires Valid(c, ladder)
    ensures t.None? ==> Explore(c, ladder, baseline, q, r, amplitude) == c
    ensures t.Some? ==> && Climbs(c, ladder, t.value)
                        && Explore(c, ladder, baseline, q, r, amplitude) == StartTrial(c, Profile(c), q, t.value, tried)
  {
    hide Climbs, Tried, TooLate, StartTrial, Valid, Profile;
    t, tried := None, c.dimension;
    if !TooLate(Profile(c), baseline, q, r) {
      TriedClimbs(c, ladder, baseline, q, r, amplitude, tried);
      t := Tried(c, ladder, baseline, q, r, amplitude, tried);
      if t.None? {
        tried := if c.dimension.ByFec? then ByMcs else ByFec;
        TriedClimbs(c, ladder, baseline, q, r, amplitude, tried);
        t := Tried(c, ladder, baseline, q, r, amplitude, tried);
      }
    }
  }

  lemma ExploreValid(c: Controller, ladder: seq<Mcs>, baseline: Option<TxProfile>, q: Quality, r: Report,
                     amplitude: real -> real)
    requires Valid(c, ladder)
    ensures Valid(Explore(c, ladder, baseline, q, r, amplitude), ladder)
  {
    hide Valid, Climbs, Explore, StartTrial;
    var t, tried := ExploreTrial(c, ladder, baseline, q, r, amplitude);
    if t.Some? {
      TrialValid(c, ladder, q, t.value, tried);
    }
  }

  lemma FallbackOnLadders(c: Controller, ladder: seq<Mcs>, r: Report)
    requires Valid(c, ladder)
    ensures FallbackOf(c, ladder, r).mcs in ladder && FallbackOf(c, ladder, r).fec in Fecs(c.cfg)
  {
    hide Accepted, InRange, FecLadder;
  }

  lemma FallbackValid(c: Controller, ladder: seq<Mcs>, r: Report)
    requires Valid(c, ladder)
    ensures Valid(Fallback(c, ladder, r), ladder)
  {
    hide Accepted, InRange, Ascending, FallbackOf, FailedQuality;
    FallbackOnLadders(c, ladder, r);
    ClampedInRange(c.cfg, c.burst);
  }

  lemma ShortenValid(c: Controller, ladder: seq<Mcs>, q: Option<Quality>, r: Report)
    requires Valid(c, ladder) && c.probe.baseline.None?
    ensures Valid(ShortenWindow(c, q, r), ladder)
  {
    hide Accepted, InRange, Ascending;
    var observed := r.sent * c.cfg.arqBlock;
    var target := if r.sent - r.acked == 1 then observed else (observed + 1) / 2;
    FittedInRange(c.cfg, target);
    if c.cfg.adaptiveBurst {
      MinOfInRange(c.cfg, c.burst, FirstAtLeast(AllowedBursts(c.cfg), target, c.cfg.maxBurst));
    }
  }

  lemma LossValid(c: Controller, ladder: seq<Mcs>, r: Report)
    requires Valid(c, ladder)
    ensures Valid(LossStep(c, ladder, r), ladder)
  {
    hide Accepted, InRange, Ascending, StillAhead, Overreached, SparseLoss, Fallback, ShortenWindow;
    var base := c.(lossCooldown := 2);
    ProfileBurst(c);
    ClampedInRange(c.cfg, Profile(c).burst);
    ClampedInRange(c.cfg, c.burst);
    FallbackValid(base, ladder, r);
    if c.probe.baseline.None? {
      ShortenValid(base, ladder, Measured(r), r);
    }
  }

  lemma CapacityValid(c: Controller, ladder: seq<Mcs>, r: Report, amplitude: real -> real)
    requires Valid(c, ladder)
    ensures Valid(CapacityStep(c, ladder, r, amplitude), ladder)
  {
    hide LossStep, Settled, Explore, Metered, Accepted, InRange, Ascending;
    var m := c.(meters := Metered(c.cfg, c.meters, r), streak := 0);
    LossValid(m, ladder, r);
    if Measured(r).Some? {
      SettledValid(m, ladder, Measured(r).value, r);
      ExploreValid(Settled(m, Measured(r).value, r), ladder, m.probe.baseline, Measured(r).value, r, amplitude);
    }
  }

  // ------------------------------------------------------------------ the incremental policy is valid too

  lemma BurstLookup(c: Controller, ladder: seq<Mcs>)
    requires Valid(c, ladder)
    ensures c.fec in Fecs(c.cfg) && (c.cfg.adaptiveBurst ==> c.burst in AllowedBursts(c.cfg))
    ensures c.cfg.maxBurst in AllowedBursts(c.cfg)
  {
    AllowedAre(c.cfg, BURST_LADDER, c.burst);
    AllowedAre(c.cfg, BURST_LADDER, c.cfg.maxBurst);
  }

  lemma DowngradeValid(c: Controller, ladder: seq<Mcs>)
    requires Valid(c, ladder)
    ensures c.cfg.adaptiveBurst ==> c.burst in AllowedBursts(c.cfg)
    ensures Valid(Downgrade(c), ladder)
  {
    hide Accepted, Ascending;
    BurstLookup(c, ladder);
    if c.cfg.adaptiveBurst {
      var i := IndexOf(AllowedBursts(c.cfg), c.burst);
      if i > 0 {
        AllowedAre(c.cfg, BURST_LADDER, AllowedBursts(c.cfg)[i - 1]);
      }
    }
  }

  lemma NextBurst(cfg: Config, burst: nat)
    requires burst in AllowedBursts(cfg)
    ensures var i := IndexOf(AllowedBursts(cfg), burst);
            i + 1 < |AllowedBursts(cfg)| ==> InRange(cfg, AllowedBursts(cfg)[i + 1])
  {
    var i := IndexOf(AllowedBursts(cfg), burst);
    if i + 1 < |AllowedBursts(cfg)| {
      AllowedAre(cfg, BURST_LADDER, AllowedBursts(cfg)[i + 1]);
    }
    hide Allowed, IndexOf;
  }

  lemma UpgradedValid(c: Controller, ladder: seq<Mcs>)
    requires Valid(c, ladder)
    ensures c.cfg.adaptiveBurst ==> c.burst in AllowedBursts(c.cfg)
    ensures Valid(Upgraded(c), ladder)
  {
    BurstLookup(c, ladder);
    hide Accepted, Ascending, UpgradeAllowed, InRange, AllowedBursts, IndexOf;
    if c.cfg.adaptiveBurst {
      NextBurst(c.cfg, c.burst);
    }
  }

  /** `report_burst` on a controller whose choices are on their ladders. */
  function IncrementalStep(c: Controller, ladder: seq<Mcs>, r: Report): Controller
    requires Valid(c, ladder)
  {
    BurstLookup(c, ladder);
    BurstStep(c, r)
  }

  lemma CleanBurstValid(c: Controller, ladder: seq<Mcs>, r: Report)
    requires Valid(c, ladder)
    ensures c.cfg.adaptiveBurst ==> c.burst in AllowedBursts(c.cfg)
    ensures c.cfg.maxBurst in AllowedBursts(c.cfg)
    ensures Valid(CleanBurst(c, r), ladder)
  {
    BurstLookup(c, ladder);
    var d := c.(burst := if WindowEarned(c, r) then c.cfg.maxBurst else c.burst, streak := c.streak + 1);
    MaxInRange(c.cfg);
    hide Accepted, Ascending, UpgradeAllowed, WindowEarned, FecEvidence, Upgraded, AllowedBursts, InRange;
    UpgradedValid(d.(streak := 0), ladder);
    assert LDPC_LADDER[3] == Ldpc(Ldpc34);
  }

  lemma IncrementalValid(c: Controller, ladder: seq<Mcs>, r: Report)
    requires Valid(c, ladder)
    ensures Valid(IncrementalStep(c, ladder, r), ladder)
  {
    hide Accepted, Ascending, CleanBurst, Downgrade, Metered, InRange, AllowedBursts;
    var m := c.(meters := Metered(c.cfg, c.meters, r));
    BurstLookup(c, ladder);
    CleanBurstValid(m, ladder, r);
    DowngradeValid(m.(streak := 0, cooldown := if c.cfg.rapid then 0 else c.cfg.lossCooldown), ladder);
  }

  // ------------------------------------------------------------------------------------------- runs

  /** `warm_start_burst_bytes`: an unproven profile, or a trial, starts at the initial size. */
  function WarmStart(c: Controller): nat {
    var initial := if c.cfg.initialBurst.Some? then c.cfg.initialBurst.value else c.cfg.minBurst;
    if (c.mcs, c.fec) !in c.learned.quality || c.probe.baseline.Some? then initial
    else Most(initial, Least(c.burst, 4096))
  }

  /** What the start of a message does to an acquiring controller. */
  function StartMessage(c: Controller): Controller {
    if c.cfg.rapid && c.cfg.adaptiveBurst then c.(burst := WarmStart(c)) else c
  }

  lemma StartValid(c: Controller, ladder: seq<Mcs>)
    requires Valid(c, ladder)
    ensures Valid(StartMessage(c), ladder)
  {
    hide Ascending;
  }

  /** A delivery report and the policy it goes to, a rung of the ladder the link moves to, or the start of
      a message. */
  datatype Feedback = Capacity(r: Report) | Incremental(r: Report) | Rung(at: nat) | MessageStart

  ghost function Apply(c: Controller, ladder: seq<Mcs>, f: Feedback, amplitude: real -> real): Controller
    requires Valid(c, ladder)
  {
    match f
    case Capacity(r) => CapacityStep(c, ladder, r, amplitude)
    case Incremental(r) => IncrementalStep(c, ladder, r)
    case Rung(at) => if at < |ladder| then c.(mcs := ladder[at]) else c
    case MessageStart => StartMessage(c)
  }

  lemma RungValid(c: Controller, ladder: seq<Mcs>, at: nat)
    requires Valid(c, ladder) && at < |ladder|
    ensures Valid(c.(mcs := ladder[at]), ladder)
  {
    hide Ascending, Accepted, InRange;
  }

  lemma ApplyValid(c: Controller, ladder: seq<Mcs>, f: Feedback, amplitude: real -> real)
    requires Valid(c, ladder)
    ensures Valid(Apply(c, ladder, f, amplitude), ladder)
  {
    hide Valid, CapacityStep, IncrementalStep, StartMessage;
    match f
    case Capacity(r) => CapacityValid(c, ladder, r, amplitude);
    case Incremental(r) => IncrementalValid(c, ladder, r);
    case Rung(at) =>
      if at < |ladder| { RungValid(c, ladder, at); }
    case MessageStart => StartValid(c, ladder);
  }

  /** Every run keeps all lookups and the probe baseline sound. */
  ghost function Run(c: Controller, ladder: seq<Mcs>, fs: seq<Feedback>, amplitude: real -> real): (d: Controller)
    requires Valid(c, ladder)
    ensures Valid(d, ladder)
    decreases |fs|
  {
    if fs == [] then c
    else
      ApplyValid(c, ladder, fs[0], amplitude);
      Run(Apply(c, ladder, fs[0], amplitude), ladder, fs[1..], amplitude)
  }

  /** From every accepted configuration whose initial code fits its family, every run of reports to
      either policy, of moves along the ladder and of message starts finds the modulation, the code and
      the burst on their ladders, and a baseline exactly while a trial is on. */
  lemma RunOnLadders(cfg: Config, mcs: Mcs, ladder: seq<Mcs>, fs: seq<Feedback>, amplitude: real -> real)
    requires Accepted(cfg) && Ascending(ladder) && mcs in ladder
    requires cfg.adaptiveFec && cfg.initialFec.Some? ==> cfg.initialFec.value in FecLadder(cfg)
    ensures Valid(Init(cfg, mcs), ladder)
    ensures var c := Run(Init(cfg, mcs), ladder, fs, amplitude);
            && c.cfg == cfg && c.mcs in ladder && (cfg.adaptiveFec ==> c.fec in FecLadder(cfg))
            && (cfg.adaptiveBurst ==> c.burst in BURST_LADDER && cfg.minBurst <= c.burst <= cfg.maxBurst)
            && (c.probe.baseline.Some? <==> c.probe.fecFrom.Some? || c.probe.mcsFrom.Some?)
  {
    InitValid(cfg, mcs, ladder);
    ConfigKept(Init(cfg, mcs), ladder, fs, amplitude);
    hide Init, Run;
  }

  lemma LossKeepsConfig(c: Controller, ladder: seq<Mcs>, r: Report)
    requires Valid(c, ladder)
    ensures LossStep(c, ladder, r).cfg == c.cfg
  {
    hide Valid, FallbackOf, FailedQuality, StillAhead, Overreached, SparseLoss;
  }

  lemma CleanKeepsConfig(c: Controller, ladder: seq<Mcs>, r: Report, amplitude: real -> real)
    requires Valid(c, ladder)
    ensures CleanStep(c, ladder, r, amplitude).cfg == c.cfg
  {
    hide Valid, Tried, TooLate, Ceiling, Desired;
    if Measured(r).Some? {
      SettledValid(c, ladder, Measured(r).value, r);
    }
  }

  lemma IncrementalKeepsConfig(c: Controller, ladder: seq<Mcs>, r: Report)
    requires Valid(c, ladder)
    ensures IncrementalStep(c, ladder, r).cfg == c.cfg && IncrementalStep(c, ladder, r).probe == c.probe
  {
    BurstLookup(c, ladder);
    hide Valid, WindowEarned, FecEvidence, UpgradeAllowed, AllowedBursts, Metered, Measured;
  }

  lemma CapacityKeepsConfig(c: Controller, ladder: seq<Mcs>, r: Report, amplitude: real -> real)
    requires Valid(c, ladder)
    ensures CapacityStep(c, ladder, r, amplitude).cfg == c.cfg
  {
    var m := c.(meters := Metered(c.cfg, c.meters, r), streak := 0);
    ValidMetered(c, ladder, m);
    hide Valid, LossStep, CleanStep, Metered;
    LossKeepsConfig(m, ladder, r);
    CleanKeepsConfig(m, ladder, r, amplitude);
  }

  lemma {:induction false} ConfigKept(c: Controller, ladder: seq<Mcs>, fs: seq<Feedback>, amplitude: real -> real)
    requires Valid(c, ladder)
    ensures Run(c, ladder, fs, amplitude).cfg == c.cfg
    decreases |fs|
  {
    if fs != [] {
      hide Valid, CapacityStep, IncrementalStep, WarmStart;
      var next := Apply(c, ladder, fs[0], amplitude);
      ApplyValid(c, ladder, fs[0], amplitude);
      match fs[0] {
        case Capacity(r) => CapacityKeepsConfig(c, ladder, r, amplitude);
        case Incremental(r) => IncrementalKeepsConfig(c, ladder, r);
        case _ =>
      }
      ConfigKept(next, ladder, fs[1..], amplitude);
    }
  }

  lemma ValidMetered(c: Controller, ladder: seq<Mcs>, m: Controller)
    requires Valid(c, ladder) && m == c.(meters := m.meters, streak := m.streak)
    ensures Valid(m, ladder)
  {
  }

  // ------------------------------------------------------------------------------------ what loss does

  /** Information bits per symbol of the profile a controller sends with. */
  function Sends(c: Controller): real { Density(c.mcs, Profile(c).fec) }

  /** The profile a loss would return to is no denser than the current one. */
  predicate BaselineBelow(c: Controller) {
    c.probe.baseline.Some? ==> Density(c.probe.baseline.value.mcs, c.probe.baseline.value.fec) <= Sends(c)
  }

  lemma RungBelowNotDenser(c: Controller, ladder: seq<Mcs>)
    requires Valid(c, ladder)
    ensures Density(RungBelow(c, ladder).mcs, RungBelow(c, ladder).fec) <= Sends(c)
  {
    var at, p := IndexOf(Fecs(c.cfg), c.fec), Position(ladder, c.mcs);
    var below := RungBelow(c, ladder);
    if at > 0 {
      RatesRise(c.cfg, at - 1, at);
      DenserCode(c.mcs, below.fec, c.fec);
    } else if p > 0 {
      DenserMcs(ladder[p - 1], c.mcs, c.fec);
    }
  }

  lemma ConstellationBelow(c: Controller, ladder: seq<Mcs>)
    requires Ascending(ladder) && c.mcs in ladder
    ensures Density(ladder[Most(1, Position(ladder, c.mcs)) - 1], Profile(c).fec) <= Sends(c)
  {
    var p := Position(ladder, c.mcs);
    DenserMcs(ladder[Most(1, p) - 1], c.mcs, Profile(c).fec);
  }

  lemma FallbackNotDenser(c: Controller, ladder: seq<Mcs>, r: Report)
    requires Valid(c, ladder) && BaselineBelow(c)
    ensures Density(FallbackOf(c, ladder, r).mcs, FallbackOf(c, ladder, r).fec) <= Sends(c)
  {
    RungBelowNotDenser(c, ladder);
    ConstellationBelow(c, ladder);
    hide Density, RungBelow, Accepted, Ascending, InRange, Bits, CodeRate, FecLadder, PartialLoss, Position;
  }

  lemma FallbackSends(c: Controller, ladder: seq<Mcs>, r: Report)
    requires Valid(c, ladder) && BaselineBelow(c)
    ensures Sends(Fallback(c, ladder, r)) <= Sends(c)
  {
    FallbackNotDenser(c, ladder, r);
    FallbackOnLadders(c, ladder, r);
    hide Density, FallbackOf, FailedQuality, Valid, FecLadder;
  }

  lemma StepSends(c: Controller, ladder: seq<Mcs>)
    requires Ascending(ladder) && c.mcs in ladder
    ensures Sends(StepConstellation(c, ladder)) <= Sends(c)
  {
    ConstellationBelow(c, ladder);
    hide Density, Ascending, Position;
  }

  lemma WindowSends(c: Controller, r: Report)
    ensures Sends(KeepFaster(c)) == Sends(c)
    ensures Sends(ShortenWindow(c, Measured(r), r)) == Sends(c)
  {
    hide Density, Measured, AllowedBursts;
  }

  /** A loss report never leaves a denser profile than the one that lost, if the baseline of a trial
      under way is not denser itself. */
  lemma LossNotDenser(c: Controller, ladder: seq<Mcs>, r: Report)
    requires Valid(c, ladder) && BaselineBelow(c)
    ensures Sends(LossStep(c, ladder, r)) <= Sends(c)
  {
    var base := c.(lossCooldown := 2);
    assert Sends(base) == Sends(c);
    assert Valid(base, ladder);
    FallbackSends(base, ladder, r);
    StepSends(base, ladder);
    WindowSends(base, r);
    hide Sends, Valid, KeepFaster, StepConstellation, ShortenWindow, Fallback, StillAhead, Overreached, SparseLoss;
  }

  /** Exactly then: with a denser baseline, one lost block is enough to return to it. */
  lemma LossNotDenserExactly(c: Controller, ladder: seq<Mcs>)
    requires Valid(c, ladder)
    ensures (forall r: Report :: Sends(LossStep(c, ladder, r)) <= Sends(c)) <==> BaselineBelow(c)
  {
    if BaselineBelow(c) {
      forall r: Report
        ensures Sends(LossStep(c, ladder, r)) <= Sends(c)
      {
        LossNotDenser(c, ladder, r);
      }
    } else {
      var r := Report(1, 0, 0, 0, 0.0, None, None, None, None);
      LostBlockReturns(c, ladder, r);
      assert !(Sends(LossStep(c, ladder, r)) <= Sends(c));
    }
  }

  lemma LostBlockReturns(c: Controller, ladder: seq<Mcs>, r: Report)
    requires Valid(c, ladder) && !BaselineBelow(c) && r.sent == 1
    ensures Sends(LossStep(c, ladder, r)) > Sends(c)
  {
    hide RungBelow, Accepted, InRange, Bits, CodeRate, FecLadder, Ascending, FailedQuality;
    var base := c.(lossCooldown := 2);
    var b := c.probe.baseline.value;
    assert FallbackOf(base, ladder, r) == b;
    hide FallbackOf;
  }

  // ------------------------------------------------------------------------ capacity reports alone

  /** The probe-from fields say exactly what the trial changed, and the trial is denser. */
  predicate Climbing(c: Controller) {
    c.probe.baseline.Some? ==>
      var b := c.probe.baseline.value;
      && Density(b.mcs, b.fec) < Sends(c)
      && c.probe.fecFrom == (if b.fec != Profile(c).fec then Some(b.fec) else None)
      && c.probe.mcsFrom == (if b.mcs != c.mcs then Some(b.mcs) else None)
  }

  lemma TrialClimbing(c: Controller, ladder: seq<Mcs>, q: Quality, t: TxProfile, tried: Dimension)
    requires Valid(c, ladder) && Climbs(c, ladder, t)
    ensures Climbing(StartTrial(c, Profile(c), q, t, tried))
  {
    hide Density, Accepted, Ascending, InRange, FecLadder;
  }

  lemma ExploreClimbing(c: Controller, ladder: seq<Mcs>, baseline: Option<TxProfile>, q: Quality, r: Report,
                        amplitude: real -> real)
    requires Valid(c, ladder) && c.probe == NO_PROBE
    ensures Climbing(Explore(c, ladder, baseline, q, r, amplitude))
  {
    assert Climbing(c);
    hide Climbs, Explore, StartTrial, Climbing, Valid;
    var t, tried := ExploreTrial(c, ladder, baseline, q, r, amplitude);
    if t.Some? {
      TrialClimbing(c, ladder, q, t.value, tried);
    }
  }

  lemma LossClimbing(c: Controller, ladder: seq<Mcs>, r: Report)
    requires Valid(c, ladder)
    ensures LossStep(c, ladder, r).probe.baseline.None?
  {
    hide Valid, StillAhead, Overreached, SparseLoss, FallbackOf, FailedQuality;
  }

  lemma CapacityClimbing(c: Controller, ladder: seq<Mcs>, r: Report, amplitude: real -> real)
    requires Valid(c, ladder) && Climbing(c)
    ensures Climbing(CapacityStep(c, ladder, r, amplitude))
  {
    var m := c.(meters := Metered(c.cfg, c.meters, r), streak := 0);
    ValidMetered(c, ladder, m);
    LossClimbing(m, ladder, r);
    hide Valid, LossStep, Explore, Metered, Density, Grown;
    if Measured(r).Some? {
      SettledValid(m, ladder, Measured(r).value, r);
      SettledProbe(m, Measured(r).value, r);
      ExploreClimbing(Settled(m, Measured(r).value, r), ladder, m.probe.baseline, Measured(r).value, r, amplitude);
    }
  }

  lemma SettledProbe(c: Controller, q: Quality, r: Report)
    ensures Settled(c, q, r).probe == NO_PROBE
    ensures Settled(c, q, r).mcs == c.mcs && Settled(c, q, r).fec == c.fec && Settled(c, q, r).cfg == c.cfg
  {
    hide Ceiling, Desired, AllowedBursts;
  }

  /** A capacity loss never leaves a denser profile than the one that lost. */
  lemma CapacityLossNotDenser(c: Controller, ladder: seq<Mcs>, r: Report, amplitude: real -> real)
    requires Valid(c, ladder) && Climbing(c) && r.acked < r.sent
    ensures Sends(CapacityStep(c, ladder, r, amplitude)) <= Sends(c)
  {
    var m := c.(meters := Metered(c.cfg, c.meters, r), streak := 0);
    ValidMetered(c, ladder, m);
    hide Valid, LossStep, CleanStep, Metered, Density;
    LossNotDenser(m, ladder, r);
  }

  /** In every run of capacity reports, a loss never leaves a denser profile than the one that lost,
      and a trial remembers exactly what it changed. */
  lemma CapacityRun(cfg: Config, mcs: Mcs, ladder: seq<Mcs>, rs: seq<Report>, last: Report, amplitude: real -> real)
    requires Valid(Init(cfg, mcs), ladder)
    ensures var c := CapacityReports(Init(cfg, mcs), ladder, rs, amplitude);
            && Climbing(c)
            && (last.acked < last.sent ==> Sends(CapacityStep(c, ladder, last, amplitude)) <= Sends(c))
  {
    ReportsClimb(Init(cfg, mcs), ladder, rs, amplitude);
    var c := CapacityReports(Init(cfg, mcs), ladder, rs, amplitude);
    hide Valid, Init, CapacityReports, CapacityStep, Climbing, Sends;
    if last.acked < last.sent { CapacityLossNotDenser(c, ladder, last, amplitude); }
  }

  ghost function CapacityReports(c: Controller, ladder: seq<Mcs>, rs: seq<Report>, amplitude: real -> real)
    : (d: Controller)
    requires Valid(c, ladder)
    ensures Valid(d, ladder)
    decreases |rs|
  {
    if rs == [] then c
    else
      CapacityValid(c, ladder, rs[0], amplitude);
      CapacityReports(CapacityStep(c, ladder, rs[0], amplitude), ladder, rs[1..], amplitude)
  }

  lemma {:induction false} ReportsClimb(c: Controller, ladder: seq<Mcs>, rs: seq<Report>, amplitude: real -> real)
    requires Valid(c, ladder) && Climbing(c)
    ensures Climbing(CapacityReports(c, ladder, rs, amplitude))
    decreases |rs|
  {
    if rs != [] {
      hide Valid, CapacityStep, Climbing;
      CapacityValid(c, ladder, rs[0], amplitude);
      CapacityClimbing(c, ladder, rs[0], amplitude);
      ReportsClimb(CapacityStep(c, ladder, rs[0], amplitude), ladder, rs[1..], amplitude);
    }
  }

  /** The incremental policy's own loss is never denser either. */
  lemma IncrementalLossNotDenser(c: Controller, ladder: seq<Mcs>, r: Report)
    requires Valid(c, ladder) && r.acked < Most(1, r.sent)
    ensures Sends(IncrementalStep(c, ladder, r)) <= Sends(c)
  {
    BurstLookup(c, ladder);
    var at := IndexOf(Fecs(c.cfg), c.fec);
    if c.cfg.adaptiveFec && at > 0 {
      RatesRise(c.cfg, at - 1, at);
      DenserCode(c.mcs, Fecs(c.cfg)[at - 1], c.fec);
    }
    hide Density, Metered, AllowedBursts, CodeRate, Accepted, Ascending, InRange;
  }

  /** A clean report keeps the delivered profile or starts a trial above it: denser, bounded in size,
      and with the delivered profile as the baseline to return to. */
  lemma CleanClimbsFromDelivered(c: Controller, ladder: seq<Mcs>, r: Report, amplitude: real -> real)
    requires Valid(c, ladder)
    ensures var d := CleanStep(c, ladder, r, amplitude);
            || (d.probe == NO_PROBE && d.mcs == c.mcs && d.fec == c.fec)
            || (Measured(r).Some? && d.probe.baseline.Some? && Sends(d) > Sends(c)
                && d.probe.baseline.value.mcs == c.mcs && d.probe.baseline.value.fec == Profile(c).fec
                && Profile(d).burst <= Most(2048, c.cfg.arqBlock))
  {
    if Measured(r).Some? {
      var q := Measured(r).value;
      var s := Settled(c, q, r);
      SettledValid(c, ladder, q, r);
      SettledProbe(c, q, r);
      TrialSteps(s, ladder, c.probe.baseline, q, r, amplitude);
      assert Sends(s) == Sends(c);
      hide Settled, Explore, Density, Valid;
    }
  }

  lemma TrialSteps(c: Controller, ladder: seq<Mcs>, baseline: Option<TxProfile>, q: Quality, r: Report,
                   amplitude: real -> real)
    requires Valid(c, ladder) && c.probe == NO_PROBE
    ensures var d := Explore(c, ladder, baseline, q, r, amplitude);
            || d == c
            || (d.probe.baseline == Some(Profile(c)) && Sends(d) > Sends(c)
                && Profile(d).burst <= Most(2048, c.cfg.arqBlock))
  {
    hide Climbs, Explore, StartTrial, Valid, Profile, Sends;
    var t, tried := ExploreTrial(c, ladder, baseline, q, r, amplitude);
    if t.Some? {
      TrialBounded(c, ladder, q, t.value, tried);
    }
  }

  lemma TrialBounded(c: Controller, ladder: seq<Mcs>, q: Quality, t: TxProfile, tried: Dimension)
    requires Valid(c, ladder) && Climbs(c, ladder, t)
    ensures var d := StartTrial(c, Profile(c), q, t, tried);
            && d.probe.baseline == Some(Profile(c)) && Sends(d) > Sends(c)
            && Profile(d).burst <= Most(2048, c.cfg.arqBlock)
  {
    hide Density, Accepted, Ascending, InRange, FecLadder;
  }

  /** A constellation that failed from the current one is not tried again with as weak a code until the
      measured quality is clearly better. */
  lemma FailedTrialWaits(c: Controller, ladder: seq<Mcs>, baseline: Option<TxProfile>, q: Quality, r: Report,
                         amplitude: real -> real, k: (Mcs, FecProfile, Mcs, FecProfile))
    requires Valid(c, ladder) && c.probe == NO_PROBE
    requires k in c.learned.rejections && k.2 == c.mcs && !Better(q, c.learned.rejections[k])
    ensures var d := Explore(c, ladder, baseline, q, r, amplitude);
            d.probe.baseline.Some? ==> !(d.mcs == k.0 && CodeRate(k.1) <= CodeRate(d.fec))
  {
    var other := if c.dimension.ByFec? then ByMcs else ByFec;
    hide Candidates, TooLate, Valid, Better, CodeRate, Pays;
    ChosenFrom(c, Profile(c), Candidates(c, ladder, baseline, q, r, amplitude, c.dimension), q, r);
    ChosenFrom(c, Profile(c), Candidates(c, ladder, baseline, q, r, amplitude, other), q, r);
  }

  /** A lost trial returns to its baseline, unless it stays clearly ahead or retreats part of the way,
      and is remembered with the quality its baseline had. */
  lemma LostTrialReturns(c: Controller, ladder: seq<Mcs>, r: Report)
    requires Valid(c, ladder) && c.probe.baseline.Some?
    requires !StillAhead(Profile(c), c.probe.baseline.value, r) && !PartialLoss(c, ladder, r)
    requires (c.probe.baseline.value.mcs, c.probe.baseline.value.fec) != (c.mcs, Profile(c).fec)
    ensures var d, b := LossStep(c, ladder, r), c.probe.baseline.value;
            && d.mcs == b.mcs && d.fec == b.fec && d.burst == c.burst && d.probe == NO_PROBE
            && (c.probe.quality.Some? ==>
                  (c.mcs, Profile(c).fec, b.mcs, b.fec) in d.learned.rejections
                  && d.learned.rejections[(c.mcs, Profile(c).fec, b.mcs, b.fec)] == c.probe.quality.value)
  {
    hide Valid, StillAhead, Overreached, SparseLoss, RungBelow;
  }

  // ---------------------------------------------------------------------------------- other queries

  /** `_mcs_ladder` of the production link: one constellation per density up to the ceiling. */
  const PRODUCTION_LADDER: seq<Mcs> := [1, 7, 16, 8, 17, 10, 18, 13, 19]

  lemma ProductionAscends(n: nat)
    requires 1 <= n <= |PRODUCTION_LADDER|
    ensures Ascending(PRODUCTION_LADDER[..n])
  {
    var p := PRODUCTION_LADDER;
    assert forall i, j :: 0 <= i < j < |p| ==> p[i] != p[j] && Bits(p[i]) <= Bits(p[j]);
  }

  function Rank(fec: FecProfile): (i: nat)
    ensures fec.Ldpc? ==> i < |LDPC_LADDER| && LDPC_LADDER[i] == fec
    ensures fec.Conv? ==> i < |CONV_LADDER| && CONV_LADDER[i] == fec
  {
    match fec
    case Conv(Rate12) => 0 case Conv(Rate23) => 1 case Conv(Rate34) => 2 case Conv(Rate56) => 3 case Conv(Rate78) => 4
    case Ldpc(Ldpc12) => 0 case Ldpc(Ldpc23) => 1 case Ldpc(Ldpc710) => 2 case Ldpc(Ldpc34) => 3
    case Ldpc(Ldpc45) => 4 case Ldpc(Ldpc78) => 5 case Ldpc(Ldpc910) => 6
  }

  /** `fec_for_retry`. */
  function FecForRetry(base: FecProfile, attempts: nat): FecProfile {
    var family := if base.Ldpc? then LDPC_LADDER else CONV_LADDER;
    if base.Ldpc? && attempts >= 2 then Conv(Rate12)
    else family[Most(attempts, Rank(base)) - attempts]
  }

  /** The first attempt keeps the code, later ones never weaken it, and a modern code's third attempt
      is the mother code every peer decodes. */
  lemma RetryNeverWeaker(base: FecProfile, a: nat, b: nat)
    requires a <= b
    ensures FecForRetry(base, 0) == base
    ensures CodeRate(FecForRetry(base, b)) <= CodeRate(FecForRetry(base, a))
    ensures base.Ldpc? && a >= 2 ==> FecForRetry(base, a) == Conv(Rate12)
  {
    var family := if base.Ldpc? then LDPC_LADDER else CONV_LADDER;
    var i, j := Most(b, Rank(base)) - b, Most(a, Rank(base)) - a;
    var cfg := Config(true, base.Ldpc?, base, None, true, 4096, 512, 8192, None, 512, 3, 6, 0.25, false);
    assert Fecs(cfg) == family;
    if i < j {
      RatesRise(cfg, i, j);
    }
    hide Rank, CodeRate;
  }
}

/** Why one controller must not be given to both policies: a run after which a loss raises the density.
    This is about what the class allows; no link of the program makes such a run (`LinkFeedback`). */
module MixedPolicies {
  import opened Wrappers
  import opened Coding
  import opened Adaptation

  const MIXED_CONFIG := Config(true, true, Ldpc(Ldpc12), Some(Ldpc(Ldpc23)), true, 4096, 512, 8192, None, 512,
                               3, 6, 0.25, false)

  const CLEAN_REPORT := Report(4, 4, 0, 2048, 0.0, Some(5.0), Some(0.2), None, None)

  const LOST_REPORT := Report(1, 0, 0, 0, 0.0, None, None, None, None)

  function MixedStart(): Controller {
    Init(MIXED_CONFIG, 1).(meters := Metered(MIXED_CONFIG, Meters(None, None, None, None), CLEAN_REPORT), streak := 0)
  }

  lemma MixedStarts()
    ensures Valid(Init(MIXED_CONFIG, 1), [1]) && Valid(MixedStart(), [1])
    ensures MixedStart().mcs == 1 && MixedStart().fec == Ldpc(Ldpc23) && MixedStart().probe == NO_PROBE
    ensures MixedStart().cfg == MIXED_CONFIG && MixedStart().lossCooldown == 0 && MixedStart().dimension == ByMcs
    ensures MixedStart().learned.rejections == map[] && MixedStart().meters.snr == Some(5.0)
  {
  }

  lemma MixedSettled()
    ensures var s := Settled(MixedStart(), Quality(5.0, 0.2), CLEAN_REPORT);
            && s.learned.rejections == map[] && s.dimension == ByMcs && s.meters.snr == Some(5.0)
  {
    MixedStarts();
    hide MixedStart, Desired, AllowedBursts;
  }

  /** The clean report starts a trial of the next code. */
  lemma MixedTrial(amplitude: real -> real)
    ensures Valid(Init(MIXED_CONFIG, 1), [1])
    ensures var c := CapacityStep(Init(MIXED_CONFIG, 1), [1], CLEAN_REPORT, amplitude);
            && c.cfg == MIXED_CONFIG && c.mcs == 1 && c.fec == Ldpc(Ldpc710)
            && c.probe.baseline.Some? && c.probe.baseline.value.mcs == 1 && c.probe.baseline.value.fec == Ldpc(Ldpc23)
  {
    MixedStarts();
    var m, q := MixedStart(), Quality(5.0, 0.2);
    assert CapacityStep(Init(MIXED_CONFIG, 1), [1], CLEAN_REPORT, amplitude)
           == CleanStep(m, [1], CLEAN_REPORT, amplitude);
    assert Measured(CLEAN_REPORT) == Some(q);
    SettledValid(m, [1], q, CLEAN_REPORT);
    SettledProbe(m, q, CLEAN_REPORT);
    MixedSettled();
    hide Settled, Tried, Valid, MixedStart, Init, TooLate, CapacityStep;
    MixedChoice(Settled(m, q, CLEAN_REPORT), q, amplitude);
  }

  predicate MixedAt(s: Controller) {
    && s.cfg == MIXED_CONFIG && s.mcs == 1 && s.fec == Ldpc(Ldpc23) && s.probe == NO_PROBE
    && s.learned.rejections == map[] && s.meters.snr == Some(5.0)
  }

  lemma MixedCandidates(s: Controller, q: Quality, amplitude: real -> real)
    requires Valid(s, [1]) && MixedAt(s)
    ensures Candidates(s, [1], None, q, CLEAN_REPORT, amplitude, ByMcs) == []
    ensures Candidates(s, [1], None, q, CLEAN_REPORT, amplitude, ByFec) == Codes(Profile(s), [Ldpc(Ldpc710)])
  {
    assert IndexOf(Fecs(s.cfg), s.fec) == 1;
    MixedTargets(s);
    hide FecTargets, Density, CodeRate, Bits, Accepted, Ascending, IndexOf, FecLadder, Valid, ShortFec;
    assert Position([1], 1) == 0;
  }

  lemma MixedTargets(s: Controller)
    requires MixedAt(s)
    ensures FecTargets(s, Fecs(s.cfg)[2..], false, true) == [Ldpc(Ldpc710)]
  {
    var higher := Fecs(s.cfg)[2..];
    NoMargin(s, higher);
    assert higher[0] == Ldpc(Ldpc710);
    hide FecsFirst;
  }

  lemma MixedChoice(s: Controller, q: Quality, amplitude: real -> real)
    requires Valid(s, [1]) && MixedAt(s)
    ensures Tried(s, [1], None, q, CLEAN_REPORT, amplitude, ByMcs).None?
    ensures var t := Tried(s, [1], None, q, CLEAN_REPORT, amplitude, ByFec);
            t.Some? && t.value.mcs == 1 && t.value.fec == Ldpc(Ldpc710)
    ensures !TooLate(Profile(s), None, q, CLEAN_REPORT)
  {
    MixedCandidates(s, q, amplitude);
    assert Codes(Profile(s), [Ldpc(Ldpc710)])[0].fec == Ldpc(Ldpc710);
    hide Candidates, Valid;
  }

  lemma {:induction false} NoMargin(c: Controller, higher: seq<FecProfile>)
    requires c.cfg.modernLdpc && c.meters.snr == Some(5.0)
    requires forall f :: f in higher ==> f in LDPC_LADDER[2..]
    ensures FecsFirst(c, higher) == []
  {
    if higher != [] {
      hide RapidMargin;
      assert higher[0] in LDPC_LADDER[2..];
      NoMargin(c, higher[1..]);
    }
  }

  lemma LadderIndex(at: nat)
    requires at < |LDPC_LADDER|
    ensures IndexOf(LDPC_LADDER, LDPC_LADDER[at]) == at
  {
    var i := IndexOf(LDPC_LADDER, LDPC_LADDER[at]);
    if i < at {
      RatesRise(MIXED_CONFIG, i, at);
    } else if at < i {
      RatesRise(MIXED_CONFIG, at, i);
    }
    hide IndexOf;
  }

  lemma MixedDowngrade(c: Controller, at: nat)
    requires Valid(c, [1]) && c.cfg == MIXED_CONFIG && 0 < at < |LDPC_LADDER| && c.fec == LDPC_LADDER[at]
    ensures var d := IncrementalStep(c, [1], LOST_REPORT);
            Valid(d, [1]) && d.cfg == c.cfg && d.mcs == c.mcs && d.probe == c.probe && d.fec == LDPC_LADDER[at - 1]
  {
    IncrementalValid(c, [1], LOST_REPORT);
    BurstLookup(c, [1]);
    LadderIndex(at);
    hide Valid, AllowedBursts, Metered, IndexOf, CleanBurst;
    assert IncrementalStep(c, [1], LOST_REPORT)
        == Downgrade(c.(meters := Metered(c.cfg, c.meters, LOST_REPORT), streak := 0, cooldown := 6));
  }

  lemma MixedReturn(c: Controller, amplitude: real -> real)
    requires Valid(c, [1]) && c.cfg == MIXED_CONFIG && c.mcs == 1 && c.fec == Ldpc(Ldpc12)
    requires c.probe.baseline.Some? && c.probe.baseline.value.mcs == 1 && c.probe.baseline.value.fec == Ldpc(Ldpc23)
    ensures Sends(CapacityStep(c, [1], LOST_REPORT, amplitude)) > Sends(c)
  {
    DenserCode(1, Ldpc(Ldpc12), Ldpc(Ldpc23));
    var m := c.(meters := Metered(c.cfg, c.meters, LOST_REPORT), streak := 0);
    ValidMetered(c, [1], m);
    assert !BaselineBelow(m);
    LostBlockReturns(m, [1], LOST_REPORT);
    hide LossStep, Density, Metered, Valid;
  }

  lemma MixedRun(c: Controller, f: Feedback, g: Feedback, h: Feedback, amplitude: real -> real)
    requires Valid(c, [1])
    ensures var c1 := Apply(c, [1], f, amplitude);
            && Valid(c1, [1]) && Valid(Apply(c1, [1], g, amplitude), [1])
            && Run(c, [1], [f, g, h], amplitude) == Apply(Apply(c1, [1], g, amplitude), [1], h, amplitude)
  {
    hide Valid, Apply;
    var c1 := Apply(c, [1], f, amplitude);
    ApplyValid(c, [1], f, amplitude);
    var c2 := Apply(c1, [1], g, amplitude);
    ApplyValid(c1, [1], g, amplitude);
    ApplyValid(c2, [1], h, amplitude);
    assert [f, g, h][1..] == [g, h] && [g, h][1..] == [h] && [h][1..] == [];
    assert Run(Apply(c2, [1], h, amplitude), [1], [], amplitude) == Apply(c2, [1], h, amplitude);
    assert Run(c2, [1], [h], amplitude) == Apply(c2, [1], h, amplitude);
    assert Run(c1, [1], [g, h], amplitude) == Run(c2, [1], [h], amplitude);
  }

  /** A trial interrupted by two losses reported to the incremental policy leaves a baseline denser than
      what is sent; the next capacity loss climbs back to it. */
  lemma LossClimbs(amplitude: real -> real)
    ensures Valid(Init(MIXED_CONFIG, 1), [1])
    ensures var c := Run(Init(MIXED_CONFIG, 1), [1],
                         [Capacity(CLEAN_REPORT), Incremental(LOST_REPORT), Incremental(LOST_REPORT)], amplitude);
            Sends(CapacityStep(c, [1], LOST_REPORT, amplitude)) > Sends(c)
  {
    MixedTrial(amplitude);
    var c0 := Init(MIXED_CONFIG, 1);
    var c1 := CapacityStep(c0, [1], CLEAN_REPORT, amplitude);
    CapacityValid(c0, [1], CLEAN_REPORT, amplitude);
    MixedRun(c0, Capacity(CLEAN_REPORT), Incremental(LOST_REPORT), Incremental(LOST_REPORT), amplitude);
    hide Valid, Run, CapacityStep, IncrementalStep, Init, Sends;
    MixedLosses(c1, amplitude);
  }

  lemma MixedLosses(c: Controller, amplitude: real -> real)
    requires Valid(c, [1]) && c.cfg == MIXED_CONFIG && c.mcs == 1 && c.fec == Ldpc(Ldpc710)
    requires c.probe.baseline.Some? && c.probe.baseline.value.mcs == 1 && c.probe.baseline.value.fec == Ldpc(Ldpc23)
    ensures Valid(IncrementalStep(c, [1], LOST_REPORT), [1])
    ensures var d := IncrementalStep(IncrementalStep(c, [1], LOST_REPORT), [1], LOST_REPORT);
            Valid(d, [1]) && Sends(CapacityStep(d, [1], LOST_REPORT, amplitude)) > Sends(d)
  {
    hide Valid, CapacityStep, IncrementalStep, Sends;
    MixedDowngrade(c, 2);
    var d := IncrementalStep(c, [1], LOST_REPORT);
    MixedDowngrade(d, 1);
    MixedReturn(IncrementalStep(d, [1], LOST_REPORT), amplitude);
  }
}

/** The rate controller in the form the link runs it: one object per directed path whose methods update
    its choices and what it has learned, each proved to be one step of the policy. */
module AdaptationController {
  import opened Wrappers
  import opened Coding
  import opened Puncturing
  import opened Adaptation

  lemma AdmittedNone(current: TxProfile, higher: seq<Mcs>, q: Quality, amplitude: real -> real)
    requires higher == []
    ensures AdmittedFirst(current, higher, q, amplitude) == []
  {
  }

  /** The search walks the rungs from the top; the candidates are defined from the bottom. */
  lemma {:induction false} AdmittedLast(current: TxProfile, higher: seq<Mcs>, q: Quality, amplitude: real -> real)
    requires higher != []
    ensures AdmittedFirst(current, higher, q, amplitude)
            == (if Admitted(current, higher[|higher| - 1], q, amplitude) then [higher[|higher| - 1]] else [])
               + AdmittedFirst(current, higher[..|higher| - 1], q, amplitude)
  {
    hide Admitted;
    if |higher| > 1 {
      AdmittedLast(current, higher[1..], q, amplitude);
      assert higher[1..][..|higher| - 2] == higher[..|higher| - 1][1..];
    }
  }

  class LinkAdaptationController {
    const cfg: Config
    var mcs: Mcs
    var fec: FecProfile
    var burst: nat
    var meters: Meters
    var streak: nat
    var cooldown: nat
    var upgrade: Upgrade
    var probe: Probe
    var learned: Learned
    var dimension: Dimension
    var lossCooldown: nat

    function View(): Controller
      reads this
    {
      Controller(cfg, mcs, fec, burst, meters, streak, cooldown, upgrade, probe, learned, dimension, lossCooldown)
    }

    /** `__post_init__`. */
    constructor (cfg: Config, mcs: Mcs)
      ensures View() == Init(cfg, mcs)
    {
      this.cfg, this.mcs := cfg, mcs;
      if !cfg.adaptiveFec {
        fec := cfg.fixedFec;
      } else if cfg.initialFec.Some? {
        fec := cfg.initialFec.value;
      } else {
        fec := if cfg.modernLdpc then Ldpc(Ldpc12) else Conv(Rate12);
      }
      if cfg.adaptiveBurst {
        var start := if cfg.initialBurst.Some? then cfg.initialBurst.value else Most(cfg.minBurst, 2048);
        burst := Least(start, cfg.maxBurst);
      } else {
        burst := cfg.fixedBurst;
      }
      meters, streak, cooldown, upgrade := Meters(None, None, None, None), 0, 0, FecNext;
      probe, learned, dimension, lossCooldown := NO_PROBE, Learned(map[], map[], map[], map[]), ByMcs, 0;
    }

    /** `profile`. */
    method CurrentProfile() returns (p: TxProfile)
      ensures p == Profile(View())
    {
      var size := if cfg.adaptiveBurst then burst else cfg.fixedBurst;
      if probe.fecFrom.Some? || probe.mcsFrom.Some? {
        size := Least(size, Most(2048, cfg.arqBlock));
      }
      p := TxProfile(mcs, if cfg.adaptiveFec then fec else cfg.fixedFec, size, cfg.arqBlock);
    }

    /** The measurements of `report_burst`. */
    method Measure(r: Report)
      modifies this`meters
      ensures meters == Metered(cfg, old(meters), r)
    {
      if cfg.rapid && r.mcs.Some? && r.mcs != meters.mcs {
        meters := Meters(r.mcs, None, None, None);
      }
      meters := meters.(latestSnr := r.snr);
      if r.snr.Some? {
        meters := meters.(snr := Some(Ewma(cfg, meters.snr, r.snr.value)));
      }
      if r.evm.Some? {
        meters := meters.(evm := Some(Ewma(cfg, meters.evm, r.evm.value)));
      }
    }

    /** `_downgrade`. */
    method StepDown(ghost ladder: seq<Mcs>)
      requires Valid(View(), ladder)
      modifies this`fec, this`burst, this`upgrade
      ensures cfg.adaptiveBurst ==> old(burst) in AllowedBursts(cfg)
      ensures View() == Downgrade(old(View()))
    {
      BurstLookup(View(), ladder);
      hide Valid, AllowedBursts;
      if cfg.adaptiveFec {
        var at := IndexOf(FecLadder(cfg), fec);
        if at > 0 {
          fec, upgrade := FecLadder(cfg)[at - 1], FecNext;
          return;
        }
      }
      if cfg.adaptiveBurst {
        var at := IndexOf(AllowedBursts(cfg), burst);
        if at > 0 {
          burst := AllowedBursts(cfg)[at - 1];
        }
      }
      upgrade := FecNext;
    }

    /** `_upgrade`. */
    method StepUp(ghost ladder: seq<Mcs>)
      requires Valid(View(), ladder)
      modifies this`fec, this`burst, this`upgrade
      ensures cfg.adaptiveBurst ==> old(burst) in AllowedBursts(cfg)
      ensures View() == Upgraded(old(View()))
    {
      BurstLookup(View(), ladder);
      hide Valid, AllowedBursts, UpgradeAllowed;
      ghost var before := View();
      var next: Option<FecProfile> := None;
      if cfg.adaptiveFec {
        var at := IndexOf(FecLadder(cfg), fec);
        if at + 1 < |FecLadder(cfg)| {
          var admitted := MayUpgrade(FecLadder(cfg)[at + 1]);
          if admitted {
            next := Some(FecLadder(cfg)[at + 1]);
          }
        }
      }
      assert next == NextFec(before);
      if upgrade.FecNext? && next.Some? {
        fec, upgrade := next.value, BurstNext;
        return;
      }
      if cfg.adaptiveBurst {
        var at := IndexOf(AllowedBursts(cfg), burst);
        if at + 1 < |AllowedBursts(cfg)| {
          burst, upgrade := AllowedBursts(cfg)[at + 1], FecNext;
          return;
        }
      }
      if next.Some? {
        fec := next.value;
      }
      upgrade := BurstNext;
    }

    /** `_fec_upgrade_allowed`. */
    method MayUpgrade(candidate: FecProfile) returns (ok: bool)
      ensures ok == UpgradeAllowed(View(), candidate)
    {
      if !cfg.modernLdpc { return true; }
      if cfg.rapid {
        var required := MinSnr(mcs) + 1.5 + FecMargin(candidate);
        var measured := meters.snr;
        if measured.Some? && meters.latestSnr.Some? && meters.latestSnr.value < measured.value {
          measured := meters.latestSnr;
        }
        if measured.None? || measured.value < required { return false; }
      }
      if meters.snr.None? { return PermittedEvm(candidate).None?; }
      if meters.snr.value < RequiredSnr(candidate) { return false; }
      ok := PermittedEvm(candidate).None? || meters.evm.None? || meters.evm.value <= PermittedEvm(candidate).value;
    }

    /** `report_burst` with profile adaptation. */
    method ReportBurst(r: Report, ghost ladder: seq<Mcs>)
      requires Valid(View(), ladder)
      modifies this
      ensures View() == IncrementalStep(old(View()), ladder, r)
    {
      ghost var before := View();
      BurstLookup(before, ladder);
      Measure(r);
      ghost var m := View();
      ValidMetered(before, ladder, m);
      if r.acked < Most(1, r.sent) {
        streak, cooldown := 0, if cfg.rapid then 0 else cfg.lossCooldown;
        StepDown(ladder);
        return;
      }
      if cfg.rapid && r.retransmitted > 0 { return; }
      if cooldown > 0 {
        cooldown := cooldown - 1;
        streak := if cfg.rapid then streak + 1 else 0;
        return;
      }
      CleanIncrement(r, ladder);
    }

    /** The clean end of `report_burst`. */
    method CleanIncrement(r: Report, ghost ladder: seq<Mcs>)
      requires Valid(View(), ladder)
      requires cfg.adaptiveBurst ==> burst in AllowedBursts(cfg)
      requires cfg.maxBurst in AllowedBursts(cfg)
      modifies this
      ensures View() == CleanBurst(old(View()), r)
    {
      MaxInRange(cfg);
      if WindowEarned(View(), r) {
        burst := cfg.maxBurst;
      }
      streak := streak + 1;
      var evidence := FecEvidence(View(), r);
      var threshold := if evidence then Least(cfg.cleanBursts, 2) else cfg.cleanBursts;
      if streak < threshold { return; }
      hide UpgradeAllowed, AllowedBursts, InRange, Accepted, Ascending;
      var jump := false;
      if evidence && cfg.adaptiveFec && fec == Ldpc(Ldpc12) {
        jump := MayUpgrade(Ldpc(Ldpc34));
      }
      streak := 0;
      if jump {
        fec, upgrade := Ldpc(Ldpc34), BurstNext;
      } else {
        StepUp(ladder);
      }
    }

    /** The rungs above the current one whose margin is there, highest first, and the next rung if it may
        be tried blind. */
    method CollectTargets(higher: seq<Mcs>, current: TxProfile, q: Quality, amplitude: real -> real, blind: bool)
      returns (targets: seq<Mcs>)
      ensures targets == McsTargets(current, higher, q, amplitude, blind)
    {
      hide AdmittedFirst, Admitted;
      targets := [];
      var i := |higher|;
      assert higher[..i] == higher;
      while i > 0
        invariant 0 <= i <= |higher|
        invariant AdmittedFirst(current, higher, q, amplitude)
                  == targets + AdmittedFirst(current, higher[..i], q, amplitude)
      {
        i := i - 1;
        AdmittedLast(current, higher[..i + 1], q, amplitude);
        assert higher[..i + 1][..i] == higher[..i];
        if Admitted(current, higher[i], q, amplitude) {
          targets := targets + [higher[i]];
        }
      }
      AdmittedNone(current, higher[..0], q, amplitude);
      if blind && higher != [] && higher[0] !in targets {
        targets := targets + [higher[0]];
      }
    }

    /** One target constellation with every code no weaker than the current one that makes it denser. */
    method CollectCodes(current: TxProfile, item: Mcs, codes: seq<FecProfile>, floor: real)
      returns (choices: seq<TxProfile>)
      ensures choices == JointChoices(current, item, codes, floor)
    {
      hide Density, CodeRate, Bits;
      choices := [];
      var j := |codes|;
      assert codes[..j] == codes;
      while j > 0
        invariant 0 <= j <= |codes|
        invariant JointChoices(current, item, codes, floor) == choices + JointChoices(current, item, codes[..j], floor)
      {
        j := j - 1;
        assert codes[..j + 1][..j] == codes[..j];
        if Density(item, codes[j]) > floor {
          choices := choices + [TxProfile(item, codes[j], current.burst, current.arq)];
        }
      }
    }

    method CollectMcs(current: TxProfile, targets: seq<Mcs>, codes: seq<FecProfile>) returns (choices: seq<TxProfile>)
      ensures choices == McsCandidates(current, targets, codes, Density(current.mcs, current.fec))
    {
      choices := [];
      var density := Density(current.mcs, current.fec);
      var i := 0;
      while i < |targets|
        invariant 0 <= i <= |targets|
        invariant McsCandidates(current, targets, codes, density)
                  == choices + McsCandidates(current, targets[i..], codes, density)
      {
        hide Density, JointChoices;
        var more := CollectCodes(current, targets[i], codes, density);
        choices := choices + more;
        assert targets[i..][1..] == targets[i + 1..];
        i := i + 1;
      }
    }

    /** The codes above the current one as trials. */
    method CollectFec(current: TxProfile, higher: seq<FecProfile>, short: bool, blind: bool)
      returns (choices: seq<TxProfile>)
      ensures choices == Codes(current, FecTargets(View(), higher, short, blind))
    {
      if !cfg.adaptiveFec || higher == [] { return []; }
      var ordered := FecsFirst(View(), higher);
      if short {
        ordered := [Ldpc(Ldpc45)] + Without(ordered, Ldpc(Ldpc45));
      }
      if blind && higher[0] !in ordered {
        ordered := ordered + [higher[0]];
      }
      assert ordered == FecTargets(View(), higher, short, blind);
      choices := Codes(current, ordered);
    }

    /** The first candidate that pays for its turn and is not spoiled by an earlier failure. */
    method FirstAllowed(current: TxProfile, choices: seq<TxProfile>, q: Quality, r: Report)
      returns (t: Option<TxProfile>)
      ensures t == Chosen(View(), current, choices, q, r)
    {
      hide Pays, Spoiled;
      var i := 0;
      while i < |choices|
        invariant 0 <= i <= |choices|
        invariant Chosen(View(), current, choices, q, r) == Chosen(View(), current, choices[i..], q, r)
      {
        if Pays(current, choices[i], r) {
          var spoiled := HasFailed(current, choices[i], q);
          if !spoiled { return Some(choices[i]); }
        }
        assert choices[i..][1..] == choices[i + 1..];
        i := i + 1;
      }
      t := None;
    }

    /** Whether a remembered failure rules a candidate out. */
    method HasFailed(current: TxProfile, target: TxProfile, q: Quality) returns (found: bool)
      ensures found == Spoiled(View(), current, target, q)
    {
      found := false;
      var left := learned.rejections.Keys;
      while left != {}
        invariant left <= learned.rejections.Keys
        invariant found <==> exists k :: k in learned.rejections && k !in left && k.0 == target.mcs &&
                                         k.2 == current.mcs && CodeRate(k.1) <= CodeRate(target.fec) &&
                                         !Better(q, learned.rejections[k])
        decreases |left|
      {
        hide CodeRate, Better;
        var k :| k in left;
        left := left - {k};
        if k.0 == target.mcs && k.2 == current.mcs && CodeRate(k.1) <= CodeRate(target.fec)
           && !Better(q, learned.rejections[k]) {
          found := true;
        }
      }
    }

    /** The candidates of one dimension, and the first of them that is allowed. */
    method TryDimension(ladder: seq<Mcs>, baseline: Option<TxProfile>, q: Quality, r: Report,
                        amplitude: real -> real, tried: Dimension)
      returns (t: Option<TxProfile>)
      requires Valid(View(), ladder)
      ensures t == Tried(View(), ladder, baseline, q, r, amplitude, tried)
    {
      var choices := CollectCandidates(ladder, baseline, q, r, amplitude, tried);
      var current := CurrentProfile();
      hide Candidates, Valid, Profile, Chosen;
      t := FirstAllowed(current, choices, q, r);
    }

    method CollectCandidates(ladder: seq<Mcs>, baseline: Option<TxProfile>, q: Quality, r: Report,
                             amplitude: real -> real, tried: Dimension)
      returns (choices: seq<TxProfile>)
      requires Valid(View(), ladder)
      ensures choices == Candidates(View(), ladder, baseline, q, r, amplitude, tried)
    {
      var current := CurrentProfile();
      var at := IndexOf(Fecs(cfg), fec);
      var short := ShortFec(current, baseline, q, r);
      var blind := Blind(current, baseline, q, r);
      hide ShortFec, Blind, Profile, McsTargets, McsCandidates, FecTargets, Codes, Density, Valid;
      if tried.ByMcs? {
        var targets := CollectTargets(ladder[Position(ladder, mcs) + 1..], current, q, amplitude, blind);
        choices := CollectMcs(current, targets, Fecs(cfg)[..at + 1]);
      } else {
        choices := CollectFec(current, Fecs(cfg)[at + 1..], short, blind);
      }
    }

    /** The search for the next trial at the end of `report_capacity_burst`. */
    method FindTrial(ladder: seq<Mcs>, baseline: Option<TxProfile>, q: Quality, r: Report, amplitude: real -> real)
      requires Valid(View(), ladder)
      modifies this
      ensures View() == Explore(old(View()), ladder, baseline, q, r, amplitude)
    {
      var current := CurrentProfile();
      hide Valid, Tried, Profile, TooLate;
      if TooLate(current, baseline, q, r) { return; }
      var tried := dimension;
      var target := TryDimension(ladder, baseline, q, r, amplitude, tried);
      if target.None? {
        tried := if dimension.ByFec? then ByMcs else ByFec;
        target := TryDimension(ladder, baseline, q, r, amplitude, tried);
      }
      if target.Some? {
        Begin(current, q, target.value, tried);
      }
    }

    method Begin(current: TxProfile, q: Quality, target: TxProfile, tried: Dimension)
      modifies this
      ensures View() == StartTrial(old(View()), current, q, target, tried)
    {
      probe := Probe(if target.fec != current.fec then Some(current.fec) else None,
                     if target.mcs != current.mcs then Some(current.mcs) else None,
                     Some(current), Some(q));
      mcs, fec := target.mcs, target.fec;
      dimension := if tried.ByMcs? then ByFec else ByMcs;
    }

    /** The ceiling a sparse loss left on this profile's window, and whether it still holds. */
    method ApplyCeiling(key: (Mcs, FecProfile), q: Quality, r: Report) returns (limit: Option<nat>)
      modifies this`learned
      ensures (learned, limit) == Ceiling(old(learned), key, q, r)
    {
      limit := None;
      if key !in learned.ceiling { return; }
      var (size, failed) := learned.ceiling[key];
      if !Better(q, failed) {
        var clean := if key in learned.ceilingClean then learned.ceilingClean[key] else 0;
        if r.unique >= size {
          clean := clean + 1;
        }
        if !(clean >= 2 && r.remaining.Some? && r.remaining.value >= 2 * size) {
          learned := learned.(ceilingClean := learned.ceilingClean[key := clean]);
          return Some(size);
        }
      }
      learned := learned.(ceiling := learned.ceiling - {key}, ceilingClean := learned.ceilingClean - {key});
    }

    /** The window growth of a clean report. */
    method GrowWindow(current: TxProfile, baseline: Option<TxProfile>, q: Quality, r: Report)
      modifies this`learned, this`burst
      ensures View() == Grown(old(View()), current, baseline, q, r)
    {
      hide Ceiling, AllowedBursts;
      if !cfg.adaptiveBurst || r.unique < 512 { return; }
      var desired: nat;
      if baseline.Some? && baseline.value.fec != current.fec {
        desired := Most(cfg.minBurst, 2 * r.unique);
      } else if current.fec == Ldpc(Ldpc12) {
        desired := cfg.maxBurst;
      } else {
        desired := Most(cfg.minBurst, 2 * burst);
      }
      var limit := ApplyCeiling((current.mcs, current.fec), q, r);
      if limit.Some? {
        desired := Least(desired, limit.value);
      }
      burst := Least(cfg.maxBurst, FirstAtLeast(AllowedBursts(cfg), desired, cfg.maxBurst));
    }

    /** The clean branch of `report_capacity_burst`. */
    method ReportClean(ladder: seq<Mcs>, r: Report, amplitude: real -> real)
      requires Valid(View(), ladder)
      modifies this
      ensures View() == CleanStep(old(View()), ladder, r, amplitude)
    {
      ghost var before := View();
      var current := CurrentProfile();
      var baseline := probe.baseline;
      probe := NO_PROBE;
      var quality := Measured(r);
      assert baseline.None? ==> before.probe.fecFrom.None? && before.probe.mcsFrom.None?;
      if quality.None? { return; }
      var q := quality.value;
      learned := learned.(quality := learned.quality[(current.mcs, current.fec) := q]);
      assert View() == Confirmed(before, q);
      hide Valid, Grown, Explore, Profile, Confirmed;
      GrowWindow(current, baseline, q, r);
      SettledValid(before, ladder, q, r);
      if lossCooldown > 0 {
        lossCooldown := lossCooldown - 1;
        return;
      }
      FindTrial(ladder, baseline, q, r, amplitude);
    }

    /** Keep a code that stays clearly ahead of its baseline, and confirm it with a bounded window. */
    method Keep(current: TxProfile)
      requires current == Profile(View())
      modifies this`burst, this`probe
      ensures View() == KeepFaster(old(View()))
    {
      burst := Least(cfg.maxBurst, Most(cfg.minBurst, 2 * current.burst));
      probe := NO_PROBE;
    }

    /** Keep the working code and bound the next window. */
    method Shorten(current: TxProfile, quality: Option<Quality>, r: Report)
      requires current == Profile(View())
      modifies this`burst, this`learned
      ensures View() == ShortenWindow(old(View()), quality, r)
    {
      hide AllowedBursts, Profile;
      var observed := r.sent * current.arq;
      var target := if r.sent - r.acked == 1 then observed else (observed + 1) / 2;
      var shorter := FirstAtLeast(AllowedBursts(cfg), target, cfg.maxBurst);
      burst := Most(cfg.minBurst, Least(current.burst, shorter));
      if quality.Some? {
        var key := (current.mcs, current.fec);
        learned := learned.(ceiling := learned.ceiling[key := (burst, quality.value)],
                            ceilingClean := learned.ceilingClean[key := 0]);
      }
    }

    /** Choose where to fall back to, and what the failure is remembered with. */
    method ChooseFallback(ladder: seq<Mcs>, current: TxProfile, r: Report)
      returns (to: TxProfile, failed: Option<Quality>)
      requires Valid(View(), ladder) && current == Profile(View())
      ensures to == FallbackOf(View(), ladder, r) && failed == FailedQuality(View(), ladder, r)
    {
      hide RungBelow, Accepted, InRange, Ascending, FecLadder, Bits, CodeRate;
      var fallback: Option<TxProfile> := probe.baseline;
      var partial := false;
      if probe.baseline.Some? && current.mcs != probe.baseline.value.mcs && r.sent >= 4 && r.acked * 4 >= r.sent * 3 {
        var previous := ladder[Most(1, Position(ladder, current.mcs)) - 1];
        if previous != probe.baseline.value.mcs {
          fallback, partial := Some(TxProfile(previous, current.fec, burst, current.arq)), true;
        }
      }
      assert partial <==> PartialLoss(View(), ladder, r);
      if fallback.None? || (fallback.value.mcs == current.mcs && fallback.value.fec == current.fec) {
        to := OneRungBelow(ladder, current);
      } else {
        to := fallback.value;
      }
      var key := (to.mcs, to.fec);
      failed := if partial then Measured(r)
                else if probe.baseline.Some? then probe.quality
                else if key in learned.quality then Some(learned.quality[key])
                else None;
    }

    method OneRungBelow(ladder: seq<Mcs>, current: TxProfile) returns (to: TxProfile)
      requires Valid(View(), ladder) && current == Profile(View())
      ensures to == RungBelow(View(), ladder)
    {
      var codes := if cfg.adaptiveFec then FecLadder(cfg) else [current.fec];
      assert codes == Fecs(cfg);
      var at := IndexOf(codes, fec);
      var position := Position(ladder, current.mcs);
      to := TxProfile(if at > 0 then current.mcs else ladder[Most(1, position) - 1], codes[Most(1, at) - 1],
                      burst, current.arq);
    }

    /** Return to the baseline, or step down one rung. */
    method FallBack(ladder: seq<Mcs>, current: TxProfile, r: Report)
      requires Valid(View(), ladder) && current == Profile(View())
      modifies this
      ensures View() == Fallback(old(View()), ladder, r)
    {
      hide Valid, FallbackOf, FailedQuality, Profile;
      var to, failed := ChooseFallback(ladder, current, r);
      if failed.Some? {
        learned := learned.(rejections :=
                              learned.rejections[(current.mcs, current.fec, to.mcs, to.fec) := failed.value]);
      }
      mcs, fec, probe := to.mcs, to.fec, NO_PROBE;
      if (to.mcs, to.fec) == (current.mcs, current.fec) {
        burst := Most(cfg.minBurst, burst / 2);
      }
    }

    /** The lossy branch of `report_capacity_burst`. */
    method ReportLoss(ladder: seq<Mcs>, r: Report)
      requires Valid(View(), ladder)
      modifies this
      ensures View() == LossStep(old(View()), ladder, r)
    {
      var current := CurrentProfile();
      var quality := Measured(r);
      var sparse := SparseLoss(View(), current, r);
      assert ladder != [];
      lossCooldown := 2;
      assert Valid(View(), ladder) && current == Profile(View());
      hide Valid, Profile, StillAhead, Overreached, SparseLoss, Fallback, ShortenWindow, KeepFaster, Position;
      if probe.baseline.Some? && StillAhead(current, probe.baseline.value, r) {
        Keep(current);
      } else if probe.baseline.None? && Overreached(current, ladder, quality) {
        StepDownTo(ladder, current);
      } else if probe.baseline.None? && sparse {
        Shorten(current, quality, r);
      } else {
        FallBack(ladder, current, r);
      }
    }

    /** The measured margin does not carry this constellation. */
    method StepDownTo(ladder: seq<Mcs>, current: TxProfile)
      requires ladder != [] && current == Profile(View())
      modifies this`mcs, this`burst
      ensures View() == StepConstellation(old(View()), ladder)
    {
      burst := Most(cfg.minBurst, Least(current.burst / 2, burst));
      mcs := ladder[Most(1, Position(ladder, current.mcs)) - 1];
    }

    /** `report_capacity_burst`: explore the path, one bounded trial per acknowledgement. */
    method ReportCapacityBurst(ladder: seq<Mcs>, r: Report, amplitude: real -> real)
      requires Valid(View(), ladder)
      modifies this
      ensures View() == CapacityStep(old(View()), ladder, r, amplitude)
    {
      ghost var before := View();
      Measure(r);
      streak := 0;
      ValidMetered(before, ladder, View());
      hide Valid, LossStep, CleanStep;
      if r.retransmitted > 0 { return; }
      if r.acked < r.sent {
        ReportLoss(ladder, r);
      } else {
        ReportClean(ladder, r, amplitude);
      }
    }
  }
}
