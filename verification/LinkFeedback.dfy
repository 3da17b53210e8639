/** What the link makes of a delivery report: it moves the modulation itself, or leaves every decision to
    the capacity policy, and which of the two is settled by its configuration. */
module LinkFeedback {
  import opened Wrappers
  import opened Coding
  import opened Adaptation
  import Runtime = AdaptationController

  /** The part of the link's configuration that picks the policy; with a rescue retry, the modulation
      below which a loss does not step. */
  datatype Link = Link(superframe: bool, adaptiveMcs: bool, rescue: Option<Mcs>)

  /** A directed path: its controller and the two counters the link keeps beside it. */
  datatype Path = Path(c: Controller, streak: nat, cooldown: nat)

  /** `recovery_cooldown_bursts`. */
  function Recovery(cfg: Config): nat { if cfg.rapid then 0 else cfg.lossCooldown }

  /** Evidence that lets an acquiring link skip rungs. */
  predicate MayJump(c: Controller, r: Report) {
    c.cfg.rapid && r.sent >= 2 && Bits(c.mcs) <= 2.0 && r.evm.Some? && r.evm.value <= 0.25
  }

  predicate Usable(c: Controller, item: Mcs, snr: real, jump: bool) {
    && snr >= MinSnr(item) + 1.5 + (if c.cfg.rapid then FecMargin(Profile(c).fec) else 0.0)
    && (jump ==> Bits(item) <= 4.0)
  }

  /** The highest usable one of the first `n` rungs. */
  function HighestUsable(c: Controller, ladder: seq<Mcs>, snr: real, jump: bool, n: nat): (at: Option<nat>)
    requires n <= |ladder|
    ensures at.Some? ==> at.value < n && Usable(c, ladder[at.value], snr, jump)
    ensures forall i :: 0 <= i < n && Usable(c, ladder[i], snr, jump) ==> at.Some? && i <= at.value
  {
    if n == 0 then None
    else if Usable(c, ladder[n - 1], snr, jump) then Some(n - 1)
    else HighestUsable(c, ladder, snr, jump, n - 1)
  }

  /** Clean delivery never lowers the modulation; the measured margin only lets it rise, one rung at a time
      unless the link may jump. */
  function TargetRung(c: Controller, ladder: seq<Mcs>, snr: real, jump: bool): (at: nat)
    requires c.mcs in ladder
    ensures Position(ladder, c.mcs) <= at < |ladder|
    ensures !jump ==> at <= Position(ladder, c.mcs) + 1
  {
    var here, top := Position(ladder, c.mcs), HighestUsable(c, ladder, snr, jump, |ladder|);
    if top.None? then here else Most(here, if jump then top.value else Least(here + 1, top.value))
  }

  /** `_report_mcs_feedback`. */
  function McsFeedback(p: Path, link: Link, ladder: seq<Mcs>, r: Report): Path
    requires p.c.mcs in ladder
  {
    var c := p.c;
    if !link.adaptiveMcs then p
    else if r.acked < r.sent then
      var here, floor := Position(ladder, c.mcs), if link.rescue.Some? then Position(ladder, link.rescue.value) else 0;
      Path(if here > floor then c.(mcs := ladder[here - 1]) else c, 0, Recovery(c.cfg))
    else if r.snr.None? || (r.retransmitted > 0 && c.cfg.rapid) then p
    else if p.cooldown > 0 then Path(c, p.streak + 1, p.cooldown - 1)
    else
      var jump := MayJump(c, r);
      if p.streak + 1 < (if jump then 1 else 3) then Path(c, p.streak + 1, 0)
      else Path(c.(mcs := ladder[TargetRung(c, ladder, r.snr.value, jump)]), 0, 0)
  }

  lemma McsFeedbackValid(p: Path, link: Link, ladder: seq<Mcs>, r: Report)
    requires Valid(p.c, ladder)
    ensures var c := McsFeedback(p, link, ladder, r).c;
            Valid(c, ladder) && c == p.c.(mcs := c.mcs) && (r.acked < r.sent ==> Sends(c) <= Sends(p.c))
  {
    var here := Position(ladder, p.c.mcs);
    if link.adaptiveMcs && r.acked < r.sent && here > 0 {
      DenserMcs(ladder[here - 1], p.c.mcs, Profile(p.c).fec);
    }
    hide Accepted, InRange, Density, HighestUsable, Usable, TargetRung;
  }

  /** Which policy decides is a matter of configuration. */
  predicate ByCapacity(link: Link, cfg: Config) { link.superframe && link.adaptiveMcs && cfg.rapid }

  /** `_report_delivery_feedback`. */
  function Delivered(p: Path, link: Link, ladder: seq<Mcs>, r: Report, amplitude: real -> real): Path
    requires Valid(p.c, ladder)
  {
    if ByCapacity(link, p.c.cfg) then p.(c := CapacityStep(p.c, ladder, r, amplitude))
    else
      McsFeedbackValid(p, link, ladder, r);
      var q := McsFeedback(p, link, ladder, r);
      q.(c := IncrementalStep(q.c, ladder, r))
  }

  lemma OnTheLadder(c: Controller, ladder: seq<Mcs>)
    requires Valid(c, ladder)
    ensures c.mcs in ladder
  {
  }

  // ------------------------------------------------------------------------------------------- runs

  datatype Event = MessageStarts | Feedback(r: Report)

  function Apply(p: Path, link: Link, ladder: seq<Mcs>, e: Event, amplitude: real -> real): Path
    requires Valid(p.c, ladder)
  {
    match e
    case MessageStarts => p.(c := StartMessage(p.c))
    case Feedback(r) => Delivered(p, link, ladder, r, amplitude)
  }

  /** A capacity link's trial is denser than its baseline; an incremental one never has a trial. */
  ghost predicate TrialSound(p: Path, link: Link) {
    if ByCapacity(link, p.c.cfg) then Climbing(p.c) else p.c.probe == NO_PROBE
  }

  ghost predicate Inv(p: Path, link: Link, ladder: seq<Mcs>) { Valid(p.c, ladder) && TrialSound(p, link) }

  lemma StartKeeps(p: Path, link: Link, ladder: seq<Mcs>, amplitude: real -> real)
    requires Inv(p, link, ladder)
    ensures var q := Apply(p, link, ladder, MessageStarts, amplitude); Inv(q, link, ladder) && q.c.cfg == p.c.cfg
  {
    StartValid(p.c, ladder);
    hide Valid, WarmStart, Density;
  }

  lemma DeliveredKeeps(p: Path, link: Link, ladder: seq<Mcs>, r: Report, amplitude: real -> real)
    requires Inv(p, link, ladder)
    ensures var q := Delivered(p, link, ladder, r, amplitude); Inv(q, link, ladder) && q.c.cfg == p.c.cfg
  {
    hide Valid, CapacityStep, IncrementalStep, McsFeedback, Climbing, Sends;
    if ByCapacity(link, p.c.cfg) {
      CapacityValid(p.c, ladder, r, amplitude);
      CapacityClimbing(p.c, ladder, r, amplitude);
      CapacityKeepsConfig(p.c, ladder, r, amplitude);
    } else {
      OnTheLadder(p.c, ladder);
      McsFeedbackValid(p, link, ladder, r);
      var c := McsFeedback(p, link, ladder, r).c;
      IncrementalValid(c, ladder, r);
      IncrementalKeepsConfig(c, ladder, r);
    }
  }

  ghost function Run(p: Path, link: Link, ladder: seq<Mcs>, es: seq<Event>, amplitude: real -> real): (q: Path)
    requires Inv(p, link, ladder)
    ensures Inv(q, link, ladder) && q.c.cfg == p.c.cfg
    decreases |es|
  {
    if es == [] then p
    else
      ApplyKeeps(p, link, ladder, es[0], amplitude);
      Run(Apply(p, link, ladder, es[0], amplitude), link, ladder, es[1..], amplitude)
  }

  lemma ApplyKeeps(p: Path, link: Link, ladder: seq<Mcs>, e: Event, amplitude: real -> real)
    requires Inv(p, link, ladder)
    ensures var q := Apply(p, link, ladder, e, amplitude); Inv(q, link, ladder) && q.c.cfg == p.c.cfg
  {
    hide Inv, Delivered;
    match e
    case MessageStarts => StartKeeps(p, link, ladder, amplitude);
    case Feedback(r) => DeliveredKeeps(p, link, ladder, r, amplitude);
  }

  /** A new path of a link. */
  function NewPath(cfg: Config, mcs: Mcs): Path { Path(Init(cfg, mcs), 0, 0) }

  /** Every run of a link, whichever policy its configuration picks, message starts included, keeps all
      choices on their ladders and is without a trial under the incremental policy. */
  lemma LinkOnLadders(cfg: Config, mcs: Mcs, link: Link, ladder: seq<Mcs>, es: seq<Event>, amplitude: real -> real)
    requires Valid(Init(cfg, mcs), ladder)
    ensures Inv(NewPath(cfg, mcs), link, ladder)
    ensures var c := Run(NewPath(cfg, mcs), link, ladder, es, amplitude).c;
            && c.cfg == cfg && c.mcs in ladder && c.fec in Fecs(cfg) && (cfg.adaptiveBurst ==> InRange(cfg, c.burst))
            && (c.probe.baseline.Some? <==> c.probe.fecFrom.Some? || c.probe.mcsFrom.Some?)
            && (!ByCapacity(link, cfg) ==> c.probe == NO_PROBE)
  {
    hide Accepted, InRange, Ascending, Density, Run;
  }

  /** A lost report never leaves a denser profile than the one that lost, in any run of any link: no link
      gives one controller to both policies. */
  lemma LossNeverClimbs(cfg: Config, mcs: Mcs, link: Link, ladder: seq<Mcs>, es: seq<Event>, last: Report,
                        amplitude: real -> real)
    requires Valid(Init(cfg, mcs), ladder) && last.acked < last.sent
    ensures Inv(NewPath(cfg, mcs), link, ladder)
    ensures var p := Run(NewPath(cfg, mcs), link, ladder, es, amplitude);
            Sends(Delivered(p, link, ladder, last, amplitude).c) <= Sends(p.c)
  {
    LinkOnLadders(cfg, mcs, link, ladder, es, amplitude);
    var p := Run(NewPath(cfg, mcs), link, ladder, es, amplitude);
    hide Valid, CapacityStep, IncrementalStep, McsFeedback, Climbing, Sends, Run, NewPath;
    if ByCapacity(link, cfg) {
      CapacityLossNotDenser(p.c, ladder, last, amplitude);
    } else {
      McsFeedbackValid(p, link, ladder, last);
      IncrementalLossNotDenser(McsFeedback(p, link, ladder, last).c, ladder, last);
    }
  }

  // ------------------------------------------------------------------------------- the link's methods

  /** The sending side of the link: one object beside the controller it reports to. */
  class OfdmLink {
    const superframe: bool
    const adaptiveMcs: bool
    const rescue: Option<Mcs>
    const controller: Runtime.LinkAdaptationController
    var cleanStreak: nat
    var upgradeCooldown: nat

    function View(): Path
      reads this, controller
    {
      Path(controller.View(), cleanStreak, upgradeCooldown)
    }

    function Settings(): Link { Link(superframe, adaptiveMcs, rescue) }

    constructor (controller: Runtime.LinkAdaptationController, superframe: bool, adaptiveMcs: bool, rescue: Option<Mcs>)
      ensures this.controller == controller && Settings() == Link(superframe, adaptiveMcs, rescue)
      ensures View() == Path(controller.View(), 0, 0)
    {
      this.controller, this.superframe, this.adaptiveMcs, this.rescue := controller, superframe, adaptiveMcs, rescue;
      cleanStreak, upgradeCooldown := 0, 0;
    }

    /** `_report_mcs_feedback`. */
    method ReportMcsFeedback(ladder: seq<Mcs>, r: Report)
      requires controller.mcs in ladder
      modifies this, controller`mcs
      ensures View() == McsFeedback(old(View()), Settings(), ladder, r)
    {
      if !adaptiveMcs { return; }
      var here := Position(ladder, controller.mcs);
      if r.acked < r.sent {
        cleanStreak, upgradeCooldown := 0, Recovery(controller.cfg);
        var floor := 0;
        if rescue.Some? {
          floor := Position(ladder, rescue.value);
        }
        if here > floor {
          controller.mcs := ladder[here - 1];
        }
        return;
      }
      if r.snr.None? || (r.retransmitted > 0 && controller.cfg.rapid) { return; }
      cleanStreak := cleanStreak + 1;
      if upgradeCooldown > 0 {
        upgradeCooldown := upgradeCooldown - 1;
        return;
      }
      var jump := MayJump(controller.View(), r);
      if cleanStreak < (if jump then 1 else 3) { return; }
      cleanStreak := 0;
      var top := FindUsable(ladder, r.snr.value, jump);
      var target := here;
      if top.Some? {
        target := Most(here, if jump then top.value else Least(here + 1, top.value));
      }
      controller.mcs := ladder[target];
    }

    /** The highest rung whose margin was measured. */
    method FindUsable(ladder: seq<Mcs>, snr: real, jump: bool) returns (top: Option<nat>)
      ensures top == HighestUsable(controller.View(), ladder, snr, jump, |ladder|)
    {
      hide Usable;
      top := None;
      for i := 0 to |ladder|
        invariant top == HighestUsable(controller.View(), ladder, snr, jump, i)
      {
        if Usable(controller.View(), ladder[i], snr, jump) { top := Some(i); }
      }
    }

    /** `_report_delivery_feedback`. */
    method ReportDeliveryFeedback(ladder: seq<Mcs>, r: Report, amplitude: real -> real)
      requires Valid(controller.View(), ladder)
      modifies this, controller
      ensures View() == Delivered(old(View()), Settings(), ladder, r, amplitude)
    {
      hide Valid, CapacityStep, IncrementalStep, McsFeedback;
      if superframe && adaptiveMcs && controller.cfg.rapid {
        controller.ReportCapacityBurst(ladder, r, amplitude);
      } else {
        McsFeedbackValid(View(), Settings(), ladder, r);
        assert controller.mcs in ladder by { OnTheLadder(controller.View(), ladder); }
        ReportMcsFeedback(ladder, r);
        controller.ReportBurst(r, ladder);
      }
    }

    /** The start of `send_message`. */
    method BeginMessage()
      modifies controller`burst
      ensures View() == old(View()).(c := StartMessage(old(View()).c))
    {
      if controller.cfg.rapid && controller.cfg.adaptiveBurst {
        controller.burst := WarmStart(controller.View());
      }
    }
  }
}
