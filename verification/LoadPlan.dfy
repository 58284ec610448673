/** Load-test plans: how a profile becomes stages, how many requests the stages should produce, and how a
    tier is fitted under a ceiling. Fractions and rates are reals. */
module LoadPlan {
  import opened Money

  datatype Profile = Smoke | Load | Soak | Breakpoint | Spike | Stress

  datatype Plan = Plan(profile: Profile, targetRps: real, durationSeconds: nat, spikeMultiplier: real)

  /** A stage ramps linearly from the target of the one before to its own. */
  datatype Stage = Stage(durationSeconds: nat, target: nat)

  function MinDuration(p: Profile): nat
  {
    match p
    case Smoke => 10
    case Load | Soak => 20
    case Breakpoint | Spike => 30
    case Stress => 60
  }

  /* Splitting the duration */

  function TotalFrom(parts: seq<nat>, i: nat): nat
    requires i <= |parts|
    decreases |parts| - i
  {
    if i == |parts| then 0 else parts[i] + TotalFrom(parts, i + 1)
  }

  function Total(parts: seq<nat>): nat { TotalFrom(parts, 0) }

  function AtLeastOne(n: int): nat { if n > 1 then n else 1 }

  /** The whole seconds of a fraction, never none. */
  function Share(total: nat, fraction: real): nat { AtLeastOne((total as real * fraction).Floor) }

  function Shares(total: nat, fractions: seq<real>): (r: seq<nat>)
    ensures |r| == |fractions|
    ensures forall i :: 0 <= i < |r| ==> r[i] == Share(total, fractions[i])
  {
    if fractions == [] then []
    else Shares(total, fractions[..|fractions| - 1]) + [Share(total, fractions[|fractions| - 1])]
  }

  /** The first of the largest fractions. */
  predicate IsLongest(fractions: seq<real>, k: nat)
  {
    && k < |fractions|
    && (forall i :: 0 <= i < |fractions| ==> fractions[i] <= fractions[k])
    && (forall i :: 0 <= i < k ==> fractions[i] < fractions[k])
  }

  /** What the other slices leave for slice k. */
  function LeftFor(total: nat, fractions: seq<real>, k: nat): int
    requires k < |fractions|
  {
    total - (Total(Shares(total, fractions)) - Share(total, fractions[k]))
  }

  /** Splits seconds by fractions; the rounding remainder goes to the longest slice. */
  method Split(total: nat, fractions: seq<real>) returns (parts: seq<nat>, longest: nat)
    requires fractions != []
    ensures IsLongest(fractions, longest)
    ensures parts == Shares(total, fractions)[longest := AtLeastOne(LeftFor(total, fractions, longest))]
  {
    hide Share;
    parts := [];
    longest := 0;
    var sum: nat := 0;
    for i := 0 to |fractions|
      invariant |parts| == i && forall j :: 0 <= j < i ==> parts[j] == Share(total, fractions[j])
      invariant sum == Total(parts)
      invariant longest <= i && (i > 0 ==> IsLongest(fractions[..i], longest))
    {
      var part := Share(total, fractions[i]);
      TotalAppend(parts, part, 0);
      parts := parts + [part];
      sum := sum + part;
      if i > 0 && fractions[i] > fractions[longest] { longest := i; }
    }
    assert fractions[..|fractions|] == fractions;
    assert parts == Shares(total, fractions);
    hide IsLongest;
    var diff: int := total - sum;
    parts := parts[longest := AtLeastOne(parts[longest] + diff)];
  }

  lemma {:induction false} TotalAppend(parts: seq<nat>, x: nat, i: nat)
    requires i <= |parts|
    ensures TotalFrom(parts + [x], i) == TotalFrom(parts, i) + x
    decreases |parts| - i
  {
    if i < |parts| { TotalAppend(parts, x, i + 1); }
  }

  lemma {:induction false} TotalUpdate(parts: seq<nat>, k: nat, x: nat, i: nat)
    requires i <= |parts| && k < |parts|
    ensures TotalFrom(parts[k := x], i) == if k < i then TotalFrom(parts, i) else TotalFrom(parts, i) - parts[k] + x
    decreases |parts| - i
  {
    if i < |parts| { TotalUpdate(parts, k, x, i + 1); }
  }

  /** Every slice lasts at least a second, and together they last the whole exactly if the others leave the
      longest at least one. */
  lemma SplitAddsUp(total: nat, fractions: seq<real>, k: nat)
    requires k < |fractions|
    ensures var parts := Shares(total, fractions)[k := AtLeastOne(LeftFor(total, fractions, k))];
            && (forall i :: 0 <= i < |parts| ==> parts[i] >= 1)
            && (Total(parts) == total <==> LeftFor(total, fractions, k) >= 1)
  {
    TotalUpdate(Shares(total, fractions), k, AtLeastOne(LeftFor(total, fractions, k)), 0);
  }

  /* Stages */

  function Rate(x: real): nat { AtLeastOne(Round(x)) }

  function Fractions(p: Profile): seq<real>
  {
    match p
    case Smoke | Breakpoint => [1.0]
    case Load => [0.1, 0.8, 0.1]
    case Soak => [0.05, 0.9, 0.05]
    case Spike => [0.25, 0.05, 0.2, 0.05, 0.45]
    case Stress => [0.05, 0.2, 0.05, 0.2, 0.05, 0.2, 0.05, 0.2]
  }

  function SpikeRate(cfg: Plan): nat { Rate(cfg.targetRps * cfg.spikeMultiplier) }

  function Targets(cfg: Plan): (r: seq<nat>)
    ensures |r| == |Fractions(cfg.profile)|
  {
    var t := cfg.targetRps;
    match cfg.profile
    case Smoke => [Rate(if t < 2.0 then t else 2.0)]
    case Breakpoint => [Rate(t)]
    case Load | Soak => [Rate(t), Rate(t), 0]
    case Spike =>
      var peak := SpikeRate(cfg);
      [Rate(t), peak, peak, Rate(t), Rate(t)]
    case Stress =>
      [Rate(t * 0.5), Rate(t * 0.5), Rate(t), Rate(t), Rate(t * 1.5), Rate(t * 1.5), Rate(t * 2.0), Rate(t * 2.0)]
  }

  /** The index of the slice that takes the remainder. */
  function LongestIn(p: Profile): nat
  {
    match p
    case Smoke | Breakpoint => 0
    case Load | Soak | Stress => 1
    case Spike => 4
  }

  function Durations(cfg: Plan): seq<nat>
  {
    var fr, k := Fractions(cfg.profile), LongestIn(cfg.profile);
    Shares(cfg.durationSeconds, fr)[k := AtLeastOne(LeftFor(cfg.durationSeconds, fr, k))]
  }

  function Stages(cfg: Plan): (r: seq<Stage>)
    ensures |r| == |Fractions(cfg.profile)|
    ensures forall i :: 0 <= i < |r| ==> r[i] == Stage(Durations(cfg)[i], Targets(cfg)[i])
  {
    seq(|Fractions(cfg.profile)|, i requires 0 <= i < |Fractions(cfg.profile)| => Stage(Durations(cfg)[i], Targets(cfg)[i]))
  }

  method BuildStages(cfg: Plan) returns (stages: seq<Stage>)
    ensures stages == Stages(cfg)
  {
    var parts, longest := Split(cfg.durationSeconds, Fractions(cfg.profile));
    assert longest == LongestIn(cfg.profile) by { LongestUnique(cfg.profile, longest); }
    var targets := Targets(cfg);
    stages := [];
    for i := 0 to |parts|
      invariant |stages| == i && forall j :: 0 <= j < i ==> stages[j] == Stage(parts[j], targets[j])
    {
      stages := stages + [Stage(parts[i], targets[i])];
    }
  }

  lemma LongestUnique(p: Profile, k: nat)
    requires IsLongest(Fractions(p), k)
    ensures k == LongestIn(p)
  {
    var fr := Fractions(p);
    assert fr[k] <= fr[LongestIn(p)];
  }

  function StageSeconds(stages: seq<Stage>): nat { SecondsFrom(stages, 0) }

  function SecondsFrom(stages: seq<Stage>, i: nat): nat
    requires i <= |stages|
    decreases |stages| - i
  {
    if i == |stages| then 0 else stages[i].durationSeconds + SecondsFrom(stages, i + 1)
  }

  lemma {:induction false} SecondsAreTotal(cfg: Plan, i: nat)
    requires i <= |Stages(cfg)|
    ensures SecondsFrom(Stages(cfg), i) == TotalFrom(Durations(cfg), i)
    decreases |Stages(cfg)| - i
  {
    if i < |Stages(cfg)| { SecondsAreTotal(cfg, i + 1); }
  }

  /* The shares in whole numbers */

  lemma SharesAre(t: nat)
    ensures Share(t, 1.0) == AtLeastOne(t)
    ensures Share(t, 0.05) == AtLeastOne(t / 20) && Share(t, 0.1) == AtLeastOne(t / 10)
    ensures Share(t, 0.2) == AtLeastOne(t / 5) && Share(t, 0.25) == AtLeastOne(t / 4)
  {
    assert t == 20 * (t / 20) + t % 20 && t == 10 * (t / 10) + t % 10;
    assert t == 5 * (t / 5) + t % 5 && t == 4 * (t / 4) + t % 4;
  }

  lemma TotalOf3(a: nat, b: nat, c: nat)
    ensures Total([a, b, c]) == a + b + c
  {
    var p := [a, b, c];
    assert TotalFrom(p, 2) == c && TotalFrom(p, 1) == b + c;
  }

  lemma TotalOf5(p: seq<nat>)
    requires |p| == 5
    ensures Total(p) == p[0] + p[1] + p[2] + p[3] + p[4]
  {
    assert TotalFrom(p, 4) == p[4] && TotalFrom(p, 3) == p[3] + p[4];
    assert TotalFrom(p, 1) == p[1] + TotalFrom(p, 2);
  }

  lemma TotalOf8(p: seq<nat>)
    requires |p| == 8
    ensures Total(p) == p[0] + p[1] + p[2] + p[3] + p[4] + p[5] + p[6] + p[7]
  {
    assert TotalFrom(p, 7) == p[7] && TotalFrom(p, 6) == p[6] + p[7];
    assert TotalFrom(p, 5) == p[5] + TotalFrom(p, 6) && TotalFrom(p, 4) == p[4] + TotalFrom(p, 5);
    assert TotalFrom(p, 3) == p[3] + TotalFrom(p, 4) && TotalFrom(p, 2) == p[2] + TotalFrom(p, 3);
    assert TotalFrom(p, 1) == p[1] + TotalFrom(p, 2);
  }

  lemma LeftForLongest(p: Profile, t: nat)
    ensures LeftFor(t, Fractions(p), LongestIn(p)) ==
      match p
      case Smoke | Breakpoint => t
      case Load => t - 2 * AtLeastOne(t / 10)
      case Soak => t - 2 * AtLeastOne(t / 20)
      case Spike => t - AtLeastOne(t / 4) - 2 * AtLeastOne(t / 20) - AtLeastOne(t / 5)
      case Stress => t - 4 * AtLeastOne(t / 20) - 3 * AtLeastOne(t / 5)
  {
    hide Share, AtLeastOne;
    SharesAre(t);
    var s := Shares(t, Fractions(p));
    match p
    case Smoke | Breakpoint => assert TotalFrom(s, 1) == 0;
    case Load | Soak =>
      assert s == [s[0], s[1], s[2]];
      TotalOf3(s[0], s[1], s[2]);
    case Spike => TotalOf5(s);
    case Stress => TotalOf8(s);
  }

  /** Every stage lasts at least a second. The stages last exactly the plan's duration if and only if it has
      a second for each of them, except that a stress plan of ten seconds overruns. */
  lemma StagesAddUp(cfg: Plan)
    ensures forall i :: 0 <= i < |Stages(cfg)| ==> Stages(cfg)[i].durationSeconds >= 1
    ensures StageSeconds(Stages(cfg)) == cfg.durationSeconds <==>
            cfg.durationSeconds >= |Stages(cfg)| && !(cfg.profile == Stress && cfg.durationSeconds == 10)
  {
    hide LeftFor, TotalFrom;
    var t := cfg.durationSeconds;
    SecondsAreTotal(cfg, 0);
    SplitAddsUp(t, Fractions(cfg.profile), LongestIn(cfg.profile));
    LeavesOne(cfg.profile, t);
  }

  lemma LeavesOne(p: Profile, t: nat)
    ensures LeftFor(t, Fractions(p), LongestIn(p)) >= 1 <==> t >= |Fractions(p)| && !(p == Stress && t == 10)
  {
    LeftForLongest(p, t);
    hide LeftFor;
  }

  /* The area under the ramp */

  /** Twice the area under one stage. */
  function Wedge(seconds: nat, from: nat, to: nat): nat { seconds * (from + to) }

  /** Twice the area under the stages from one on, starting from a rate. */
  function DoubleArea(stages: seq<Stage>, i: nat, from: nat): nat
    requires i <= |stages|
    decreases |stages| - i
  {
    if i == |stages| then 0
    else Wedge(stages[i].durationSeconds, from, stages[i].target) + DoubleArea(stages, i + 1, stages[i].target)
  }

  function TargetBefore(stages: seq<Stage>, i: nat): nat
    requires i <= |stages|
  {
    if i == 0 then 0 else stages[i - 1].target
  }

  /** Requests the load shape should have produced. */
  method ExpectedRequests(cfg: Plan) returns (expected: int)
    ensures expected == Round(DoubleArea(Stages(cfg), 0, 0) as real / 2.0)
  {
    hide Wedge, Stages;
    var stages := BuildStages(cfg);
    var prev: nat, total := 0, 0.0;
    for i := 0 to |stages|
      invariant prev == TargetBefore(stages, i)
      invariant total + DoubleArea(stages, i, prev) as real / 2.0 == DoubleArea(stages, 0, 0) as real / 2.0
    {
      total := total + Wedge(stages[i].durationSeconds, prev, stages[i].target) as real / 2.0;
      prev := stages[i].target;
    }
    expected := Round(total);
  }

  /** The sum, over the first n seconds of a ramp, of the rate half-way through each second. */
  function RampSum(from: real, slope: real, n: nat): real
  {
    if n == 0 then 0.0 else RampSum(from, slope, n - 1) + (from + slope * ((n - 1) as real + 0.5))
  }

  lemma Distribute(s: real, x: real, y: real)
    ensures s * (x + y) == s * x + s * y
  {
  }

  lemma {:induction false} RampClosed(from: real, slope: real, n: nat)
    ensures RampSum(from, slope, n) == n as real * from + slope * (n as real * n as real / 2.0)
  {
    if n > 0 {
      RampClosed(from, slope, n - 1);
      var m := (n - 1) as real;
      Distribute(slope, m * m / 2.0, m + 0.5);
      assert n as real == m + 1.0;
      assert n as real * n as real / 2.0 == m * m / 2.0 + (m + 0.5);
      assert n as real * from == m * from + from;
    }
  }

  /** A stage's area is its rate summed second by second. */
  lemma StageArea(from: nat, to: nat, d: nat)
    requires d > 0
    ensures RampSum(from as real, (to as real - from as real) / d as real, d) == Wedge(d, from, to) as real / 2.0
  {
    var x, s := d as real, (to as real - from as real) / d as real;
    RampClosed(from as real, s, d);
    assert s * x == to as real - from as real;
    assert s * (x * x / 2.0) == (s * x) * x / 2.0;
    assert (d * (from + to)) as real == x * (from as real + to as real);
    assert x * (from as real + to as real) == x * from as real + x * to as real;
  }

  /* The peak */

  function PeakFrom(stages: seq<Stage>, i: nat): nat
    requires i <= |stages|
    decreases |stages| - i
  {
    if i == |stages| then 0
    else
      var rest := PeakFrom(stages, i + 1);
      if stages[i].target > rest then stages[i].target else rest
  }

  /** The highest rate any stage reaches. */
  function PeakRps(cfg: Plan): nat { PeakFrom(Stages(cfg), 0) }

  lemma {:induction false} PeakIsHighest(stages: seq<Stage>, i: nat)
    requires i < |stages|
    ensures forall j :: i <= j < |stages| ==> stages[j].target <= PeakFrom(stages, i)
    ensures exists j :: i <= j < |stages| && stages[j].target == PeakFrom(stages, i)
    decreases |stages| - i
  {
    if i + 1 < |stages| {
      PeakIsHighest(stages, i + 1);
      if stages[i].target <= PeakFrom(stages, i + 1) {
        var j :| i + 1 <= j < |stages| && stages[j].target == PeakFrom(stages, i + 1);
        assert stages[j].target == PeakFrom(stages, i);
      } else {
        assert stages[i].target == PeakFrom(stages, i);
      }
    } else {
      assert PeakFrom(stages, i + 1) == 0 && stages[i].target == PeakFrom(stages, i);
    }
  }

  lemma {:induction false} AreaWithin(stages: seq<Stage>, i: nat, from: nat, peak: nat)
    requires i <= |stages| && from <= peak && forall j :: 0 <= j < |stages| ==> stages[j].target <= peak
    ensures DoubleArea(stages, i, from) <= 2 * (peak * SecondsFrom(stages, i))
    decreases |stages| - i
  {
    if i < |stages| {
      AreaWithin(stages, i + 1, stages[i].target, peak);
      var d := stages[i].durationSeconds;
      Times(d, from + stages[i].target, 2 * peak);
      assert d * (2 * peak) == 2 * (peak * d);
      assert peak * (d + SecondsFrom(stages, i + 1)) == peak * d + peak * SecondsFrom(stages, i + 1);
    }
  }

  lemma Times(d: nat, x: nat, y: nat)
    requires x <= y
    ensures d * x <= d * y
  {
  }

  /** No plan whose stages last its duration is expected to send more than its peak rate throughout. */
  lemma ExpectedWithinPeak(cfg: Plan)
    requires cfg.durationSeconds >= MinDuration(cfg.profile)
    ensures Round(DoubleArea(Stages(cfg), 0, 0) as real / 2.0) <= PeakRps(cfg) * cfg.durationSeconds
  {
    hide Stages;
    StagesAddUp(cfg);
    PeakIsHighest(Stages(cfg), 0);
    AreaWithin(Stages(cfg), 0, 0, PeakRps(cfg));
    RoundWithin(DoubleArea(Stages(cfg), 0, 0), PeakRps(cfg) * cfg.durationSeconds);
  }

  lemma RoundWithin(x: nat, y: nat)
    requires x <= 2 * y
    ensures Round(x as real / 2.0) <= y
  {
  }

  /* Fitting a tier under a ceiling */

  datatype Tier = Tier(
    profile: Profile, peakRps: nat, spikeFromRps: Option<nat>, durationSeconds: nat, maxVus: nat,
    requiredCapacityRps: Option<nat>)

  datatype Ceiling = Ceiling(maxRps: nat, maxVus: nat, maxDurationSeconds: nat)

  datatype Reduction = ReducedPeak(to: nat) | ReducedUsers(to: nat) | ReducedDuration(to: nat) | CannotProve(required: nat, at: nat)

  datatype FittedPlan = FittedPlan(
    profile: Profile, targetRps: nat, durationSeconds: nat, maxVus: nat, spikeMultiplier: Option<nat>,
    requiredCapacityRps: Option<nat>)

  function Lower(x: nat, y: nat): nat { if x > y then y else x }

  /** The plan's base rate, from the rate the service should peak at. */
  function BaseRps(p: Profile, peak: nat, spikeFrom: Option<nat>): nat
  {
    match p
    case Stress => AtLeastOne(peak / 2)
    case Spike => AtLeastOne(if spikeFrom.Some? then spikeFrom.value else Round(peak as real / 3.0))
    case _ => peak
  }

  function Multiplier(peak: nat, base: nat): nat
    requires base > 0
  {
    if peak / base > 2 then peak / base else 2
  }

  method FitTier(t: Tier, c: Ceiling) returns (plan: FittedPlan, reductions: seq<Reduction>, fits: bool)
    ensures plan.profile == t.profile && plan.requiredCapacityRps == t.requiredCapacityRps
    ensures plan.maxVus == Lower(t.maxVus, c.maxVus)
    ensures plan.durationSeconds == Lower(t.durationSeconds, c.maxDurationSeconds)
    ensures var peak := Lower(t.peakRps, c.maxRps);
            && plan.targetRps == BaseRps(t.profile, peak, t.spikeFromRps)
            && plan.spikeMultiplier ==
                 if t.profile == Spike then Some(Multiplier(peak, AtLeastOne(plan.targetRps))) else None
    ensures PeakRps(RunPlan(plan)) <= Lower(t.peakRps, c.maxRps) <==> Fits(t.profile, Lower(t.peakRps, c.maxRps), t.spikeFromRps)
    ensures fits <==>
            && t.peakRps <= c.maxRps && t.maxVus <= c.maxVus && t.durationSeconds <= c.maxDurationSeconds
            && (t.requiredCapacityRps.Some? ==> t.requiredCapacityRps.value <= Lower(t.peakRps, c.maxRps))
    ensures fits <==> reductions == []
    ensures ReducedPeak(c.maxRps) in reductions <==> t.peakRps > c.maxRps
    ensures ReducedUsers(c.maxVus) in reductions <==> t.maxVus > c.maxVus
    ensures ReducedDuration(c.maxDurationSeconds) in reductions <==> t.durationSeconds > c.maxDurationSeconds
  {
    hide PeakRps, Fits, BaseRps, Multiplier, RunPlan;
    reductions := [];
    var peak, vus, dur := t.peakRps, t.maxVus, t.durationSeconds;
    if peak > c.maxRps {
      reductions := reductions + [ReducedPeak(c.maxRps)];
      peak := c.maxRps;
    }
    if vus > c.maxVus {
      reductions := reductions + [ReducedUsers(c.maxVus)];
      vus := c.maxVus;
    }
    if dur > c.maxDurationSeconds {
      reductions := reductions + [ReducedDuration(c.maxDurationSeconds)];
      dur := c.maxDurationSeconds;
    }
    var base := BaseRps(t.profile, peak, t.spikeFromRps);
    var spike := if t.profile == Spike then Some(Multiplier(peak, AtLeastOne(base))) else None;
    if t.requiredCapacityRps.Some? && peak < t.requiredCapacityRps.value {
      reductions := reductions + [CannotProve(t.requiredCapacityRps.value, peak)];
    }
    plan := FittedPlan(t.profile, base, dur, vus, spike, t.requiredCapacityRps);
    PlanNeverAbove(plan, peak, t.spikeFromRps);
    fits := reductions == [];
  }

  /** The load plan a fitted tier is run with; the multiplier matters for spikes alone. */
  function RunPlan(f: FittedPlan): Plan
  {
    Plan(f.profile, f.targetRps as real, f.durationSeconds,
         if f.spikeMultiplier.Some? then f.spikeMultiplier.value as real else 10.0)
  }

  /** What the stages of a tier fitted to a peak reach. */
  function FittedPeak(p: Profile, peak: nat, spikeFrom: Option<nat>, seconds: nat): nat
  {
    var base := BaseRps(p, peak, spikeFrom);
    PeakRps(RunPlan(FittedPlan(p, base, seconds, 1,
                               if p == Spike then Some(Multiplier(peak, AtLeastOne(base))) else None, None)))
  }

  lemma RateOfWhole(n: nat)
    ensures Rate(n as real) == AtLeastOne(n)
  {
  }

  lemma HighestTarget(cfg: Plan, j: nat)
    requires j < |Stages(cfg)| && forall i :: 0 <= i < |Stages(cfg)| ==> Targets(cfg)[i] <= Targets(cfg)[j]
    ensures PeakRps(cfg) == Targets(cfg)[j]
  {
    PeakIsHighest(Stages(cfg), 0);
    var k :| 0 <= k < |Stages(cfg)| && Stages(cfg)[k].target == PeakFrom(Stages(cfg), 0);
    assert Stages(cfg)[j].target == Targets(cfg)[j];
  }

  /** The peak of a fitted plan, profile by profile, for whole rates. */
  lemma FittedPeakIs(p: Profile, peak: nat, spikeFrom: Option<nat>, seconds: nat)
    ensures var base := BaseRps(p, peak, spikeFrom);
            FittedPeak(p, peak, spikeFrom, seconds) ==
            match p
            case Smoke => AtLeastOne(if peak < 2 then peak else 2)
            case Load | Soak | Breakpoint => AtLeastOne(peak)
            case Stress => 2 * base
            case Spike => base * Multiplier(peak, base)
  {
    hide PeakRps, Stages, Targets, Round;
    var base := BaseRps(p, peak, spikeFrom);
    var cfg := RunPlan(FittedPlan(p, base, seconds, 1, if p == Spike then Some(Multiplier(peak, AtLeastOne(base))) else None, None));
    match p
    case Stress => StressPeak(cfg, base);
    case Spike => SpikePeak(cfg, base, Multiplier(peak, base));
    case _ => FlatPeak(cfg, base);
  }

  lemma FlatPeak(cfg: Plan, base: nat)
    requires cfg.profile in {Smoke, Load, Soak, Breakpoint} && cfg.targetRps == base as real
    ensures PeakRps(cfg) == AtLeastOne(if cfg.profile == Smoke && base > 2 then 2 else base)
  {
    RateOfWhole(base);
    RateOfWhole(2);
    hide PeakRps, Rate;
    HighestTarget(cfg, 0);
  }

  lemma StressPeak(cfg: Plan, base: nat)
    requires cfg.profile == Stress && cfg.targetRps == base as real && base >= 1
    ensures PeakRps(cfg) == 2 * base
  {
    RateOfWhole(2 * base);
    assert base as real * 2.0 == (2 * base) as real;
    RateGrows(base as real * 0.5, base as real);
    RateGrows(base as real, base as real * 1.5);
    RateGrows(base as real * 1.5, base as real * 2.0);
    hide PeakRps, Rate;
    HighestTarget(cfg, 6);
  }

  lemma RateGrows(x: real, y: real)
    requires x <= y
    ensures Rate(x) <= Rate(y)
  {
  }

  lemma SpikePeak(cfg: Plan, base: nat, m: nat)
    requires cfg.profile == Spike && cfg.targetRps == base as real && cfg.spikeMultiplier == m as real
    requires base >= 1 && m >= 2
    ensures PeakRps(cfg) == base * m
  {
    ProductOfWhole(base, m);
    RateOfWhole(base * m);
    Times(base, 1, m);
    assert SpikeRate(cfg) == base * m;
    hide PeakRps;
    HighestSpike(cfg, base, base * m);
  }

  lemma ProductOfWhole(x: nat, y: nat)
    ensures x as real * y as real == (x * y) as real
  {
  }

  lemma HighestSpike(cfg: Plan, base: nat, n: nat)
    requires cfg.profile == Spike && cfg.targetRps == base as real && 1 <= base <= n
    requires SpikeRate(cfg) == n
    ensures PeakRps(cfg) == n
  {
    RateOfWhole(base);
    hide PeakRps, Rate, SpikeRate;
    HighestTarget(cfg, 1);
  }

  /** The peaks a profile can be fitted to. */
  predicate Fits(p: Profile, peak: nat, spikeFrom: Option<nat>)
  {
    match p
    case Stress => peak >= 2
    case Spike => peak >= 2 * BaseRps(p, peak, spikeFrom)
    case _ => peak >= 1
  }

  /** A fitted plan never peaks above the rate it was fitted to, exactly if that rate is at least 1, at
      least 2 for stress and at least twice the base rate for spikes. */
  lemma FittedNeverAbove(p: Profile, peak: nat, spikeFrom: Option<nat>, seconds: nat)
    ensures FittedPeak(p, peak, spikeFrom, seconds) <= peak <==> Fits(p, peak, spikeFrom)
  {
    hide FittedPeak, Round;
    FittedPeakIs(p, peak, spikeFrom, seconds);
    if p == Spike { SpikeFits(peak, BaseRps(p, peak, spikeFrom)); }
  }

  lemma PlanNeverAbove(f: FittedPlan, peak: nat, spikeFrom: Option<nat>)
    requires f.targetRps == BaseRps(f.profile, peak, spikeFrom)
    requires f.spikeMultiplier == if f.profile == Spike then Some(Multiplier(peak, AtLeastOne(f.targetRps))) else None
    ensures PeakRps(RunPlan(f)) <= peak <==> Fits(f.profile, peak, spikeFrom)
  {
    hide PeakRps, Fits, BaseRps, Multiplier;
    FittedNeverAbove(f.profile, peak, spikeFrom, f.durationSeconds);
  }

  lemma SpikeFits(peak: nat, base: nat)
    requires base > 0
    ensures base * Multiplier(peak, base) <= peak <==> peak >= 2 * base
  {
    var q := peak / base;
    assert base * q <= peak < base * (q + 1);
    if peak >= 2 * base {
      if q < 2 {
        Times(base, q + 1, 2);
        assert false;
      }
    } else {
      Times(base, 2, Multiplier(peak, base));
    }
  }
}
