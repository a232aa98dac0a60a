/** The risk calculator of app.py: `clamp`, `compute_risk` with its labelling, and the
    rank coercion `main` applies before calling it.

    Scores are exact `real`s: the decimal constants of the source (0.03, 0.45, ...) are
    represented exactly, so the model states the intended arithmetic rather than binary
    floating point. */
module Calculator {
  import opened Catalog

  /** `clamp(x, lo, hi) = max(lo, min(hi, x))`, with the source's default bounds [0, 1]. */
  function Clamp(x: real, lo: real := 0.0, hi: real := 1.0): (r: real)
    ensures lo <= r
    ensures lo <= hi ==> r <= hi
    ensures lo <= x <= hi ==> r == x
    ensures lo <= hi ==> (x < lo ==> r == lo) && (hi < x ==> r == hi)
  {
    var m := if hi < x then hi else x;
    if lo < m then m else lo
  }

  /** The eight boolean design features of a bridge. */
  datatype Features = Features(
    usesZk: bool,
    usesFhe: bool,
    hasLightClient: bool,
    hasMpcSigners: bool,
    hasTimelock: bool,
    hasAudits: bool,
    hasFormalSpecs: bool,
    multiChain: bool)

  const NoFeatures := Features(false, false, false, false, false, false, false, false)

  /** A name for each feature flag, so that the adjustment table can be stated once. */
  datatype Flag =
    UsesZk | UsesFhe | HasLightClient | HasMpcSigners |
    HasTimelock | HasAudits | HasFormalSpecs | MultiChain

  /** The order in which `compute_risk` tests the flags (app.py:66-96). */
  const SourceOrder: seq<Flag> :=
    [UsesZk, UsesFhe, HasLightClient, HasMpcSigners, HasTimelock, HasAudits, HasFormalSpecs, MultiChain]

  function IsSet(f: Features, flag: Flag): bool {
    match flag
    case UsesZk => f.usesZk
    case UsesFhe => f.usesFhe
    case HasLightClient => f.hasLightClient
    case HasMpcSigners => f.hasMpcSigners
    case HasTimelock => f.hasTimelock
    case HasAudits => f.hasAudits
    case HasFormalSpecs => f.hasFormalSpecs
    case MultiChain => f.multiChain
  }

  /** A triple of (technical, economic, operational) amounts: running totals or deltas. */
  datatype Risks = Risks(technical: real, economic: real, operational: real)

  const Zero := Risks(0.0, 0.0, 0.0)

  function Plus(a: Risks, b: Risks): Risks {
    Risks(a.technical + b.technical, a.economic + b.economic, a.operational + b.operational)
  }

  /** The closed-form total adjustment of a feature set (app.py:66-96): per score, the sum of
      the deltas of the flags that are set. */
  function Adjustment(f: Features): Risks {
    Risks(
      (if f.usesZk then -0.03 else 0.0) + (if f.usesFhe then 0.04 else 0.0)
      + (if f.hasLightClient then -0.06 else 0.0) + (if f.hasMpcSigners then 0.04 else 0.0)
      + (if f.hasAudits then -0.07 else 0.0) + (if f.hasFormalSpecs then -0.08 else 0.0)
      + (if f.multiChain then 0.03 else 0.0),
      (if f.hasLightClient then -0.03 else 0.0) + (if f.hasTimelock then -0.05 else 0.0)
      + (if f.hasFormalSpecs then -0.02 else 0.0),
      (if f.usesZk then 0.02 else 0.0) + (if f.usesFhe then 0.03 else 0.0)
      + (if f.hasMpcSigners then 0.05 else 0.0) + (if f.hasTimelock then -0.03 else 0.0)
      + (if f.hasAudits then -0.04 else 0.0) + (if f.multiChain then 0.04 else 0.0))
  }

  /** The adjustment table (app.py:66-96): the delta each flag makes when it is set. */
  function DeltaOf(flag: Flag): Risks {
    match flag
    case UsesZk => Risks(-0.03, 0.0, 0.02)
    case UsesFhe => Risks(0.04, 0.0, 0.03)
    case HasLightClient => Risks(-0.06, -0.03, 0.0)
    case HasMpcSigners => Risks(0.04, 0.0, 0.05)
    case HasTimelock => Risks(0.0, -0.05, -0.03)
    case HasAudits => Risks(-0.07, 0.0, -0.04)
    case HasFormalSpecs => Risks(-0.08, -0.02, 0.0)
    case MultiChain => Risks(0.03, 0.0, 0.04)
  }

  /** One `if` block of `compute_risk`: add the flag's delta to the running totals when set. */
  function Step(acc: Risks, f: Features, flag: Flag): Risks {
    if IsSet(f, flag) then Plus(acc, DeltaOf(flag)) else acc
  }

  /** Running the `if` blocks for `flags` one after another, in that order. */
  function ApplyInOrder(acc: Risks, f: Features, flags: seq<Flag>): Risks
    decreases |flags|
  {
    if flags == [] then acc else ApplyInOrder(Step(acc, f, flags[0]), f, flags[1..])
  }

  /** `tvl_factor = clamp(tvl_rank / 50.0, 0.0, 1.0)` (app.py:98): the rank scaled into
      [0, 1], proportional below 50 and saturated from 50 on. */
  function TvlFactor(tvlRank: int): (r: real)
    ensures 0.0 <= r <= 1.0
    ensures tvlRank <= 0 ==> r == 0.0
    ensures 0 <= tvlRank <= 50 ==> r * 50.0 == tvlRank as real
    ensures tvlRank >= 50 ==> r == 1.0
  {
    Clamp(tvlRank as real / 50.0, 0.0, 1.0)
  }

  /** The five risk labels, in increasing order of severity. */
  datatype RiskLabel = VeryLow | Low | Moderate | High | VeryHigh

  /** The position of a label in the severity order. */
  function Severity(l: RiskLabel): nat {
    match l
    case VeryLow => 0
    case Low => 1
    case Moderate => 2
    case High => 3
    case VeryHigh => 4
  }

  /** The text the source uses for each label. */
  function LabelName(l: RiskLabel): string {
    match l
    case VeryLow => "very_low"
    case Low => "low"
    case Moderate => "moderate"
    case High => "high"
    case VeryHigh => "very_high"
  }

  /** Label selection (app.py:107-116): half-open bands, each including its lower bound. */
  function Label(overall: real): (l: RiskLabel)
    ensures l == VeryLow <==> overall < 0.25
    ensures l == Low <==> 0.25 <= overall < 0.45
    ensures l == Moderate <==> 0.45 <= overall < 0.65
    ensures l == High <==> 0.65 <= overall < 0.80
    ensures l == VeryHigh <==> 0.80 <= overall
  {
    if overall < 0.25 then VeryLow
    else if overall < 0.45 then Low
    else if overall < 0.65 then Moderate
    else if overall < 0.80 then High
    else VeryHigh
  }

  /** The record `compute_risk` returns: the inputs echoed back, the four scores and the label. */
  datatype RiskResult = RiskResult(
    profile: string,
    profileName: string,
    description: string,
    features: Features,
    tvlRank: int,
    technicalRisk: real,
    economicRisk: real,
    operationalRisk: real,
    overallRisk: real,
    riskLabel: RiskLabel)

  /** The weights of the overall score: 45% technical, 35% economic, 20% operational. */
  function Weighted(t: real, e: real, o: real): real {
    0.45 * t + 0.35 * e + 0.20 * o
  }

  /** The specification of `compute_risk`: base values plus the closed-form adjustment,
      the TVL nudge on the economic total, clamping of each total, the clamped weighted sum
      and its label. */
  function Assess(p: BridgeProfile, f: Features, tvlRank: int): (r: RiskResult)
    ensures 0.0 <= r.technicalRisk <= 1.0
    ensures 0.0 <= r.economicRisk <= 1.0
    ensures 0.0 <= r.operationalRisk <= 1.0
    ensures 0.0 <= r.overallRisk <= 1.0
    ensures r.riskLabel == Label(r.overallRisk)
    ensures r.profile == p.key && r.profileName == p.name && r.description == p.description
    ensures r.features == f && r.tvlRank == tvlRank
  {
    var adj := Adjustment(f);
    var t := Clamp(p.baseTechnicalRisk + adj.technical);
    var e := Clamp(p.baseEconomicRisk + adj.economic + 0.08 * TvlFactor(tvlRank));
    var o := Clamp(p.baseOperationalRisk + adj.operational);
    var overall := Clamp(Weighted(t, e, o));
    RiskResult(p.key, p.name, p.description, f, tvlRank, t, e, o, overall, Label(overall))
  }

  /** The starting totals of a profile: its three base risks (app.py:62-64). */
  function StartingTotals(p: BridgeProfile): Risks {
    Risks(p.baseTechnicalRisk, p.baseEconomicRisk, p.baseOperationalRisk)
  }

  /** The first phase of `compute_risk` (app.py:62-96): seed the running totals from the
      profile and let each of the eight flag blocks adjust them in place. The totals it ends
      with are the base values plus the closed-form sum of the active deltas. */
  method ApplyDesignFlags(profile: BridgeProfile, f: Features) returns (totals: Risks)
    ensures totals == Plus(StartingTotals(profile), Adjustment(f))
  {
    var t := profile.baseTechnicalRisk;
    var e := profile.baseEconomicRisk;
    var o := profile.baseOperationalRisk;

    if f.usesZk {
      t := t - 0.03;
      o := o + 0.02;
    }
    if f.usesFhe {
      t := t + 0.04;
      o := o + 0.03;
    }
    if f.hasLightClient {
      t := t - 0.06;
      e := e - 0.03;
    }
    if f.hasMpcSigners {
      t := t + 0.04;
      o := o + 0.05;
    }
    if f.hasTimelock {
      e := e - 0.05;
      o := o - 0.03;
    }
    if f.hasAudits {
      t := t - 0.07;
      o := o - 0.04;
    }
    if f.hasFormalSpecs {
      t := t - 0.08;
      e := e - 0.02;
    }
    if f.multiChain {
      t := t + 0.03;
      o := o + 0.04;
    }

    totals := Risks(t, e, o);
  }

  /** `compute_risk` (app.py:50-136) as the source runs it: the flag phase, then the TVL
      nudge on the economic total, the clamps, the weighted sum and the label chain. Its
      result is the one the closed-form specification `Assess` gives. */
  method ComputeRisk(profile: BridgeProfile, f: Features, tvlRank: int) returns (r: RiskResult)
    ensures r == Assess(profile, f, tvlRank)
  {
    var totals := ApplyDesignFlags(profile, f);
    var t, e, o := totals.technical, totals.economic, totals.operational;

    var tvlFactor := Clamp(tvlRank as real / 50.0, 0.0, 1.0);
    e := e + 0.08 * tvlFactor;

    t := Clamp(t);
    e := Clamp(e);
    o := Clamp(o);

    var overall := Clamp(0.45 * t + 0.35 * e + 0.20 * o);

    var riskLabel: RiskLabel;
    if overall < 0.25 {
      riskLabel := VeryLow;
    } else if overall < 0.45 {
      riskLabel := Low;
    } else if overall < 0.65 {
      riskLabel := Moderate;
    } else if overall < 0.80 {
      riskLabel := High;
    } else {
      riskLabel := VeryHigh;
    }

    r := RiskResult(profile.key, profile.name, profile.description, f, tvlRank,
                    t, e, o, overall, riskLabel);
  }

  /** `max(1, tvl_rank)`: the coercion `main` applies to the rank before scoring (app.py:252). */
  function CoerceRank(rank: int): (r: int)
    ensures r >= 1
    ensures r >= rank
    ensures rank >= 1 ==> r == rank
    ensures rank < 1 ==> r == 1
  {
    if 1 < rank then rank else 1
  }

  /** What `main` does between parsing and printing (app.py:240-253): resolve the style key
      in the catalog, then score that profile with the coerced rank. The parser only admits
      registered keys (app.py:147-152), so the lookup always succeeds. */
  method RunProfiler(key: string, f: Features, rawRank: int) returns (r: RiskResult)
    requires Lookup(key).Some?
    ensures r == Assess(Profile(Lookup(key).value), f, CoerceRank(rawRank))
    ensures r.profile == key
    ensures r.tvlRank >= 1
  {
    var style := Lookup(key).value;
    var profile := Profile(style);
    r := ComputeRisk(profile, f, CoerceRank(rawRank));
  }
}
