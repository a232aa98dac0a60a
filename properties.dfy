/** What the risk calculator promises, stated over its specification `Assess`: the effect
    of `has_audits`, monotonicity in the rank, the label bands, the catalog styles never
    reaching a clamp, and worked scenarios. */
module Properties {
  import opened Catalog
  import opened Calculator

  // ---------------------------------------------------------------------------------
  // clamp

  /** `clamp` never reverses the order of two values. */
  lemma ClampMonotone(x: real, y: real, lo: real, hi: real)
    requires x <= y
    ensures Clamp(x, lo, hi) <= Clamp(y, lo, hi)
  {
  }

  // ---------------------------------------------------------------------------------
  // has_audits

  /** Turning on `has_audits` lowers the technical and operational totals by exactly 0.07 and
      0.04 before clamping and leaves the economic one alone. */
  lemma AuditsLowerAdjustment(f: Features)
    ensures
      var without := f.(hasAudits := false);
      var with := f.(hasAudits := true);
      && Adjustment(with).technical == Adjustment(without).technical - 0.07
      && Adjustment(with).operational == Adjustment(without).operational - 0.04
      && Adjustment(with).economic == Adjustment(without).economic
  {
  }

  /** Turning on `has_audits` never increases a clamped score; the technical and
      operational scores fall strictly unless they are pinned at 0 or 1. */
  lemma AuditsNeverIncreaseRisk(p: BridgeProfile, f: Features, tvlRank: int)
    ensures
      var a := Assess(p, f.(hasAudits := false), tvlRank);
      var b := Assess(p, f.(hasAudits := true), tvlRank);
      && b.technicalRisk <= a.technicalRisk
      && b.operationalRisk <= a.operationalRisk
      && b.economicRisk == a.economicRisk
      && (b.technicalRisk < a.technicalRisk || b.technicalRisk == 0.0 || a.technicalRisk == 1.0)
      && (b.operationalRisk < a.operationalRisk || b.operationalRisk == 0.0 || a.operationalRisk == 1.0)
  {
    var without := f.(hasAudits := false);
    var with := f.(hasAudits := true);
    AuditsLowerAdjustment(f);
    ClampMonotone(p.baseTechnicalRisk + Adjustment(with).technical,
                  p.baseTechnicalRisk + Adjustment(without).technical, 0.0, 1.0);
    ClampMonotone(p.baseOperationalRisk + Adjustment(with).operational,
                  p.baseOperationalRisk + Adjustment(without).operational, 0.0, 1.0);
  }

  // ---------------------------------------------------------------------------------
  // tvl_rank

  /** A larger rank never lowers the economic score, the overall score or the label. */
  lemma RiskMonotoneInRank(p: BridgeProfile, f: Features, r1: int, r2: int)
    requires r1 <= r2
    ensures Assess(p, f, r1).economicRisk <= Assess(p, f, r2).economicRisk
    ensures Assess(p, f, r1).overallRisk <= Assess(p, f, r2).overallRisk
    ensures Severity(Assess(p, f, r1).riskLabel) <= Severity(Assess(p, f, r2).riskLabel)
  {
    var a := Assess(p, f, r1);
    var b := Assess(p, f, r2);
    assert TvlFactor(r1) <= TvlFactor(r2);
    var base := p.baseEconomicRisk + Adjustment(f).economic;
    ClampMonotone(base + 0.08 * TvlFactor(r1), base + 0.08 * TvlFactor(r2), 0.0, 1.0);
    ClampMonotone(Weighted(a.technicalRisk, a.economicRisk, a.operationalRisk),
                  Weighted(b.technicalRisk, b.economicRisk, b.operationalRisk), 0.0, 1.0);
    LabelMonotone(a.overallRisk, b.overallRisk);
  }

  /** From rank 50 on the TVL factor is saturated: every such rank scores the same. */
  lemma RankSaturatesAtFifty(p: BridgeProfile, f: Features, r1: int, r2: int)
    requires r1 >= 50 && r2 >= 50
    ensures Assess(p, f, r1) == Assess(p, f, r2).(tvlRank := r1)
  {
  }

  // ---------------------------------------------------------------------------------
  // labels and the overall score

  /** A larger overall score never gets a lower label. */
  lemma LabelMonotone(x: real, y: real)
    requires x <= y
    ensures Severity(Label(x)) <= Severity(Label(y))
  {
  }

  /** Each threshold belongs to the band above it, and the label texts are the source's. */
  lemma LabelBoundaries()
    ensures Label(0.0) == VeryLow && Label(0.25) == Low && Label(0.45) == Moderate
    ensures Label(0.65) == High && Label(0.80) == VeryHigh && Label(1.0) == VeryHigh
    ensures LabelName(VeryLow) == "very_low" && LabelName(Low) == "low"
    ensures LabelName(Moderate) == "moderate" && LabelName(High) == "high"
    ensures LabelName(VeryHigh) == "very_high"
  {
  }

  /** The weights add up to one, so the weighted sum of clamped scores is already in [0, 1]
      and the final clamp on the overall score never changes it. */
  lemma OverallIsWeightedSum(p: BridgeProfile, f: Features, tvlRank: int)
    ensures
      var r := Assess(p, f, tvlRank);
      r.overallRisk == 0.45 * r.technicalRisk + 0.35 * r.economicRisk + 0.20 * r.operationalRisk
  {
  }

  // ---------------------------------------------------------------------------------
  // the catalog

  /** Every feature set moves each total by a bounded amount: the sums of the negative and
      of the positive entries of each column of the table. */
  lemma AdjustmentBounds(f: Features)
    ensures -0.24 <= Adjustment(f).technical <= 0.11
    ensures -0.10 <= Adjustment(f).economic <= 0.0
    ensures -0.07 <= Adjustment(f).operational <= 0.14
  {
  }

  /** The ranges the catalog's base risks lie in. */
  lemma CatalogBaseRanges(style: Style)
    ensures 0.28 <= Profile(style).baseTechnicalRisk <= 0.45
    ensures 0.32 <= Profile(style).baseEconomicRisk <= 0.42
    ensures 0.27 <= Profile(style).baseOperationalRisk <= 0.38
  {
  }

  /** A profile whose base risks lie well inside [0, 1] never reaches a clamp: every score
      is its base value plus the active deltas (plus the TVL nudge for the economic score). */
  lemma NoClampInside(p: BridgeProfile, f: Features, tvlRank: int)
    requires 0.24 <= p.baseTechnicalRisk <= 0.89
    requires 0.10 <= p.baseEconomicRisk <= 0.92
    requires 0.07 <= p.baseOperationalRisk <= 0.86
    ensures
      var r := Assess(p, f, tvlRank);
      && r.technicalRisk == p.baseTechnicalRisk + Adjustment(f).technical
      && r.economicRisk == p.baseEconomicRisk + Adjustment(f).economic + 0.08 * TvlFactor(tvlRank)
      && r.operationalRisk == p.baseOperationalRisk + Adjustment(f).operational
  {
    AdjustmentBounds(f);
  }

  /** For the three catalog styles no clamp ever bites, for every feature set and every
      rank. */
  lemma CatalogNeverClamps(style: Style, f: Features, tvlRank: int)
    ensures
      var p := Profile(style);
      var r := Assess(p, f, tvlRank);
      && r.technicalRisk == p.baseTechnicalRisk + Adjustment(f).technical
      && r.economicRisk == p.baseEconomicRisk + Adjustment(f).economic + 0.08 * TvlFactor(tvlRank)
      && r.operationalRisk == p.baseOperationalRisk + Adjustment(f).operational
  {
    CatalogBaseRanges(style);
    NoClampInside(Profile(style), f, tvlRank);
  }

  /** For a catalog style, `has_audits` lowers the technical and operational scores by
      exactly 0.07 and 0.04. */
  lemma CatalogAuditsLowerExactly(style: Style, f: Features, tvlRank: int)
    ensures
      var a := Assess(Profile(style), f.(hasAudits := false), tvlRank);
      var b := Assess(Profile(style), f.(hasAudits := true), tvlRank);
      && b.technicalRisk == a.technicalRisk - 0.07
      && b.operationalRisk == a.operationalRisk - 0.04
      && b.economicRisk == a.economicRisk
  {
    CatalogNeverClamps(style, f.(hasAudits := false), tvlRank);
    CatalogNeverClamps(style, f.(hasAudits := true), tvlRank);
    AuditsNeverIncreaseRisk(Profile(style), f, tvlRank);
  }

  // ---------------------------------------------------------------------------------
  // worked scenarios

  /** `aztec`, no flags, rank 25. */
  lemma ScenarioAztecDefaults()
    ensures
      var r := Assess(Profile(Aztec), NoFeatures, 25);
      && r.technicalRisk == 0.35 && r.economicRisk == 0.44 && r.operationalRisk == 0.30
      && r.overallRisk == 0.3715 && r.riskLabel == Low
  {
  }

  /** `soundness` with audits, formal specs and a light client, rank 1. */
  lemma ScenarioSoundnessHardened()
    ensures
      var f := NoFeatures.(hasAudits := true, hasFormalSpecs := true, hasLightClient := true);
      var r := Assess(Profile(Soundness), f, 1);
      && r.technicalRisk == 0.07 && r.economicRisk == 0.2716 && r.operationalRisk == 0.23
      && r.overallRisk == 0.17256 && r.riskLabel == VeryLow
  {
  }

  /** `zama` with FHE, MPC signers and multi-chain, rank 50. */
  lemma ScenarioZamaExposed()
    ensures
      var f := NoFeatures.(usesFhe := true, hasMpcSigners := true, multiChain := true);
      var r := Assess(Profile(Zama), f, 50);
      && r.technicalRisk == 0.56 && r.economicRisk == 0.50 && r.operationalRisk == 0.50
      && r.overallRisk == 0.527 && r.riskLabel == Moderate
  {
  }
}
