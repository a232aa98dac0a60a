/** The fixed catalog of base bridge styles (app.py, `BridgeProfile` and `PROFILES`).
    The catalog is closed: a style is one of three named constants, so an unknown
    style cannot be represented once a key has been resolved. */
module Catalog {

  datatype Option<+T> = None | Some(value: T)

  /** The three base styles the profiler knows about. */
  datatype Style = Aztec | Zama | Soundness

  /** One catalog entry: identifying text plus the three base risks, each in [0, 1]
      (higher means riskier). */
  datatype BridgeProfile = BridgeProfile(
    key: string,
    name: string,
    description: string,
    baseTechnicalRisk: real,
    baseEconomicRisk: real,
    baseOperationalRisk: real)
  {
    /** Every base risk is a probability-like value in [0, 1]. */
    predicate Valid() {
      && 0.0 <= baseTechnicalRisk <= 1.0
      && 0.0 <= baseEconomicRisk <= 1.0
      && 0.0 <= baseOperationalRisk <= 1.0
    }
  }

  /** The catalog key under which a style is registered. */
  function Key(style: Style): string {
    match style
    case Aztec => "aztec"
    case Zama => "zama"
    case Soundness => "soundness"
  }

  // The display names and descriptions of the catalog entries.
  const AztecName: string := "Aztec-style Privacy Bridge"
  const AztecDescription: string := "Bridge for zk privacy rollups with encrypted state and batched proofs."
  const ZamaName: string := "Zama-style FHE Bridge"
  const ZamaDescription: string := "Bridge interacting with FHE compute layers and encrypted pipelines."
  const SoundnessName: string := "Soundness-first Research Bridge"
  const SoundnessDescription: string := "Bridge designed with formal models and soundness-first engineering."

  /** The display name of a style. */
  function Name(style: Style): string {
    match style
    case Aztec => AztecName
    case Zama => ZamaName
    case Soundness => SoundnessName
  }

  /** The one-line description of a style. */
  function Description(style: Style): string {
    match style
    case Aztec => AztecDescription
    case Zama => ZamaDescription
    case Soundness => SoundnessDescription
  }

  /** The base (technical, economic, operational) risks of a style. */
  function BaseValues(style: Style): (real, real, real) {
    match style
    case Aztec => (0.35, 0.40, 0.30)
    case Zama => (0.45, 0.42, 0.38)
    case Soundness => (0.28, 0.32, 0.27)
  }

  /** The catalog entry for a style: it is registered under its own key and its base risks
      lie in [0, 1]. */
  function Profile(style: Style): (p: BridgeProfile)
    ensures p.Valid()
    ensures p.key == Key(style)
  {
    var b := BaseValues(style);
    BridgeProfile(Key(style), Name(style), Description(style), b.0, b.1, b.2)
  }

  /** Resolving a style key in the catalog: `None` for a key that is not registered. */
  function Lookup(key: string): (r: Option<Style>)
    ensures r.Some? <==> key in {"aztec", "zama", "soundness"}
    ensures r.Some? ==> Key(r.value) == key
  {
    if key == "aztec" then Some(Aztec)
    else if key == "zama" then Some(Zama)
    else if key == "soundness" then Some(Soundness)
    else None
  }

  /** Every style is found again under its own key, and distinct styles have distinct keys
      and distinct entries. */
  lemma LookupKeyRoundTrip(style: Style, other: Style)
    ensures Lookup(Key(style)) == Some(style)
    ensures Lookup(Profile(style).key) == Some(style)
    ensures style != other ==> Key(style) != Key(other) && Profile(style) != Profile(other)
  {
  }
}
