# bridge_risk_profiler: the risk calculator, in Dafny

`bridge_risk_profiler` is an offline risk scorer for conceptual cross-chain bridge designs.
Its caller picks a base style from a closed catalog: `aztec`, `zama` or `soundness`. It also
sets eight boolean design flags and gives a TVL rank. The calculator then works in these
steps:

- It starts from the style's base technical, economic and operational risks.
- Each flag that is set adds its own fixed delta to the three totals.
- The economic total gets a TVL nudge of `0.08 * clamp(rank / 50)`.
- Each total is clamped to [0, 1].
- The overall score is the clamped weighted sum `0.45 t + 0.35 e + 0.20 o`.
- The overall score is mapped to one of five labels, from `very_low` to `very_high`.

The model covers:

- the catalog (`Catalog`, catalog.dfy);
- `clamp`, `compute_risk` and the rank coercion of `main` (`Calculator`, calculator.dfy);
- the algebra of the eight flag blocks (`Blocks`, blocks.dfy);
- the calculator's promises (`Properties`, properties.dfy).

Scores are exact `real`s. The decimal constants of the source, such as 0.03 and 0.45, are
represented exactly. So the model states the intended decimal arithmetic, not binary
floating point.

`compute_risk` is specified by the pure function `Calculator.Assess`. It takes the base values,
adds the closed-form `Adjustment` (the per-score sum of the active deltas) and the TVL nudge,
then clamps, weighs and labels the result.

The source's own step-by-step computation is a method, `Calculator.ComputeRisk`. It calls
`Calculator.ApplyDesignFlags`, which seeds three running totals and adjusts them in place with
the eight literal `if` blocks. Then it does the TVL nudge, the clamps, the weighted sum and the
`if`/`elif` label chain. `ComputeRisk` is proved to return exactly `Assess`.

`Blocks` models each `if` block as a step function, `Calculator.Step`, and proves that running
the blocks in any order adds the same closed-form adjustment.

## Model

| member | source | states |
|---|---|---|
| Catalog.Profile | app.py:18-43 | each catalog entry is registered under its own key and has base risks in [0, 1] |
| Catalog.Lookup | app.py:240 | resolving a style key succeeds exactly for `aztec`, `zama` and `soundness`, and the style found is the one registered under that key |
| Catalog.LookupKeyRoundTrip | app.py:18-43 | every style is found again under its key; distinct styles have distinct keys and distinct entries |
| Calculator.Clamp | app.py:46-47 | the result lies in [lo, hi] when lo <= hi; values inside the interval are unchanged; values below lo give lo and values above hi give hi |
| Calculator.TvlFactor | app.py:98 | the TVL factor lies in [0, 1]; it is 0 for ranks <= 0, rank/50 for ranks in [0, 50], and saturates at 1 from rank 50 on |
| Calculator.Label | app.py:107-116 | the five labels are the half-open bands [-inf, 0.25), [0.25, 0.45), [0.45, 0.65), [0.65, 0.80) and [0.80, +inf), each including its lower bound, with an if-and-only-if for each band |
| Calculator.Assess | app.py:50-136 | all four scores lie in [0, 1]; the label is the label of the overall score; the profile key, name and description, the flags and the rank are echoed unchanged |
| Calculator.ApplyDesignFlags | app.py:62-96 | the eight in-place `if` blocks leave the base values plus the closed-form sum of the active deltas |
| Calculator.ComputeRisk | app.py:50-136 | the step-by-step computation returns exactly the specification `Assess` |
| Calculator.Adjustment | app.py:66-96 | (no contract) the closed-form specification of the flag phase: per score, the sum of the deltas of the set flags; `ApplyDesignFlags` is proved to add it, and `Blocks.OrderIndependent` and `Blocks.FlagIsAdditive` characterise it |
| Calculator.DeltaOf | app.py:66-96 | (no contract) the adjustment table written per flag, independently of `Adjustment`: the (technical, economic, operational) delta of each block; `Blocks.SingleFlag` proves each row is the adjustment of that flag alone |
| Calculator.Step | app.py:66-96 | (no contract) one `if` block: add the flag's row of the table to the running totals when the flag is set, otherwise leave them unchanged |
| Calculator.ApplyInOrder | app.py:66-96 | (no contract) the blocks for a list of flags run one after another in that order; `Blocks.SourceOrderAdjustment` proves the source's order adds `Adjustment` |
| Calculator.LabelName | app.py:108-116 | (no contract) the label texts `very_low`, `low`, `moderate`, `high`, `very_high`, one per label; `Properties.LabelBoundaries` states them |
| Calculator.Weighted | app.py:105 | (no contract) the weighted sum 0.45 t + 0.35 e + 0.20 o; `Properties.OverallIsWeightedSum` proves the final clamp never changes it |
| Calculator.CoerceRank | app.py:252 | `max(1, rank)` is at least 1 and at least the rank; it is the rank itself for ranks >= 1 and 1 otherwise |
| Calculator.RunProfiler | app.py:238-253 | for a registered style key, resolving it and scoring its profile with the coerced rank gives `Assess` of that profile; the result carries the key and a rank >= 1 |
| Blocks.StepCommutes | app.py:66-96 | any two flag blocks commute |
| Blocks.StepShifts | app.py:66-96 | a flag block commutes with adding a fixed amount to the totals |
| Blocks.ApplyInOrderAppend | app.py:66-96 | running two lists of blocks one after the other is running their concatenation |
| Blocks.StepPastBlocks | app.py:66-96 | a block can be moved from before a run of blocks to after it |
| Blocks.ShiftThroughBlocks | app.py:66-96 | adding an amount before a run of blocks equals adding it after |
| Blocks.ApplyInOrderPermutation | app.py:66-96 | two runs over the same blocks in different orders (same multiset) leave the same totals |
| Blocks.SourceOrderAdjustment | app.py:66-96 | the eight blocks, run in the source's order, add exactly the closed-form adjustment |
| Blocks.OrderIndependent | app.py:62-96 | every ordering of the eight blocks adds exactly the closed-form adjustment |
| Blocks.SourceOrderOnce | app.py:66-96 | every flag has exactly one block |
| Blocks.SameBlocks | app.py:66-96 | feature sets that agree on every flag a run contains leave the same totals |
| Blocks.FlipOne | app.py:66-96 | in a run that contains a flag once, turning that flag on adds exactly its delta |
| Blocks.FlagIsAdditive | app.py:66-96 | for two feature sets differing only in one flag, the adjustment with the flag set is the other adjustment plus that flag's row of the table, whatever the other flags are |
| Blocks.SingleFlag | app.py:66-96 | no flags give no adjustment; a single set flag gives exactly its row of the table |
| Properties.ClampMonotone | app.py:46-47 | clamping preserves order |
| Properties.AuditsLowerAdjustment | app.py:86-88 | turning on `has_audits` lowers the technical and operational totals by exactly 0.07 and 0.04 before clamping, and leaves the economic total unchanged |
| Properties.AuditsNeverIncreaseRisk | app.py:86-103 | turning on `has_audits` never raises a clamped score, leaves the economic score unchanged, and lowers the technical and operational scores strictly unless they are pinned at 0 or 1 |
| Properties.RiskMonotoneInRank | app.py:98-116 | a larger rank never lowers the economic score, the overall score or the label's severity |
| Properties.RankSaturatesAtFifty | app.py:98-99 | all ranks >= 50 give the same result apart from the echoed rank |
| Properties.LabelMonotone | app.py:107-116 | a larger overall score never gets a less severe label |
| Properties.LabelBoundaries | app.py:107-116 | each threshold falls in the band above it, and the label texts are `very_low`, `low`, `moderate`, `high` and `very_high` |
| Properties.OverallIsWeightedSum | app.py:105 | the weights sum to one, so the final clamp never changes the weighted sum of the clamped scores |
| Properties.AdjustmentBounds | app.py:66-96 | each total moves by at most the column sums of the table: technical in [-0.24, 0.11], economic in [-0.10, 0], operational in [-0.07, 0.14] |
| Properties.CatalogBaseRanges | app.py:18-43 | the catalog's base risks lie in [0.28, 0.45], [0.32, 0.42] and [0.27, 0.38] |
| Properties.NoClampInside | app.py:98-103 | for a profile with base risks well inside [0, 1], no per-score clamp ever bites |
| Properties.CatalogNeverClamps | app.py:62-103 | for the three catalog styles, every score equals its base value plus the active deltas (plus the TVL nudge for economic), for all flags and ranks |
| Properties.CatalogAuditsLowerExactly | app.py:86-88 | for a catalog style, `has_audits` lowers the technical and operational scores by exactly 0.07 and 0.04 |
| Properties.ScenarioAztecDefaults | app.py:50-136 | `aztec`, no flags, rank 25 gives t = 0.35, e = 0.44, o = 0.30, overall = 0.3715, label `low` |
| Properties.ScenarioSoundnessHardened | app.py:50-136 | `soundness` with audits, formal specs and a light client, rank 1 gives t = 0.07, e = 0.2716, o = 0.23, overall = 0.17256, label `very_low` |
| Properties.ScenarioZamaExposed | app.py:50-136 | `zama` with FHE, MPC signers and multi-chain, rank 50 gives t = 0.56, e = 0.50, o = 0.50, overall = 0.527, label `moderate` |

## Left out

- Argument parsing (`parse_args`, app.py:139-207) is not modelled. The style key, the eight flags and the raw rank are parameters of `Calculator.RunProfiler`. The parser's defaults (style `aztec`, no flags, rank 25) are only used in the scenario lemmas.
- `print_human` and the JSON output (app.py:255-258) are I/O and are not modelled.
- Calculator.TvlFactor: the source converts the rank to a float at app.py:98, and for a rank beyond the float range (about 1.8e308, which `--tvl-rank` accepts as an `int`) that conversion raises `OverflowError`. The model has no such error: the factor saturates at 1 for every rank >= 50, so `Calculator.ComputeRisk` and `Calculator.RunProfiler` return a result where the program would stop.
- Outputs are not rounded to three decimals. The scores are exact reals, so `round(x, 3)` and binary floating-point error are not represented. For the same reason, a float sum that lands just beside a label threshold may be labelled differently by the program than by the model.
- The dictionary lookup `PROFILES[args.style]` is modelled by `Catalog.Lookup` returning `None` for an unknown key. The parser's `choices` (app.py:147-152) keep such keys out, so `Calculator.RunProfiler` requires a registered key and the model does not represent the exception the lookup would raise.
- `compute_risk` returns a dictionary with one entry per flag. The model returns a record, `Calculator.RiskResult`, that keeps the eight flags together as one `Features` value. Labels are a datatype, and `Calculator.LabelName` gives the source's label texts.
- `compute_risk` is modelled in two phases. `Calculator.ApplyDesignFlags` is the in-place flag blocks and `Calculator.ComputeRisk` is the rest. The sequence of updates to the local variables is otherwise the source's.
- The source's help text says the rank nudges economic risk upward "as capital grows", where rank 1 is the largest TVL. The code does the opposite: a larger rank number, meaning less capital, gives a larger TVL factor. The model follows the code.
