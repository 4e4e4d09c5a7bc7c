# Relationship predictor: the rule layers

The relationship predictor estimates two percentages for a described
relationship: "Chances of Happy Marriage %" (happy) and "Chances of
Cheating %" (cheat). A trained regressor produces raw scores. Two hand-written
rule layers adjust them:

- **Serving-time rules** (`apply_domain_rules` in app.py). The `/predict` path
  clips the regressor's raw (happy, cheat) into [1, 99]. It then applies a
  fixed, ordered chain of rules read from the request row and clips both
  scores into [1, 99] again. The rules are:
  - additive nudges for past pattern, attachment, infidelity, trust,
    behaviour and time together;
  - a Body Count if/elif/elif chain: floor 90 with happy −30, or floor 50, or
    cheat −10.
- **Training-time label rules** (`apply_label_rules` in train_model.py). These
  rewrite the two raw label columns of the historical table before
  training. Each statement is a masked update of one label column, keyed on
  feature columns of the same row. The table ends with a clip of both columns
  to [1, 99].

Scores are exact rationals (`real`). The label table is modelled directly
as a map of the per-row label step over its rows: each masked statement of
the program reads and writes only its own row, so running the statements one
at a time over the whole table gives the same labels. The row (`Features.Row`) holds only the
eleven columns that some rule reads. The three string columns are compared
after ASCII lower-casing.

Files:

- `scores.dfy`: module `Scores`. The score pair, the clip, the `max` floor,
  and the additive-nudge and floor steps that both layers are built from.
- `features.dfy`: module `Features`. The row, `ToLower`, and the
  case-insensitive string tests.
- `domain_rules.dfy`: module `DomainRules`. The serving-time chain, the
  `/predict` pre-clip, and the chain's closed form with its consequences.
- `label_rules.dfy`: module `LabelRules`. The per-row label rules, the table
  operation, and the label chain's closed form with its consequences.
- `consistency.dfy`: module `TrainServe`. How the two rule sets relate.

Each rule chain has a partner: a closed form (`DomainRulesNetEffect`,
`LabelNetEffect`) proved equal to the chain for every row and every base pair.
In the closed form:

- happy is the base plus a sum of per-rule terms, then clipped;
- cheat is shifted, raised to the Body Count floor, shifted again, then
  clipped.

Bounds, floors, column independence and monotonicity are derived from the
closed form.

## Behaviour worth noting

- At serving time a Body Count above 20 does not guarantee cheat ≥ 90. The
  trust, "kind" and time rules come after `max(cheat, 90)` (app.py lines
  87-95) and can take off 5 points. The model proves cheat ≥ 85
  (`DomainRules.ExtremeBodyCountCheatBound`) and that 85 is reached
  (`DomainRules.ExtremeBodyCountCheatCanBe85`). For the training labels the
  ≥ 90 floor does hold (`LabelRules.LabelExtremeBodyCountFloor`), because
  every later label change to cheat is non-negative.
- Neither rule set contains the other:
  - training uses −15/+8 for "high" attachment, where serving uses −20/+12;
  - for trust ≥ 9, training adds happy +4 only, where serving adds +3/−2;
  - training has a low-trust and two stability rules and the Caring, Loving
    and Efforts terms, which serving lacks;
  - training has no behaviour or time-together rules.

  `TrainServe.RuleSetsDiffer` exhibits a row on which they disagree. The
  Body Count step, by contrast, has the same effect in both
  (`TrainServe.BodyCountRulesAgree`).
- The label rules do not clip the raw labels first: the Body Count floors act
  on the raw values, and the only clip is the last statement. Only the
  serving path clips before its rules (`DomainRules.Predict`), and that clip
  changes results (`DomainRules.PreClipMatters`).
- The two layers are written separately, and the model keeps them separate,
  built on shared nudge, floor and clip steps.

## Model

| member | source | states |
|---|---|---|
| Scores.Clip | app.py:98-99 | the clipped score always lies in [1, 99] |
| Scores.ClipIsNearest | train_model.py:58-59 | the clipped score is the point of [1, 99] nearest to the input |
| Scores.ClampPair | app.py:110-111 | both clipped scores lie in [1, 99], and a pair already in range is returned unchanged |
| Scores.ClipIdempotent | app.py:98-99 | clipping twice is clipping once; an in-range value is left alone |
| Scores.ClampPairIdempotent | app.py:110-114 | clipping a pair twice is clipping it once |
| Scores.AtLeast | app.py:72 | `max(cheat, k)` is at least both arguments and equals one of them |
| Scores.Nudge | train_model.py:17-22 | a masked `+=` on the two score columns; it has no contract of its own, and `Scores.NudgeEffect` states what it does |
| Scores.NudgeEffect | train_model.py:17-19 | a nudge moves each score by its delta when its mask holds and by nothing otherwise; two statements on the same mask, one per column, act as one rule on both columns; nudges commute |
| Scores.FloorCheat | train_model.py:25-31 | a masked `clip(lower=level)` on cheat: happy is untouched, cheat never drops, cheat reaches `level` when the mask holds, and the result is the old cheat or `level` |
| Features.LowerChar | app.py:54 | the lowered character is not an upper-case letter, and other characters are unchanged |
| Features.ToLower | app.py:54-57 | lower-casing keeps the length and lowers each character in place |
| Features.ToLowerOfLower | app.py:62 | a keyword with no upper-case letter is its own lower-case form |
| Features.ToLowerIdempotent | app.py:54-57 | lower-casing twice is lower-casing once |
| Features.KeywordMatch | app.py:54-66 | `field.lower() == keyword` holds exactly when the field has the keyword's length and each lowered character equals the keyword's character there, so containing the keyword is not enough |
| Features.IsCasual | app.py:62 | the lowered past pattern is exactly "casual" (also train_model.py line 22); only a six-letter field passes |
| Features.HasLowAttachment | app.py:64 | the lowered attachment style is exactly "low" (also train_model.py line 17); only a three-letter field passes |
| Features.HasHighAttachment | app.py:66 | the lowered attachment style is exactly "high" (also train_model.py lines 18-19); only a four-letter field passes |
| Features.IsKind | app.py:90 | the lowered behaviour is exactly "kind"; only a four-letter field passes |
| Features.SameUpToCaseTests | app.py:54-57 | rows that differ only in letter case pass the same "casual", "low", "high" and "kind" tests and agree on every numeric field |
| Features.AttachmentExclusive | app.py:64-66 | an attachment style is never both "low" and "high" |
| DomainRules.BandOf | app.py:71-77 | exactly one Body Count band applies: > 20, (10, 20], < 3, or [3, 10] |
| DomainRules.BodyCountRule | app.py:71-77 | above 20, cheat ≥ 90 and happy − 30; in (10, 20], cheat ≥ 50 with happy unchanged; below 3, cheat − 10 only; in [3, 10] nothing changes; from 3 up, cheat never drops |
| DomainRules.RuleChain | app.py:62-95 | the serving rules in source order, before the clip; it has no contract of its own, and `DomainRules.RuleChainHappy` and `DomainRules.RuleChainCheat` give its closed form |
| DomainRules.ApplyDomainRules | app.py:50-100 | for every row and every real base pair, both returned scores lie in [1, 99] |
| DomainRules.Predict | app.py:107-114 | the result lies in [1, 99]; for an in-range raw prediction, the pre-clip has no effect |
| DomainRules.ServingCheatTailBounds | app.py:80-95 | after the Body Count step, cheat moves by at least −5 and at most +20 |
| DomainRules.RuleChainHappy | app.py:62-95 | before the clip, happy is the base plus the sum of the attachment, Body Count, infidelity, trust, kind and time terms |
| DomainRules.RuleChainCheat | app.py:62-95 | before the clip, cheat is the base shifted by the pattern, attachment and low-count terms, raised to the Body Count floor, then shifted by the infidelity, trust, kind and time terms |
| DomainRules.DomainRulesNetEffect | app.py:62-99 | the serving rules equal their closed form for every row and base pair |
| DomainRules.HappyIgnoresBaseCheat | app.py:62-99 | the happy output does not depend on the base cheat |
| DomainRules.CheatIgnoresBaseHappy | app.py:62-99 | the cheat output does not depend on the base happy |
| DomainRules.DomainRulesMonotone | app.py:62-99 | raising a base score never lowers its output score |
| DomainRules.ExtremeBodyCountCheatBound | app.py:71-95 | with Body Count > 20, the final cheat is at least 85 |
| DomainRules.ExtremeBodyCountCheatCanBe85 | app.py:71-95 | Body Count 21, trust 9, "kind", 25 hours and base cheat 1 ends with cheat exactly 85, so ≥ 90 is not guaranteed |
| DomainRules.BodyCountBranches | app.py:71-77 | 21 takes floor 90 with happy −30; 20 and 11 take only floor 50; 3 to 10 take nothing; 2 takes only cheat −10 |
| DomainRules.DomainRulesIgnoreCase | app.py:54-57 | rows that differ only in the letter case of attachment, pattern or behaviour get identical outputs |
| DomainRules.WorkedTrace | app.py:62-99 | Body Count 25, infidelity 1, "high", "casual", trust 9, "kind", 30 hours and base (60, 40) give (34, 99) |
| DomainRules.PredictIsClamped | app.py:110-114 | clipping the final result again changes nothing |
| DomainRules.PreClipMatters | app.py:110-114 | with "high" attachment, raw cheat 200 ends at 79 with the pre-clip and at 99 without it |
| LabelRules.LabelBodyCountRules | train_model.py:25-32 | a count in [3, 10] changes nothing; above 20, cheat ≥ 90; in (10, 20], cheat ≥ 50; from 3 up, cheat never drops |
| LabelRules.LabelChain | train_model.py:17-55 | the masked label updates of one row in source order, before the clip; it has no contract of its own, and `LabelRules.LabelChainHappy` and `LabelRules.LabelChainCheat` give its closed form |
| LabelRules.LabelScores | train_model.py:17-59 | both labels of a row end in [1, 99] |
| LabelRules.LabelRow | train_model.py:12-59 | the label step on one row keeps its features and leaves both labels in [1, 99] |
| LabelRules.ApplyLabelRules | train_model.py:12-61 | the row count, the row order and all features are kept; each output row is the label rules of the same input row; all labels lie in [1, 99] |
| LabelRules.ApplyLabelRulesConcat | train_model.py:17-59 | labelling a concatenation of two tables equals concatenating their labellings |
| LabelRules.RowwiseIndependent | train_model.py:17-59 | equal input rows get equal output rows, wherever they sit in whichever table |
| LabelRules.LabelCheatTailNonNegative | train_model.py:35-43 | every cheat change after the Body Count floor is non-negative, in total between 0 and 34 |
| LabelRules.LabelChainHappy | train_model.py:17-55 | before clipping, happy is the base plus the discrete rule terms plus `0.1*(Caring−5) + 0.1*(Loving−5) + 0.15*(Efforts−5)` |
| LabelRules.LabelBodyCountNetEffect | train_model.py:25-32 | the three Body Count masks together apply at most one of the floors or the −10, plus happy −30 above 20 |
| LabelRules.LabelChainCheat | train_model.py:17-43 | before clipping, cheat is the base shifted by the attachment, pattern and low-count terms, raised to the Body Count floor, then shifted by the infidelity, low-trust and low-stability terms |
| LabelRules.LabelNetEffect | train_model.py:17-59 | the label rules of a row equal their closed form |
| LabelRules.LabelExtremeBodyCountFloor | train_model.py:25-58 | with Body Count > 20, the final label cheat is at least 90 |
| LabelRules.LabelElevatedBodyCountFloor | train_model.py:29-58 | with Body Count in (10, 20], the final label cheat is at least 50 |
| LabelRules.LabelBodyCountMasks | train_model.py:25-32 | the three Body Count masks that `LabelRules.LabelBodyCountRules` applies (`ExtremeMask`, `ElevatedMask`, `LowMask`) are pairwise disjoint, and a count is in none of them exactly when it lies in [3, 10] |
| LabelRules.StabilityEffect | train_model.py:42-44 | compared with stability 5, stability ≤ 3 gives cheat +8 and happy −6, and stability ≥ 8 gives happy +3 only; the two masks never both hold |
| LabelRules.LabelColumnsIndependent | train_model.py:17-59 | the happy label does not depend on the raw cheat label, and the cheat label does not depend on the raw happy label |
| LabelRules.LabelMonotone | train_model.py:17-59 | raising a raw label never lowers its final label |
| LabelRules.LabelRulesIgnoreCase | train_model.py:17-22 | rows that differ only in the letter case of attachment or pattern get identical labels |
| TrainServe.BodyCountMasksMatchBands | train_model.py:25-32 | each training mask used by `LabelRules.LabelBodyCountRules` selects exactly one band of serving's if/elif/elif chain, and a count outside every mask is in serving's no-op band |
| TrainServe.BodyCountRulesAgree | train_model.py:25-32 | the training Body Count statements have the same effect as the serving chain of app.py lines 71-77, for every count and pair |
| TrainServe.RuleSetsDiffer | train_model.py:17-39 | on a "high"-attachment row with trust 9 and base (50, 50), serving gives (65, 28) and training gives (62, 35) |

## Left out

- The Flask application, its routes and template rendering (app.py lines 1-15, 102-104, 117-118): web I/O.
- `parse_form` (app.py lines 17-48): only `int()`, `float()` and `str()` conversions of form fields. The model takes an already typed `Features.Row`.
- Loading and saving the fitted pipeline with joblib, and the model-file existence check: file I/O.
- The scikit-learn pipeline: one-hot encoding, scaling, the random-forest fit and predict, and the train/test split. These are library internals with statistical behaviour. `DomainRules.Predict` takes the regressor's raw prediction as a parameter.
- `round(..., 1)` of the displayed scores (app.py line 115): presentation of floats.
- CSV reading and the command-line interface of train_model.py.
- Feature columns that no rule reads (Gender, Age, Religion, …): they pass through both layers unchanged, so the row omits them. Keeping "every feature column" is modelled as keeping `features`.
- Mutation of the input table: the source works on a copy. The model works on immutable values, so the input cannot change.
- Floating point: scores are exact rationals. IEEE rounding of `0.1 * (Caring − 5)` and similar terms is not modelled.
- Pandas missing values and dtype edge cases, such as NaN labels or `.str.lower()` on a non-string cell.
- Features.ToLower: lowers ASCII letters only. Python's `str.lower()` also folds non-ASCII letters. The rule keywords "casual", "low", "high" and "kind" are ASCII, but a non-ASCII letter in a row could compare differently.
