# IntelliZone thermal-comfort and HVAC cycle model

A Dafny model of the two pieces of exact logic in the IntelliZone dashboards:

- **Comfort classification** (`comfort.dfy`, module `ComfortCalc`). The PMV
  calculator page turns a Predicted Mean Vote into advice text
  (`get_comfort_tips`) and, separately, into the emoji and colour of the result
  panel. Both split the real line at the comfort band [-0.5, 0.5] of ISO 7730
  category B / ASHRAE 55, closed at both ends. The model proves each split
  exactly, that the two splits agree for every PMV, and that the
  classification is monotone and symmetric about neutral.
- **Toy HVAC cycle** (`hvac.dfy`, module `Hvac`). The four component
  calculators (compressor, evaporator, condenser, expansion valve) and
  `calculate_hvac_performance`, which chains them and reports nine figures.
  The model proves the closed forms of each figure and the facts that follow
  from the chain: the condenser undoes the evaporator's temperature drop, heat
  absorbed equals heat released, the valve leaves the refrigerant at 1.5 times
  the inlet pressure, the efficiency argument changes nothing, and, given an
  exact power operator, the compressor takes work exactly when mass flow and
  inlet temperature are nonzero with the same sign.

Modelling decisions:

- PMV, temperatures, pressures and flows are exact `real`s.
- `calculate_compressor` divides by the inlet pressure, which raises
  `ZeroDivisionError` in Python when it is zero. The model returns the
  `DivisionByZero` outcome in that case, and `HvacPerformance` propagates it.
- The fractional power `(p_out / p_in) ** ((1.4 - 1) / 1.4)` has no closed form
  over the reals. The float operator `**` is therefore the parameter `power` of
  `Compressor` and `HvacPerformance`. The predicate `ExactAtIsentropicPoint`
  states that `power(3, 2/7)` is the positive real K with K^7 = 9. Only the
  lemmas about signs rely on it.

## Model

| member | source | states |
|---|---|---|
| `ComfortCalc.Classify` | ComfortCalc.py:7-13 | comfortable exactly on the closed band [-0.5, 0.5], too cold exactly below -0.5, too warm exactly above 0.5 (the `else` branch) |
| `ComfortCalc.ComfortTips` | ComfortCalc.py:7-13 | every PMV gets one of the three advice texts: the comfortable text iff -0.5 <= pmv <= 0.5, the cold text iff pmv < -0.5, the warm text iff pmv > 0.5 |
| `ComfortCalc.ResultBadge` | ComfortCalc.py:78-86 | blue iff pmv < -0.5, red iff pmv > 0.5, green iff pmv is in [-0.5, 0.5]; the emoji ❄️/🔥/✅ goes with blue/red/green respectively |
| `ComfortCalc.TipsDistinct` | ComfortCalc.py:9-13 | the three advice texts are pairwise different |
| `ComfortCalc.ExactlyOneBand` | ComfortCalc.py:8-13 | the three bands partition the reals: a PMV lies in a band iff that band's outcome is the one chosen |
| `ComfortCalc.BandIsClosed` | ComfortCalc.py:8-9 | pmv = -0.5 and pmv = 0.5 both get the comfortable text and the green ✅ badge |
| `ComfortCalc.TipAndBadgeAgree` | ComfortCalc.py:78-94 | for every PMV the advice text and the badge agree: cold with blue ❄️, comfortable with green ✅, warm with red 🔥 |
| `ComfortCalc.ClassifyMonotone` | ComfortCalc.py:8-13 | a larger PMV never gets a colder outcome (cold < comfortable < warm) |
| `ComfortCalc.ClassifySymmetric` | ComfortCalc.py:8-13 | negating the PMV swaps cold and warm and keeps comfortable, for the text and the badge alike |
| `Hvac.Compressor` | eee.py:8-16 | fails exactly when the inlet pressure is zero; otherwise outlet pressure is 3 times the inlet, outlet temperature is inlet times the isentropic factor 3 ** (0.4/1.4), and work is 1.005 × mass flow × inlet temperature × (factor − 1) |
| `Hvac.Evaporator` | eee.py:19-23 | outlet is 10 degrees below the inlet; heat absorbed is 10.05 × mass flow, independent of the inlet temperature |
| `Hvac.Condenser` | eee.py:26-30 | outlet is 10 degrees above the inlet; heat released is 10.05 × mass flow, independent of the inlet temperature |
| `Hvac.ExpansionValve` | eee.py:33-37 | outlet pressure is half the inlet pressure; outlet temperature is 5 degrees below the inlet |
| `Hvac.HvacPerformance` | eee.py:40-63 | fails exactly when the inlet pressure is zero; otherwise the condenser outlet equals the compressor outlet, the evaporator outlet is 10 below it, the valve outlet 5 below it, heat absorbed equals heat released (10.05 × mass flow), compressor pressure is 3 times and valve pressure 1.5 times the inlet pressure, and the reported work is the compressor's, 1.005 × mass flow × inlet temperature × (factor − 1) |
| `Hvac.ExponentIsTwoSevenths` | eee.py:14 | the exponent (1.4 − 1) / 1.4 is exactly 2/7, which is why `ExactAtIsentropicPoint` characterises the factor K by K^7 = 3^2 |
| `Hvac.IsentropicFactorAboveOne` | eee.py:14 | if `**` is exact at (3, 2/7), the compressor's temperature factor exceeds 1 |
| `Hvac.CompressorWorkSign` | eee.py:11-15 | with an exact `**` and a nonzero inlet pressure: the outlet is hotter than the inlet iff the inlet temperature is positive; work is positive iff mass flow × inlet temperature is positive, and zero iff that product is zero |
| `Hvac.CondenserUndoesEvaporator` | eee.py:19-30 | feeding the evaporator's outlet to the condenser returns the original temperature, and heat released equals heat absorbed, whatever the pressures and efficiencies |
| `Hvac.EfficiencyIgnored` | eee.py:40-63 | the whole report is the same for any two efficiency values |
| `Hvac.ZeroMassFlow` | eee.py:8-37 | zero mass flow gives zero work, zero heat absorbed and zero heat released |
| `Hvac.CycleWorkSign` | eee.py:40-56 | over the whole chain, with an exact `**`: work is positive iff mass flow × inlet temperature is positive, the compressor outlet is hotter than the inlet iff the inlet temperature is positive, and the valve outlet is at half the compressor's outlet pressure and 5 degrees below its outlet temperature |

## Left out

- Streamlit page set-up, styling, sliders, select boxes, buttons and metric/info/markdown output (ComfortCalc.py:26-98, eee.py:65-82): user interface; its inputs are the parameters of the model's functions.
- The PMV/PPD computation `pmv_ppd_iso` and the lookup tables `met_typical_tasks` and `clo_typical_ensembles`: they belong to the `pythermalcomfort` library, which is not part of this model. The PMV is therefore an input.
- `get_insights` (ComfortCalc.py:16-24): formatted text with float rounding to two decimals; it decides nothing.
- The matplotlib charts (ComfortCalc.py:100-124), including the fixed chart data `ppd_values`: display only.
- The pandas DataFrame of the results (eee.py:81): display only.
- Floating point: rounding, overflow and NaN are not modelled. For a NaN PMV, `get_comfort_tips` falls through to the warm text while the badge chain picks green, so the agreement lemma holds for real PMVs only.
- `Hvac.Compressor`: the power `3 ** (0.4/1.4)` is not computed. It is the value of the parameter `power`, and only the sign lemmas assume that it is the exact real root.
- A hand-written Fanger PMV/PPD formula, the severity band |pmv| <= 1 and the adaptive comfort model appear in other dashboards of the repository, not in these two files, and are not part of this model.
