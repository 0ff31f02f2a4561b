# Athena BSR damage evaluator and build search, in Dafny

Athena is a build optimiser for Ichigo in *Bleach: Soul Resonance*. It has
two parts, and this project models both.

- **The damage evaluator.** It takes three stamps, a core and a weapon stamp
  and sums their stat blocks and effect lists. It then applies the hard-coded
  three-piece set bonuses ("Rising Black Moon" and "Beast Tyrant") and
  computes:
  - the final attack;
  - the bond damage tier and the crit-rate cap, where surplus rate becomes
    crit damage at 1.75 to 1;
  - the additive damage bucket;
  - the motion value and the extra-hit ratio.

  The result is the damage of one special-attack cast, together with the
  final attack, crit rate and crit damage.
- **The build search.** It splits the stamps by slot and enumerates every
  (slot 1, slot 2, slot 3, core, weapon stamp) choice in product order. It
  scores each choice and keeps the first one whose damage is strictly above
  the best so far, starting from 0.

Modules:

- `StatBlock` (stats.dfy): the eight-field additive stat record. It covers
  construction from keyword values and pointwise addition.
- `Items` (items.dfy): effects and items as plain values.
- `Scenario` (scenario.dfy): the evaluator. `Evaluate`, `Formula` and the
  functions before them specify the evaluator stage by stage.
  `CalculateDpsScenario` runs it as the program does: a summing loop, then
  the set bonuses applied in place. `ComputeDamage` runs the formula steps
  with the bond if/elif and the in-place crit clamp. Both are proved to
  return exactly the specified result.
- `CartesianProduct` (product.dfy): the product of a list of lists in
  standard-library order, where the last list varies fastest.
- `Optimizer` (optimizer.dfy): slot partitioning and the five-way product.
  The incumbent loop `BestOf` carries first-wins argmax invariants.
  `Optimize` chains partition, product and loop. `OptimizeBuild` plugs in the
  evaluator.

Every quantity is a mathematical real. The model follows the code in two
cases that a reader might expect to be errors:

- Unknown stat names are silently ignored, not rejected (see
  `StatBlock.FromFieldsIgnoresUnknown`).
- An empty search space is not a separate outcome. The search returns
  `None`, as it does when no build scores above 0.

## Model

| member | source | states |
|---|---|---|
| StatBlock.FromFields | app.py:10-19 | Each recognised field takes the value given under its name. Every recognised field that is not given is 0. |
| StatBlock.FromFieldsRoundTrip | app.py:10-19 | A record rebuilt from its own name-to-value mapping is the same record. |
| StatBlock.FromFieldsIgnoresUnknown | app.py:10-19 | Adding a key that is not a field name never changes the record built. |
| StatBlock.FromFieldsEmpty | app.py:10-19 | Construction with no keywords gives the all-zero record. |
| StatBlock.AddPointwise | app.py:21-31 | Each of the eight fields of a sum is the sum of the two fields of that name. |
| StatBlock.AddZero | app.py:21-31 | The all-zero record is a two-sided identity of addition. |
| StatBlock.AddCommutative | app.py:21-31 | Addition of stat records is commutative. |
| StatBlock.AddAssociative | app.py:21-31 | Addition of stat records is associative. |
| StatBlock.AddSwap | app.py:21-31 | In a sum of three records, the last two may be exchanged. |
| Items.NewItem | app.py:43-50 | An item keeps its name, category, slot, set name and effects. Its stats are the keyword values, with 0 for every field not given. |
| Scenario.SumStatsConcat | app.py:58-65 | Summing the stats of two item lists in turn is the sum of their separate sums. |
| Scenario.AllEffectsConcat | app.py:61-65 | The effects gathered from two item lists in turn are the concatenation of the two gatherings. |
| Scenario.SumStatsOfFive | app.py:58-64 | The aggregated stats of a five-item build are its five stat records added in order. |
| Scenario.SumStatsRemoveAt | app.py:58-64 | The stat sum of a list is the sum without one item, plus that item's stats. |
| Scenario.EffectTotalRemoveAt | app.py:61-65 | An effect-kind total over a list is the total without one item plus that item's own total. |
| Scenario.SumStatsPermutation | app.py:58-64 | Two item lists with the same multiset of items have the same stat sum. |
| Scenario.EffectTotalPermutation | app.py:61-65 | Two item lists with the same multiset of items give the same effect-kind total. |
| Scenario.AggregationOrderIndependent | app.py:57-125 | Reordering the equipped items changes neither the summed stats, the motion value nor the extra-hit ratio. |
| Scenario.EffectSumConcat | app.py:119-125 | An effect-kind sum over a concatenation is the sum of the two parts' sums. |
| Scenario.EffectSumIgnoresNonMatching | app.py:119-125 | An effect of another kind, or with a trigger other than the special cast (such as a passive), adds nothing wherever it is inserted. |
| Scenario.PassiveEffectIgnored | app.py:119-125 | An effect with the passive trigger never changes a motion-value or extra-hit total, whatever its kind and wherever it is inserted. |
| Scenario.CountAll | app.py:71-78 | A name count never exceeds the list length. It equals the length exactly when every entry carries the name. |
| Scenario.CountDisjoint | app.py:71-78 | Two distinct names together occupy at most as many entries as there are. |
| Scenario.SetThreshold | app.py:68-78 | With three stamps, a set bonus fires exactly when all three carry the set name. Two matching stamps never trigger it. |
| Scenario.SetBonusesExclusive | app.py:70-83 | With fewer than six stamps, Rising Black Moon and Beast Tyrant never both fire. |
| Scenario.SetBonuses | app.py:67-83 | Rising Black Moon adds exactly 0.11 slash and 0.18 base attack, and appends exactly one on-special-cast `buff_mv_pct` 0.28 effect. Beast Tyrant adds exactly 0.16 base attack plus 0.34/3, 0.36/3 and 0.23/3 of attack, crit rate and all damage, each weighted by 0.66 uptime. Neither changes anything else. |
| Scenario.BondDmg | app.py:96-100 | The bond bonus is 0.23 below 0.20 crit rate, 0.27 from 0.20 to below 0.40, and 0.31 from 0.40 up. |
| Scenario.BondDmgMonotone | app.py:96-100 | A higher crit rate never lowers the bond bonus. |
| Scenario.CritCap | app.py:105-109 | The capped rate is at most 1 and at most the raw rate, and is either the raw rate or exactly 1. Crit damage grows by exactly 1.75 times the rate cut off. |
| Scenario.Formula | app.py:85-142 | The formula applied to summed and bonused stats: its crit rate never exceeds 1. |
| Scenario.Evaluate | app.py:56-142 | The specification of the evaluator: the formula applied to the build's bonused totals. Its crit rate never exceeds 1. |
| Scenario.CalculateDpsScenario | app.py:56-142 | The evaluator as run: the summing loop and the in-place set bonuses, then the formula steps. It returns exactly the specified result, so its crit rate is at most 1. |
| Scenario.ComputeDamage | app.py:85-142 | Steps 3 to 7 as run: attack, bond tier by if/elif, in-place crit clamp, damage bucket, motion value and extra hits. The result is exactly the formula's, with a crit rate of at most 1. |
| Scenario.EvaluateCrit | app.py:93-109 | The returned crit rate is at most 1. Above 1, the raw rate 0.05 + rate becomes 1 and crit damage 0.50 + crit damage + 0.30 + team crit damage grows by 1.75 times the surplus. Otherwise both pass unchanged. |
| Scenario.EvaluateDamageFormula | app.py:85-140 | The returned attack in closed form: (character base + weapon base × (1 + weapon boost)) × (1 + base attack bonus) × (1 + attack % + team attack %) + flat attack + team flat attack. The returned damage equals attack × (1 + capped rate × crit damage) × damage bucket × 1.72 × motion value × (1 + extra-hit ratio). |
| Scenario.AllEffectsNone | app.py:57-65 | Items without effects contribute no effects. |
| Scenario.ZeroEffectBaseline | app.py:116-125 | Items without effects and no Rising Black Moon set leave the motion value at 3.35 and the extra-hit ratio at 0. |
| Scenario.RbmMotionValue | app.py:70-125 | Three Rising Black Moon stamps, on items without effects, give motion value 3.35 + 0.28 and no extra hit. |
| Scenario.BaselineScenario | app.py:56-142 | Bases 605 and 908 with all-zero filler items and no team buffs give attack 1513, crit rate 0.05, crit damage 0.80 and damage 1513 × 1.04 × 1.48 × 1.72 × 3.35. |
| CartesianProduct.PrependEachLength | app.py:211 | Putting every head before every tail gives heads × tails entries. |
| CartesianProduct.PrependEachMember | app.py:211 | A list is among the prefixed tails exactly when its first entry is a head and its rest is a tail. |
| CartesianProduct.ProductLength | app.py:211 | The product has as many entries as the product of the list lengths. |
| CartesianProduct.ProductMember | app.py:211 | A list is a combination exactly when it has one entry per list and each entry comes from its list. |
| CartesianProduct.PrependEachAt | app.py:211 | Head i followed by tail j sits at position i times the number of tails plus j: all tails of one head come before those of the next head. |
| CartesianProduct.ProductAt | app.py:211 | The tuple that takes entry idx[j] from each list j sits at the mixed-radix position of idx, with the first list as the most significant digit. |
| CartesianProduct.ProductOfFiveAt | app.py:211 | For five lists, the tuple of entries (i1, ..., i5) sits at position (((i1·n2 + i2)·n3 + i3)·n4 + i4)·n5 + i5, where nk is the length of list k. The last list varies fastest. |
| CartesianProduct.ProductShape | app.py:211 | Every enumerated combination has one entry per list, each taken from its list. |
| Optimizer.StampsInSlot | app.py:206-208 | Each selected stamp is in the inventory and has that slot. Every inventory stamp with that slot is selected. |
| Optimizer.StampsInSlotConcat | app.py:206-208 | Filtering keeps inventory order and multiplicity: the stamps of a slot in a + b are those of a followed by those of b. |
| Optimizer.StampsInSlotOne | app.py:206-208 | A single stamp is kept exactly when it sits in the slot. Together with StampsInSlotConcat, this fixes the result for every inventory. |
| Optimizer.Combinations | app.py:211 | The number of combinations is exactly the product of the five list lengths, each drawing every part from its own list. |
| Optimizer.CombinationsAt | app.py:211 | The combination of s1[i1], s2[i2], s3[i3], cores[i4] and wStamps[i5] sits at the mixed-radix position of (i1, ..., i5). This is the order in which the loop meets the combinations, so it decides which tie wins. |
| Optimizer.CombinationsComplete | app.py:211 | Every choice of one item per list is enumerated. |
| Optimizer.CombinationsEmpty | app.py:211 | There are no combinations exactly when one of the five lists is empty. |
| Optimizer.EarliestMaxUnique | app.py:214-226 | At most one position is the earliest maximum. |
| Optimizer.EarliestMaxExists | app.py:214-226 | Every non-empty score list has an earliest maximum. |
| Optimizer.BestOf | app.py:214-228 | The incumbent loop starts from damage 0 and no build, and replaces the incumbent only on strictly greater damage. No result exactly when no combination scores above 0, and then the best damage is 0. Otherwise the result is the earliest combination of greatest damage, with its damage, names, attack, crit rate and crit damage. |
| Optimizer.Optimize | app.py:204-228 | No result exactly when no combination scores above 0, which includes any empty list, and then the best damage is 0. Otherwise the result reports the earliest combination of greatest damage, with its names, attack, crit rate and crit damage. |
| Optimizer.OptimizeBuild | app.py:204-228 | With the damage evaluator plugged in: no combination scores above the reported damage, which is 0 when nothing is reported. A reported build scores above 0, is the earliest combination of greatest damage, carries exactly its evaluated attack, crit rate and crit damage, and has a crit rate of at most 1. |

## Left out

- The Streamlit interface: page setup, sidebar inputs, tabs, progress bar, result display and manual text. Presentation only; the sidebar values become the method parameters.
- The session-state inventory, its seeded items and the add-item form. These are mutable UI state and input; the inventory is a parameter of the search.
- The crash when the result is displayed with no build found. The search returns `None` instead.
- `Effect.condition` and `Effect.to_dict`. The first is never read, and the second serialises for display.
- Building an effect from a dictionary inside the item constructor. Items take effect values directly.
- Floating-point rounding. All quantities are exact reals.
- The item category is an enumeration, and the team buffs are a record with all four fields. A category string outside the three known ones, and a team mapping with a missing key, cannot be expressed.
- The search loop takes its scorer as a function parameter rather than calling `CalculateDpsScenario`. `Optimizer.OptimizeBuild` plugs in `Scenario.Evaluate`, which `Scenario.CalculateDpsScenario` is proved to compute.
- The evaluator is one function in the source. Here its formula steps (3 to 7) are a second method, `Scenario.ComputeDamage`, which `Scenario.CalculateDpsScenario` calls after the summing and set-bonus steps. The computation is unchanged.
