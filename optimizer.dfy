/** The brute-force build search: partition the stamps by slot, enumerate
    every (slot 1, slot 2, slot 3, core, weapon stamp) combination in product
    order, evaluate each, and keep the first one whose damage is strictly
    greater than the best seen so far, starting from 0. */
module Optimizer {
  import opened Items
  import opened Scenario
  import opened CartesianProduct

  /** The caller's inventory: stamps of every slot, cores and weapon stamps. */
  datatype Inventory = Inventory(stamps: seq<Item>, cores: seq<Item>, wStamps: seq<Item>)

  /** One candidate build. */
  datatype Combo = Combo(st1: Item, st2: Item, st3: Item, core: Item, wStamp: Item)

  /** What the search reports for the winner: its item names and its final
      attack, crit rate and crit damage. */
  datatype BestBuild = BestBuild(stampNames: seq<string>, coreName: string, wStampName: string,
                                 atk: real, cr: real, cd: real)

  /** The stamps equipped in the given slot, in inventory order. */
  function StampsInSlot(stamps: seq<Item>, slot: int): (r: seq<Item>)
    ensures |r| <= |stamps|
    ensures forall i :: 0 <= i < |r| ==> r[i].slot == Some(slot) && r[i] in stamps
    ensures forall x :: x in stamps && x.slot == Some(slot) ==> x in r
  {
    if |stamps| == 0 then []
    else (if stamps[0].slot == Some(slot) then [stamps[0]] else []) + StampsInSlot(stamps[1..], slot)
  }

  /** Partitioning keeps inventory order: the stamps of a slot in a + b are
      those of a followed by those of b. */
  lemma {:induction false} StampsInSlotConcat(a: seq<Item>, b: seq<Item>, slot: int)
    ensures StampsInSlot(a + b, slot) == StampsInSlot(a, slot) + StampsInSlot(b, slot)
    decreases |a|
  {
    if |a| == 0 {
      assert a + b == b;
    } else {
      assert (a + b)[1..] == a[1..] + b;
      StampsInSlotConcat(a[1..], b, slot);
    }
  }

  /** A single stamp is kept exactly when it sits in the slot. */
  lemma StampsInSlotOne(x: Item, slot: int)
    ensures StampsInSlot([x], slot) == if x.slot == Some(slot) then [x] else []
  {
  }

  /** Every (slot 1, slot 2, slot 3, core, weapon stamp) choice, in product order. */
  function Combinations(s1: seq<Item>, s2: seq<Item>, s3: seq<Item>, cores: seq<Item>, wStamps: seq<Item>)
    : (r: seq<Combo>)
    ensures |r| == |s1| * (|s2| * (|s3| * (|cores| * |wStamps|)))
    ensures forall k :: 0 <= k < |r| ==>
      r[k].st1 in s1 && r[k].st2 in s2 && r[k].st3 in s3 && r[k].core in cores && r[k].wStamp in wStamps
  {
    var lists := [s1, s2, s3, cores, wStamps];
    var p := Product(lists);
    ProductShape(lists);
    ProductLength(lists);
    assert ProductSize(lists) == |s1| * (|s2| * (|s3| * (|cores| * |wStamps|))) by {
      assert lists[1..] == [s2, s3, cores, wStamps];
      assert lists[1..][1..] == [s3, cores, wStamps];
      assert lists[1..][1..][1..] == [cores, wStamps];
      assert lists[1..][1..][1..][1..] == [wStamps];
      assert lists[1..][1..][1..][1..][1..] == [];
      assert ProductSize(lists[1..][1..][1..][1..]) == |wStamps|;
      assert ProductSize(lists[1..][1..][1..]) == |cores| * |wStamps|;
      assert ProductSize(lists[1..][1..]) == |s3| * (|cores| * |wStamps|);
      assert ProductSize(lists[1..]) == |s2| * (|s3| * (|cores| * |wStamps|));
    }
    seq(|p|, k requires 0 <= k < |p| => Combo(p[k][0], p[k][1], p[k][2], p[k][3], p[k][4]))
  }

  /** Every choice of one item per list is among the combinations. */
  lemma CombinationsComplete(s1: seq<Item>, s2: seq<Item>, s3: seq<Item>, cores: seq<Item>, wStamps: seq<Item>,
                             c: Combo)
    requires c.st1 in s1 && c.st2 in s2 && c.st3 in s3 && c.core in cores && c.wStamp in wStamps
    ensures c in Combinations(s1, s2, s3, cores, wStamps)
  {
    var lists := [s1, s2, s3, cores, wStamps];
    var tuple := [c.st1, c.st2, c.st3, c.core, c.wStamp];
    ProductMember(lists, tuple);
    var k :| 0 <= k < |Product(lists)| && Product(lists)[k] == tuple;
    assert Combinations(s1, s2, s3, cores, wStamps)[k] == c;
  }

  /** The enumeration order: the combination of s1[i1], s2[i2], s3[i3],
      cores[i4] and wStamps[i5] sits at the mixed-radix position of
      (i1, i2, i3, i4, i5), so the weapon stamp varies fastest and the slot-1
      stamp slowest. */
  lemma CombinationsAt(s1: seq<Item>, s2: seq<Item>, s3: seq<Item>, cores: seq<Item>, wStamps: seq<Item>,
                       i1: int, i2: int, i3: int, i4: int, i5: int)
    requires 0 <= i1 < |s1| && 0 <= i2 < |s2| && 0 <= i3 < |s3| && 0 <= i4 < |cores| && 0 <= i5 < |wStamps|
    ensures 0 <= (((i1 * |s2| + i2) * |s3| + i3) * |cores| + i4) * |wStamps| + i5
              < |Combinations(s1, s2, s3, cores, wStamps)|
    ensures Combinations(s1, s2, s3, cores, wStamps)[(((i1 * |s2| + i2) * |s3| + i3) * |cores| + i4) * |wStamps| + i5]
            == Combo(s1[i1], s2[i2], s3[i3], cores[i4], wStamps[i5])
  {
    ProductOfFiveAt(s1, s2, s3, cores, wStamps, i1, i2, i3, i4, i5);
  }

  /** There are no combinations exactly when one of the five lists is empty. */
  lemma CombinationsEmpty(s1: seq<Item>, s2: seq<Item>, s3: seq<Item>, cores: seq<Item>, wStamps: seq<Item>)
    ensures Combinations(s1, s2, s3, cores, wStamps) == [] <==>
            (s1 == [] || s2 == [] || s3 == [] || cores == [] || wStamps == [])
  {
  }

  /** The damage evaluator with the character, weapon and team inputs fixed. */
  function Evaluator(charBase: real, weaponBase: real, team: TeamConfig): Combo -> ScenarioResult
  {
    (c: Combo) => Evaluate(charBase, weaponBase, [c.st1, c.st2, c.st3], c.core, c.wStamp, team)
  }

  /** The search's evaluator computes what the evaluator method returns for that build. */
  lemma EvaluatorIsEvaluate(charBase: real, weaponBase: real, team: TeamConfig, c: Combo)
    ensures Evaluator(charBase, weaponBase, team)(c) ==
            Evaluate(charBase, weaponBase, [c.st1, c.st2, c.st3], c.core, c.wStamp, team)
    ensures Evaluator(charBase, weaponBase, team)(c).finalCr <= 1.0
  {
  }

  function Report(c: Combo, r: ScenarioResult): BestBuild
  {
    BestBuild([c.st1.name, c.st2.name, c.st3.name], c.core.name, c.wStamp.name, r.finalAtk, r.finalCr, r.finalCd)
  }

  /** The damage of every combination, in enumeration order. */
  function Scores(combos: seq<Combo>, evaluate: Combo -> ScenarioResult): (r: seq<real>)
    ensures |r| == |combos|
    ensures forall k :: 0 <= k < |combos| ==> r[k] == evaluate(combos[k]).totalDps
  {
    seq(|combos|, k requires 0 <= k < |combos| => evaluate(combos[k]).totalDps)
  }

  /** Position k holds the greatest score, and every earlier score is strictly less. */
  predicate EarliestMax(scores: seq<real>, k: int)
  {
    && 0 <= k < |scores|
    && (forall j :: 0 <= j < |scores| ==> scores[j] <= scores[k])
    && (forall j :: 0 <= j < k ==> scores[j] < scores[k])
  }

  /** At most one position is the earliest maximum. */
  lemma EarliestMaxUnique(scores: seq<real>, k1: int, k2: int)
    requires EarliestMax(scores, k1) && EarliestMax(scores, k2)
    ensures k1 == k2
  {
    assert scores[k1] == scores[k2];
  }

  /** A non-empty score sequence has an earliest maximum. */
  lemma {:induction false} EarliestMaxExists(scores: seq<real>)
    requires |scores| > 0
    ensures exists k :: EarliestMax(scores, k)
    decreases |scores|
  {
    if |scores| == 1 {
      assert EarliestMax(scores, 0);
    } else {
      var init := scores[..|scores| - 1];
      EarliestMaxExists(init);
      var k :| EarliestMax(init, k);
      if scores[|scores| - 1] <= init[k] {
        assert EarliestMax(scores, k);
      } else {
        assert EarliestMax(scores, |scores| - 1);
      }
    }
  }

  /** The first-wins argmax over a list of combinations: no result exactly
      when no combination scores above 0; otherwise the earliest combination
      of greatest damage. */
  method BestOf(combinations: seq<Combo>, evaluate: Combo -> ScenarioResult)
    returns (bestDps: real, bestRes: Option<BestBuild>)
    ensures var scores := Scores(combinations, evaluate);
            && (bestRes.None? <==> forall k :: 0 <= k < |scores| ==> scores[k] <= 0.0)
            && (bestRes.None? ==> bestDps == 0.0)
            && (bestRes.Some? ==>
                  exists k :: EarliestMax(scores, k) && bestDps == scores[k]
                    && bestRes.value == Report(combinations[k], evaluate(combinations[k])))
  {
    ghost var scores := Scores(combinations, evaluate);
    bestDps := 0.0;
    bestRes := None;
    ghost var bestK := 0;

    for i := 0 to |combinations|
      invariant bestRes.None? <==> forall k :: 0 <= k < i ==> scores[k] <= 0.0
      invariant bestRes.None? ==> bestDps == 0.0
      invariant forall k :: 0 <= k < i ==> scores[k] <= bestDps
      invariant bestRes.Some? ==>
        && 0 <= bestK < i
        && 0.0 < bestDps == scores[bestK]
        && bestRes.value == Report(combinations[bestK], evaluate(combinations[bestK]))
        && forall k :: 0 <= k < bestK ==> scores[k] < bestDps
    {
      var c := combinations[i];
      var r := evaluate(c);
      var dps, atk, cr, cd := r.totalDps, r.finalAtk, r.finalCr, r.finalCd;
      if dps > bestDps {
        bestDps := dps;
        bestRes := Some(BestBuild([c.st1.name, c.st2.name, c.st3.name], c.core.name, c.wStamp.name, atk, cr, cd));
        bestK := i;
      }
    }
    if bestRes.Some? {
      assert EarliestMax(scores, bestK);
    }
  }

  /** The search: partition the stamps by slot, enumerate the product, keep
      the first best. */
  method Optimize(inv: Inventory, evaluate: Combo -> ScenarioResult)
    returns (bestDps: real, bestRes: Option<BestBuild>)
    ensures var combos := Combinations(StampsInSlot(inv.stamps, 1), StampsInSlot(inv.stamps, 2),
                                       StampsInSlot(inv.stamps, 3), inv.cores, inv.wStamps);
            var scores := Scores(combos, evaluate);
            && (bestRes.None? <==> forall k :: 0 <= k < |scores| ==> scores[k] <= 0.0)
            && (bestRes.None? ==> bestDps == 0.0)
            && (bestRes.Some? ==>
                  exists k :: EarliestMax(scores, k) && bestDps == scores[k]
                    && bestRes.value == Report(combos[k], evaluate(combos[k])))
    ensures (StampsInSlot(inv.stamps, 1) == [] || StampsInSlot(inv.stamps, 2) == [] ||
             StampsInSlot(inv.stamps, 3) == [] || inv.cores == [] || inv.wStamps == []) ==> bestRes.None?
  {
    var s1 := StampsInSlot(inv.stamps, 1);
    var s2 := StampsInSlot(inv.stamps, 2);
    var s3 := StampsInSlot(inv.stamps, 3);
    var combinations := Combinations(s1, s2, s3, inv.cores, inv.wStamps);
    bestDps, bestRes := BestOf(combinations, evaluate);
    CombinationsEmpty(s1, s2, s3, inv.cores, inv.wStamps);
  }

  /** The search as the optimizer runs it: every build is scored by the damage
      evaluator for the given character, weapon and team. No build scores
      above the reported damage, and the reported crit rate never exceeds 1. */
  method OptimizeBuild(inv: Inventory, charBase: real, weaponBase: real, team: TeamConfig)
    returns (bestDps: real, bestRes: Option<BestBuild>)
    ensures var combos := Combinations(StampsInSlot(inv.stamps, 1), StampsInSlot(inv.stamps, 2),
                                       StampsInSlot(inv.stamps, 3), inv.cores, inv.wStamps);
            var evaluate := Evaluator(charBase, weaponBase, team);
            var scores := Scores(combos, evaluate);
            && (forall k :: 0 <= k < |scores| ==> scores[k] <= bestDps)
            && (bestRes.None? ==> bestDps == 0.0)
            && (bestRes.Some? ==>
                  && 0.0 < bestDps
                  && bestRes.value.cr <= 1.0
                  && exists k :: EarliestMax(scores, k) && bestDps == scores[k]
                       && bestRes.value == Report(combos[k], evaluate(combos[k])))
  {
    var evaluate := Evaluator(charBase, weaponBase, team);
    bestDps, bestRes := Optimize(inv, evaluate);
    ghost var combos := Combinations(StampsInSlot(inv.stamps, 1), StampsInSlot(inv.stamps, 2),
                                     StampsInSlot(inv.stamps, 3), inv.cores, inv.wStamps);
    ghost var scores := Scores(combos, evaluate);
    if bestRes.Some? {
      ghost var m :| EarliestMax(scores, m) && bestDps == scores[m]
                     && bestRes.value == Report(combos[m], evaluate(combos[m]));
      EvaluatorIsEvaluate(charBase, weaponBase, team, combos[m]);
    }
  }
}
