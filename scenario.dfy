/** The damage evaluator: five equipped items and the team buffs give the
    damage of one special-attack cast, with the final attack, crit rate and
    crit damage used for it. The functions here are its specification,
    stage by stage; CalculateDpsScenario is the evaluator as the program runs
    it, step by step, and is proved to compute Evaluate. */
module Scenario {
  import opened StatBlock
  import opened Items

  const RisingBlackMoon: string := "Rising Black Moon"
  const BeastTyrant: string := "Beast Tyrant"

  /** Fixed constants of the formula. */
  const Uptime: real := 0.66           // share of time the Beast Tyrant buffs are up
  const InnateCritRate: real := 0.05
  const InnateCritDmg: real := 0.50
  const BondCritDmg: real := 0.30
  const OverflowRatio: real := 1.75    // crit damage gained per point of crit rate above 1
  const MarkBonus: real := 0.25
  const BaseMv: real := 3.35           // motion value of one special attack
  const ResMult: real := 1.72          // enemy resistance multiplier

  /** The four team buffs the caller supplies. */
  datatype TeamConfig = TeamConfig(buffAtkPct: real, buffAtkFlat: real, buffCritDmg: real, buffDmgBonus: real)

  datatype ScenarioResult = ScenarioResult(totalDps: real, finalAtk: real, finalCr: real, finalCd: real)

  // ---------------------------------------------------------------------------
  // Aggregation of the equipped items
  // ---------------------------------------------------------------------------

  /** The stats of the items summed in order, starting from the all-zero record. */
  function SumStats(items: seq<Item>): Stats
  {
    if |items| == 0 then Zero else Add(SumStats(items[..|items| - 1]), items[|items| - 1].stats)
  }

  /** The items' effect lists, concatenated in order. */
  function AllEffects(items: seq<Item>): seq<Effect>
  {
    if |items| == 0 then [] else AllEffects(items[..|items| - 1]) + items[|items| - 1].effects
  }

  lemma {:induction false} SumStatsConcat(a: seq<Item>, b: seq<Item>)
    ensures SumStats(a + b) == Add(SumStats(a), SumStats(b))
    decreases |b|
  {
    if |b| == 0 {
      assert a + b == a;
    } else {
      var b' := b[..|b| - 1];
      assert (a + b)[..|a + b| - 1] == a + b';
      SumStatsConcat(a, b');
    }
  }

  lemma {:induction false} AllEffectsConcat(a: seq<Item>, b: seq<Item>)
    ensures AllEffects(a + b) == AllEffects(a) + AllEffects(b)
    decreases |b|
  {
    if |b| == 0 {
      assert a + b == a;
    } else {
      var b' := b[..|b| - 1];
      assert (a + b)[..|a + b| - 1] == a + b';
      AllEffectsConcat(a, b');
    }
  }

  /** The aggregated stats of five items are the combination of their stats, taken in order. */
  lemma SumStatsOfFive(a: Item, b: Item, c: Item, d: Item, e: Item)
    ensures SumStats([a, b, c, d, e]) == Add(Add(Add(Add(a.stats, b.stats), c.stats), d.stats), e.stats)
  {
    assert [a][..0] == [];
    assert SumStats([a]) == a.stats by {
      AddZero(a.stats);
    }
    assert [a, b][..1] == [a];
    assert SumStats([a, b]) == Add(a.stats, b.stats);
    assert [a, b, c][..2] == [a, b];
    assert SumStats([a, b, c]) == Add(Add(a.stats, b.stats), c.stats);
    assert [a, b, c, d][..3] == [a, b, c];
    assert SumStats([a, b, c, d]) == Add(Add(Add(a.stats, b.stats), c.stats), d.stats);
    assert [a, b, c, d, e][..4] == [a, b, c, d];
  }

  /** The value an effect adds to the sum for `kind`: only effects of that kind
      triggered on the special cast count. */
  function Contribution(e: Effect, kind: string): real
  {
    if e.kind == kind && e.trigger == OnSpecialCast then e.value else 0.0
  }

  function EffectSum(effects: seq<Effect>, kind: string): real
  {
    if |effects| == 0 then 0.0 else Contribution(effects[0], kind) + EffectSum(effects[1..], kind)
  }

  lemma {:induction false} EffectSumConcat(a: seq<Effect>, b: seq<Effect>, kind: string)
    ensures EffectSum(a + b, kind) == EffectSum(a, kind) + EffectSum(b, kind)
    decreases |a|
  {
    if |a| == 0 {
      assert a + b == b;
    } else {
      assert (a + b)[1..] == a[1..] + b;
      EffectSumConcat(a[1..], b, kind);
    }
  }

  /** An effect of another kind, or with a trigger other than the special
      cast (a passive one, say), adds nothing wherever it is inserted. */
  lemma EffectSumIgnoresNonMatching(a: seq<Effect>, e: Effect, b: seq<Effect>, kind: string)
    requires e.kind != kind || e.trigger != OnSpecialCast
    ensures EffectSum(a + [e] + b, kind) == EffectSum(a + b, kind)
  {
    EffectSumConcat(a + [e], b, kind);
    EffectSumConcat(a, [e], kind);
    EffectSumConcat(a, b, kind);
    assert EffectSum([e], kind) == 0.0 by {
      assert [e][1..] == [];
    }
  }

  /** Only effects triggered on special cast count: a passive effect never
      changes a motion-value or extra-hit total, whatever its kind. */
  lemma PassiveEffectIgnored(a: seq<Effect>, e: Effect, b: seq<Effect>, kind: string)
    requires e.trigger == Passive
    ensures EffectSum(a + [e] + b, kind) == EffectSum(a + b, kind)
  {
    assert Passive[0] != OnSpecialCast[0];
    EffectSumIgnoresNonMatching(a, e, b, kind);
  }

  lemma MultisetRemoveAt(t: seq<Item>, j: int)
    requires 0 <= j < |t|
    ensures multiset(t[..j] + t[j + 1..]) == multiset(t) - multiset{t[j]}
  {
    assert t == t[..j] + [t[j]] + t[j + 1..];
  }

  lemma SumStatsSnoc(p: seq<Item>, x: Item)
    ensures SumStats(p + [x]) == Add(SumStats(p), x.stats)
  {
  }

  lemma SumStatsRemoveAt(t: seq<Item>, j: int)
    requires 0 <= j < |t|
    ensures SumStats(t) == Add(SumStats(t[..j] + t[j + 1..]), t[j].stats)
  {
    var p, x, q := t[..j], t[j], t[j + 1..];
    assert t == (p + [x]) + q;
    SumStatsConcat(p + [x], q);
    SumStatsSnoc(p, x);
    AddSwap(SumStats(p), x.stats, SumStats(q));
    SumStatsConcat(p, q);
  }

  lemma EffectTotalRemoveAt(t: seq<Item>, j: int, kind: string)
    requires 0 <= j < |t|
    ensures EffectSum(AllEffects(t), kind) ==
            EffectSum(AllEffects(t[..j] + t[j + 1..]), kind) + EffectSum(t[j].effects, kind)
  {
    assert t == (t[..j] + [t[j]]) + t[j + 1..];
    assert (t[..j] + [t[j]])[..j] == t[..j];
    AllEffectsConcat(t[..j] + [t[j]], t[j + 1..]);
    AllEffectsConcat(t[..j], t[j + 1..]);
    EffectSumConcat(AllEffects(t[..j]) + t[j].effects, AllEffects(t[j + 1..]), kind);
    EffectSumConcat(AllEffects(t[..j]), t[j].effects, kind);
    EffectSumConcat(AllEffects(t[..j]), AllEffects(t[j + 1..]), kind);
  }

  /** The last item of a list occurs in any permutation of it, and removing
      it from both leaves permutations of each other. */
  lemma MatchLast(s: seq<Item>, t: seq<Item>) returns (j: int)
    requires |s| > 0 && multiset(s) == multiset(t)
    ensures 0 <= j < |t| && t[j] == s[|s| - 1]
    ensures multiset(s[..|s| - 1]) == multiset(t[..j] + t[j + 1..])
  {
    var x := s[|s| - 1];
    assert s == s[..|s| - 1] + [x];
    assert x in multiset(t);
    j :| 0 <= j < |t| && t[j] == x;
    MultisetRemoveAt(t, j);
  }

  /** Summing the stats does not depend on the order of the items. */
  lemma {:induction false} SumStatsPermutation(s: seq<Item>, t: seq<Item>)
    requires multiset(s) == multiset(t)
    ensures SumStats(s) == SumStats(t)
    decreases |s|
  {
    if |s| == 0 {
      assert |t| == |multiset(t)| == 0;
    } else {
      var j := MatchLast(s, t);
      SumStatsPermutation(s[..|s| - 1], t[..j] + t[j + 1..]);
      SumStatsRemoveAt(t, j);
    }
  }

  /** Nor does the sum of effect values of any kind. */
  lemma {:induction false} EffectTotalPermutation(s: seq<Item>, t: seq<Item>, kind: string)
    requires multiset(s) == multiset(t)
    ensures EffectSum(AllEffects(s), kind) == EffectSum(AllEffects(t), kind)
    decreases |s|
  {
    if |s| == 0 {
      assert |t| == |multiset(t)| == 0;
    } else {
      var j := MatchLast(s, t);
      var s' := s[..|s| - 1];
      EffectTotalPermutation(s', t[..j] + t[j + 1..], kind);
      EffectTotalRemoveAt(t, j, kind);
      EffectSumConcat(AllEffects(s'), s[|s| - 1].effects, kind);
    }
  }

  // ---------------------------------------------------------------------------
  // Set bonuses
  // ---------------------------------------------------------------------------

  /** The set names of the stamps, in order. */
  function SetNames(stamps: seq<Item>): (r: seq<Option<string>>)
    ensures |r| == |stamps| && forall i :: 0 <= i < |stamps| ==> r[i] == stamps[i].setName
  {
    seq(|stamps|, i requires 0 <= i < |stamps| => stamps[i].setName)
  }

  /** How many entries are the given set name. */
  function Count(sets: seq<Option<string>>, name: string): nat
  {
    if |sets| == 0 then 0 else (if sets[0] == Some(name) then 1 else 0) + Count(sets[1..], name)
  }

  /** A count never exceeds the length and reaches it exactly when every entry is the name. */
  lemma {:induction false} CountAll(sets: seq<Option<string>>, name: string)
    ensures Count(sets, name) <= |sets|
    ensures Count(sets, name) == |sets| <==> forall i :: 0 <= i < |sets| ==> sets[i] == Some(name)
  {
    if |sets| > 0 {
      CountAll(sets[1..], name);
      if forall i :: 0 <= i < |sets| ==> sets[i] == Some(name) {
        assert forall i :: 0 <= i < |sets[1..]| ==> sets[1..][i] == sets[i + 1];
      } else if sets[0] == Some(name) {
        var i :| 0 <= i < |sets| && sets[i] != Some(name);
        assert sets[1..][i - 1] == sets[i];
      }
    }
  }

  /** Two different names never occupy more entries together than there are. */
  lemma {:induction false} CountDisjoint(sets: seq<Option<string>>, a: string, b: string)
    requires a != b
    ensures Count(sets, a) + Count(sets, b) <= |sets|
  {
    if |sets| > 0 {
      CountDisjoint(sets[1..], a, b);
    }
  }

  /** With three stamps a set bonus fires exactly when all three carry the set
      name: two matching stamps never trigger it. */
  lemma SetThreshold(stamps: seq<Item>, name: string)
    requires |stamps| == 3
    ensures Count(SetNames(stamps), name) >= 3 <==>
            (stamps[0].setName == Some(name) && stamps[1].setName == Some(name) && stamps[2].setName == Some(name))
  {
    CountAll(SetNames(stamps), name);
  }

  /** With fewer than six stamps (a build has three), the two set bonuses never fire together. */
  lemma SetBonusesExclusive(stamps: seq<Item>)
    requires |stamps| < 6
    ensures !(Count(SetNames(stamps), RisingBlackMoon) >= 3 && Count(SetNames(stamps), BeastTyrant) >= 3)
  {
    CountDisjoint(SetNames(stamps), RisingBlackMoon, BeastTyrant);
  }

  /** What the Rising Black Moon three-piece bonus adds. */
  const RbmBonus: Stats := Zero.(slashDmg := 0.11, baseAtkMult := 0.18)
  const RbmEffect: Effect := Effect(OnSpecialCast, BuffMvPct, 0.28)
  /** What the Beast Tyrant three-piece bonus adds, its buffs weighted by uptime. */
  const BtBonus: Stats :=
    Zero.(baseAtkMult := 0.16, atkPct := (0.34 / 3.0) * Uptime, critRate := (0.36 / 3.0) * Uptime,
          allDmg := (0.23 / 3.0) * Uptime)

  /** Summed stats with the effects that go with them. */
  datatype Totals = Totals(stats: Stats, effects: seq<Effect>)

  /** Applies the three-piece bonuses, in order: each adds exactly its bonus
      when at least three entries carry its name, and only Rising Black Moon
      appends an effect. */
  function SetBonuses(sets: seq<Option<string>>, t: Totals): (r: Totals)
    ensures r.stats == Add(Add(t.stats, if Count(sets, RisingBlackMoon) >= 3 then RbmBonus else Zero),
                           if Count(sets, BeastTyrant) >= 3 then BtBonus else Zero)
    ensures r.effects == t.effects + (if Count(sets, RisingBlackMoon) >= 3 then [RbmEffect] else [])
  {
    var afterRbm :=
      if Count(sets, RisingBlackMoon) >= 3 then
        Totals(t.stats.(slashDmg := t.stats.slashDmg + 0.11, baseAtkMult := t.stats.baseAtkMult + 0.18),
               t.effects + [Effect(OnSpecialCast, BuffMvPct, 0.28)])
      else t;
    var s := afterRbm.stats;
    if Count(sets, BeastTyrant) >= 3 then
      Totals(s.(baseAtkMult := s.baseAtkMult + 0.16,
                atkPct := s.atkPct + (0.34 / 3.0) * Uptime,
                critRate := s.critRate + (0.36 / 3.0) * Uptime,
                allDmg := s.allDmg + (0.23 / 3.0) * Uptime),
             afterRbm.effects)
    else afterRbm
  }

  /** The stats and effects of a build after aggregation and set bonuses. */
  function Bonused(stamps: seq<Item>, core: Item, wStamp: Item): Totals
  {
    var items := stamps + [core, wStamp];
    SetBonuses(SetNames(stamps), Totals(SumStats(items), AllEffects(items)))
  }

  // ---------------------------------------------------------------------------
  // The damage formula
  // ---------------------------------------------------------------------------

  function FinalAttack(charBase: real, weaponBase: real, s: Stats, team: TeamConfig): real
  {
    var weaponAtk := weaponBase * (1.0 + s.weaponStatBoost);
    var baseAtk := (charBase + weaponAtk) * (1.0 + s.baseAtkMult);
    baseAtk * (1.0 + s.atkPct + team.buffAtkPct) + s.atkFlat + team.buffAtkFlat
  }

  /** The bond damage bonus: a tier chosen by crit rate plus a flat 0.15. */
  function BondDmg(critRate: real): (r: real)
    ensures critRate < 0.20 ==> r == 0.23
    ensures 0.20 <= critRate < 0.40 ==> r == 0.27
    ensures 0.40 <= critRate ==> r == 0.31
  {
    var tier := if critRate >= 0.40 then 0.16 else if critRate >= 0.20 then 0.12 else 0.08;
    tier + 0.15
  }

  /** A higher crit rate never lowers the bond bonus. */
  lemma BondDmgMonotone(cr1: real, cr2: real)
    requires cr1 <= cr2
    ensures BondDmg(cr1) <= BondDmg(cr2)
  {
  }

  datatype Crit = Crit(rate: real, dmg: real)

  /** The crit cap: the rate is kept at most 1, and every point of rate cut
      off is paid back as 1.75 points of crit damage. */
  function CritCap(critRate: real, critDmg: real): (c: Crit)
    ensures c.rate <= 1.0 && c.rate <= critRate
    ensures c.rate == critRate || c.rate == 1.0
    ensures c.dmg == critDmg + OverflowRatio * (critRate - c.rate)
  {
    if critRate > 1.0 then Crit(1.0, critDmg + (critRate - 1.0) * OverflowRatio) else Crit(critRate, critDmg)
  }

  /** Crit rate before the cap. */
  function RawCritRate(s: Stats): real
  {
    InnateCritRate + s.critRate
  }

  /** Crit damage before the cap. */
  function RawCritDmg(s: Stats, team: TeamConfig): real
  {
    InnateCritDmg + s.critDmg + BondCritDmg + team.buffCritDmg
  }

  /** The additive damage bucket; the bond bonus is read from the crit rate before the cap. */
  function DmgMult(s: Stats, team: TeamConfig): real
  {
    1.0 + s.slashDmg + s.allDmg + BondDmg(RawCritRate(s)) + team.buffDmgBonus + MarkBonus
  }

  function CurrentMv(effects: seq<Effect>): real
  {
    BaseMv + EffectSum(effects, BuffMvPct)
  }

  function ExtraHitRatio(effects: seq<Effect>): real
  {
    EffectSum(effects, ExtraHitMult)
  }

  /** Steps 3 to 7 of the evaluator: the formula applied to the summed and
      bonused stats and effects. */
  function Formula(charBase: real, weaponBase: real, t: Totals, team: TeamConfig): (r: ScenarioResult)
    ensures r.finalCr <= 1.0
  {
    var s := t.stats;
    var atk := FinalAttack(charBase, weaponBase, s, team);
    var crit := CritCap(RawCritRate(s), RawCritDmg(s, team));
    var mainHit := atk * (1.0 + crit.rate * crit.dmg) * DmgMult(s, team) * ResMult * CurrentMv(t.effects);
    ScenarioResult(mainHit + mainHit * ExtraHitRatio(t.effects), atk, crit.rate, crit.dmg)
  }

  /** The evaluator's result for one build. */
  function Evaluate(charBase: real, weaponBase: real, stamps: seq<Item>, core: Item, wStamp: Item,
                    team: TeamConfig): (r: ScenarioResult)
    ensures r.finalCr <= 1.0
  {
    Formula(charBase, weaponBase, Bonused(stamps, core, wStamp), team)
  }

  /** The evaluator as the program runs it: sum the items in a loop, add the
      set bonuses in place, then apply the formula step by step. */
  method CalculateDpsScenario(charBase: real, weaponBase: real, stamps: seq<Item>, core: Item, wStamp: Item,
                              team: TeamConfig)
    returns (totalDps: real, finalAtk: real, finalCr: real, finalCd: real)
    ensures ScenarioResult(totalDps, finalAtk, finalCr, finalCd) ==
            Evaluate(charBase, weaponBase, stamps, core, wStamp, team)
    ensures finalCr <= 1.0
  {
    // 1. Aggregation
    var totalStats := Zero;
    var allItems := stamps + [core, wStamp];
    var extraEffects: seq<Effect> := [];
    for i := 0 to |allItems|
      invariant totalStats == SumStats(allItems[..i])
      invariant extraEffects == AllEffects(allItems[..i])
    {
      assert allItems[..i + 1][..i] == allItems[..i];
      totalStats := Add(totalStats, allItems[i].stats);
      extraEffects := extraEffects + allItems[i].effects;
    }
    assert allItems[..|allItems|] == allItems;
    ghost var aggregated := Totals(totalStats, extraEffects);

    // 2. Set bonuses
    var sets := SetNames(stamps);
    if Count(sets, RisingBlackMoon) >= 3 {
      totalStats := totalStats.(slashDmg := totalStats.slashDmg + 0.11);
      totalStats := totalStats.(baseAtkMult := totalStats.baseAtkMult + 0.18);
      extraEffects := extraEffects + [Effect(OnSpecialCast, BuffMvPct, 0.28)];
    }
    if Count(sets, BeastTyrant) >= 3 {
      totalStats := totalStats.(baseAtkMult := totalStats.baseAtkMult + 0.16);
      var uptime := 0.66;
      totalStats := totalStats.(atkPct := totalStats.atkPct + (0.34 / 3.0) * uptime);
      totalStats := totalStats.(critRate := totalStats.critRate + (0.36 / 3.0) * uptime);
      totalStats := totalStats.(allDmg := totalStats.allDmg + (0.23 / 3.0) * uptime);
    }
    assert Totals(totalStats, extraEffects) == SetBonuses(sets, aggregated) == Bonused(stamps, core, wStamp);

    // 3 to 7. The formula
    totalDps, finalAtk, finalCr, finalCd := ComputeDamage(charBase, weaponBase, totalStats, extraEffects, team);
  }

  /** Steps 3 to 7 as the program runs them, on the summed and bonused stats
      and effects: attack, bond tier, crit cap, damage bucket, motion value,
      extra hits. */
  method ComputeDamage(charBase: real, weaponBase: real, totalStats: Stats, extraEffects: seq<Effect>,
                       team: TeamConfig)
    returns (totalDps: real, finalAtk: real, finalCr: real, finalCd: real)
    ensures ScenarioResult(totalDps, finalAtk, finalCr, finalCd) ==
            Formula(charBase, weaponBase, Totals(totalStats, extraEffects), team)
    ensures finalCr <= 1.0
  {
    // 3. Attack
    var realWeaponAtk := weaponBase * (1.0 + totalStats.weaponStatBoost);
    var realBaseAtk := (charBase + realWeaponAtk) * (1.0 + totalStats.baseAtkMult);
    finalAtk := realBaseAtk * (1.0 + totalStats.atkPct + team.buffAtkPct) + totalStats.atkFlat + team.buffAtkFlat;

    // 4. Crit, with the bond bonus read before the cap
    finalCr := 0.05 + totalStats.critRate;
    var bondDmg := 0.08;
    if finalCr >= 0.40 {
      bondDmg := 0.16;
    } else if finalCr >= 0.20 {
      bondDmg := 0.12;
    }
    bondDmg := bondDmg + 0.15;
    assert bondDmg == BondDmg(RawCritRate(totalStats));
    var bondCd := 0.30;
    finalCd := 0.50 + totalStats.critDmg + bondCd + team.buffCritDmg;
    if finalCr > 1.0 {
      var surplus := finalCr - 1.0;
      finalCd := finalCd + surplus * 1.75;
      finalCr := 1.0;
    }
    assert Crit(finalCr, finalCd) == CritCap(RawCritRate(totalStats), RawCritDmg(totalStats, team));
    var critFactor := 1.0 + finalCr * finalCd;

    // 5. Damage bucket
    var dmgMult := 1.0 + totalStats.slashDmg + totalStats.allDmg + bondDmg + team.buffDmgBonus + 0.25;
    assert dmgMult == DmgMult(totalStats, team);

    // 6. Motion value and extra hits
    var baseMv := 3.35;
    var mvBoost := EffectSum(extraEffects, BuffMvPct);
    var currentMv := baseMv + mvBoost;
    var extraHitRatio := EffectSum(extraEffects, ExtraHitMult);

    // 7. Resistance and final damage
    var resMult := 1.72;
    var mainHit := finalAtk * critFactor * dmgMult * resMult * currentMv;
    var extraHits := mainHit * extraHitRatio;
    totalDps := mainHit + extraHits;
    ghost var r := Formula(charBase, weaponBase, Totals(totalStats, extraEffects), team);
    assert r.finalAtk == finalAtk;
    assert r.finalCr == finalCr;
    assert r.finalCd == finalCd;
    assert r.totalDps == totalDps;
  }

  // ---------------------------------------------------------------------------
  // Properties of the evaluator
  // ---------------------------------------------------------------------------

  /** Reordering the equipped items changes neither the summed stats nor the
      motion-value boost nor the extra-hit ratio. */
  lemma AggregationOrderIndependent(s: seq<Item>, t: seq<Item>)
    requires multiset(s) == multiset(t)
    ensures SumStats(s) == SumStats(t)
    ensures CurrentMv(AllEffects(s)) == CurrentMv(AllEffects(t))
    ensures ExtraHitRatio(AllEffects(s)) == ExtraHitRatio(AllEffects(t))
  {
    SumStatsPermutation(s, t);
    EffectTotalPermutation(s, t, BuffMvPct);
    EffectTotalPermutation(s, t, ExtraHitMult);
  }

  /** The crit results: the cap is final, and surplus rate above 1 becomes
      1.75 times as much crit damage; below the cap both pass unchanged. */
  lemma EvaluateCrit(charBase: real, weaponBase: real, stamps: seq<Item>, core: Item, wStamp: Item,
                     team: TeamConfig)
    ensures var r := Evaluate(charBase, weaponBase, stamps, core, wStamp, team);
            var s := Bonused(stamps, core, wStamp).stats;
            var cr := 0.05 + s.critRate;
            var cd := 0.50 + s.critDmg + 0.30 + team.buffCritDmg;
            r.finalCr <= 1.0 &&
            (cr > 1.0 ==> r.finalCr == 1.0 && r.finalCd == cd + 1.75 * (cr - 1.0)) &&
            (cr <= 1.0 ==> r.finalCr == cr && r.finalCd == cd)
  {
  }

  /** The returned attack and damage in closed form, stage by stage. */
  lemma EvaluateDamageFormula(charBase: real, weaponBase: real, stamps: seq<Item>, core: Item, wStamp: Item,
                              team: TeamConfig)
    ensures var r := Evaluate(charBase, weaponBase, stamps, core, wStamp, team);
            var t := Bonused(stamps, core, wStamp);
            var s := t.stats;
            && r.finalAtk == (charBase + weaponBase * (1.0 + s.weaponStatBoost)) * (1.0 + s.baseAtkMult)
                             * (1.0 + s.atkPct + team.buffAtkPct) + s.atkFlat + team.buffAtkFlat
            && r.totalDps == r.finalAtk * (1.0 + r.finalCr * r.finalCd) * DmgMult(s, team) * 1.72
                             * CurrentMv(t.effects) * (1.0 + ExtraHitRatio(t.effects))
  {
    var r := Evaluate(charBase, weaponBase, stamps, core, wStamp, team);
    var t := Bonused(stamps, core, wStamp);
    DamageProduct(r.finalAtk, 1.0 + r.finalCr * r.finalCd, DmgMult(t.stats, team), CurrentMv(t.effects),
                  ExtraHitRatio(t.effects));
  }

  /** The main hit plus its extra hits is the main hit scaled by one plus the ratio. */
  lemma DamageProduct(atk: real, critFactor: real, dmgMult: real, mv: real, ratio: real)
    ensures var mainHit := atk * critFactor * dmgMult * ResMult * mv;
            mainHit + mainHit * ratio == atk * critFactor * dmgMult * 1.72 * mv * (1.0 + ratio)
  {
  }

  lemma {:induction false} AllEffectsNone(items: seq<Item>)
    requires forall i :: 0 <= i < |items| ==> items[i].effects == []
    ensures AllEffects(items) == []
    decreases |items|
  {
    if |items| > 0 {
      AllEffectsNone(items[..|items| - 1]);
    }
  }

  /** Items without effects, and no Rising Black Moon set, leave the motion
      value at its base and add no extra hit. */
  lemma ZeroEffectBaseline(stamps: seq<Item>, core: Item, wStamp: Item)
    requires forall i :: 0 <= i < |stamps| ==> stamps[i].effects == []
    requires core.effects == [] && wStamp.effects == []
    requires Count(SetNames(stamps), RisingBlackMoon) < 3
    ensures CurrentMv(Bonused(stamps, core, wStamp).effects) == 3.35
    ensures ExtraHitRatio(Bonused(stamps, core, wStamp).effects) == 0.0
  {
    var items := stamps + [core, wStamp];
    AllEffectsNone(items);
  }

  /** Three Rising Black Moon stamps, on items without effects, raise the
      motion value by exactly the set's 0.28 and add no extra hit. */
  lemma RbmMotionValue(stamps: seq<Item>, core: Item, wStamp: Item)
    requires |stamps| == 3
    requires forall i :: 0 <= i < 3 ==> stamps[i].setName == Some(RisingBlackMoon) && stamps[i].effects == []
    requires core.effects == [] && wStamp.effects == []
    ensures CurrentMv(Bonused(stamps, core, wStamp).effects) == 3.35 + 0.28
    ensures ExtraHitRatio(Bonused(stamps, core, wStamp).effects) == 0.0
  {
    var items := stamps + [core, wStamp];
    AllEffectsNone(items);
    SetThreshold(stamps, RisingBlackMoon);
    assert Bonused(stamps, core, wStamp).effects == [RbmEffect];
    assert [RbmEffect][1..] == [];
    assert EffectSum([RbmEffect], BuffMvPct) == 0.28 + EffectSum([], BuffMvPct);
    assert EffectSum([RbmEffect], ExtraHitMult) == 0.0 + EffectSum([], ExtraHitMult);
  }

  /** A stamp with no stats, no set and no effects. */
  const Filler: Item := Item("filler", Stamp, None, None, Zero, [])

  /** Regression value: a bare character with empty items and no team buffs. */
  lemma BaselineScenario()
    ensures Evaluate(605.0, 908.0, [Filler, Filler, Filler], Filler, Filler, TeamConfig(0.0, 0.0, 0.0, 0.0))
            == ScenarioResult(1513.0 * 1.04 * 1.48 * 1.72 * 3.35, 1513.0, 0.05, 0.80)
  {
    var stamps := [Filler, Filler, Filler];
    var items := stamps + [Filler, Filler];
    AllEffectsNone(items);
    CountAll(SetNames(stamps), RisingBlackMoon);
    CountAll(SetNames(stamps), BeastTyrant);
    assert SumStats(items) == Zero by {
      assert items == [Filler, Filler, Filler, Filler, Filler];
      SumStatsOfFive(Filler, Filler, Filler, Filler, Filler);
    }
  }
}
