/** The additive stat vector carried by every item and summed over a build. */
module StatBlock {

  /** Eight bonuses; every one of them is additive. */
  datatype Stats = Stats(
    atkFlat: real,
    atkPct: real,
    baseAtkMult: real,
    critRate: real,
    critDmg: real,
    slashDmg: real,
    allDmg: real,
    weaponStatBoost: real)

  /** The keyword names under which a stat mapping spells the fields. */
  const FieldNames: set<string> :=
    {"atk_flat", "atk_pct", "base_atk_mult", "crit_rate", "crit_dmg", "slash_dmg", "all_dmg", "weapon_stat_boost"}

  /** The record built with no keyword at all: every field is 0. */
  const Zero: Stats := Stats(0.0, 0.0, 0.0, 0.0, 0.0, 0.0, 0.0, 0.0)

  /** Reads a field by its keyword name; a name that is not a field reads as 0. */
  function Field(s: Stats, name: string): real
  {
    if name == "atk_flat" then s.atkFlat
    else if name == "atk_pct" then s.atkPct
    else if name == "base_atk_mult" then s.baseAtkMult
    else if name == "crit_rate" then s.critRate
    else if name == "crit_dmg" then s.critDmg
    else if name == "slash_dmg" then s.slashDmg
    else if name == "all_dmg" then s.allDmg
    else if name == "weapon_stat_boost" then s.weaponStatBoost
    else 0.0
  }

  function Get(kw: map<string, real>, name: string): real
  {
    if name in kw then kw[name] else 0.0
  }

  /** Construction from keyword arguments: each field takes the value given
      under its name, a field not given is 0, and any other key is ignored. */
  function FromFields(kw: map<string, real>): (r: Stats)
    ensures forall name :: name in FieldNames && name in kw ==> Field(r, name) == kw[name]
    ensures forall name :: name in FieldNames && name !in kw ==> Field(r, name) == 0.0
  {
    Stats(Get(kw, "atk_flat"), Get(kw, "atk_pct"), Get(kw, "base_atk_mult"), Get(kw, "crit_rate"),
          Get(kw, "crit_dmg"), Get(kw, "slash_dmg"), Get(kw, "all_dmg"), Get(kw, "weapon_stat_boost"))
  }

  /** The keyword mapping that spells out every field of a record. */
  function ToFields(s: Stats): map<string, real>
  {
    map name | name in FieldNames :: Field(s, name)
  }

  /** A record is rebuilt exactly from its own keyword mapping. */
  lemma FromFieldsRoundTrip(s: Stats)
    ensures FromFields(ToFields(s)) == s
  {
  }

  /** A key outside the field names never changes the record built. */
  lemma FromFieldsIgnoresUnknown(kw: map<string, real>, key: string, v: real)
    requires key !in FieldNames
    ensures FromFields(kw[key := v]) == FromFields(kw)
  {
  }

  /** The empty keyword mapping gives the all-zero record. */
  lemma FromFieldsEmpty()
    ensures FromFields(map[]) == Zero
  {
  }

  /** Combination: a fresh record (see AddPointwise). */
  function Add(a: Stats, b: Stats): Stats
  {
    Stats(a.atkFlat + b.atkFlat, a.atkPct + b.atkPct, a.baseAtkMult + b.baseAtkMult,
          a.critRate + b.critRate, a.critDmg + b.critDmg, a.slashDmg + b.slashDmg,
          a.allDmg + b.allDmg, a.weaponStatBoost + b.weaponStatBoost)
  }

  /** Every field of a combination is the sum of the two fields of that name. */
  lemma AddPointwise(a: Stats, b: Stats)
    ensures forall name :: name in FieldNames ==> Field(Add(a, b), name) == Field(a, name) + Field(b, name)
  {
  }

  /** The all-zero record is the identity of combination, on either side. */
  lemma AddZero(s: Stats)
    ensures Add(Zero, s) == s && Add(s, Zero) == s
  {
  }

  lemma AddCommutative(a: Stats, b: Stats)
    ensures Add(a, b) == Add(b, a)
  {
  }

  lemma AddAssociative(a: Stats, b: Stats, c: Stats)
    ensures Add(Add(a, b), c) == Add(a, Add(b, c))
  {
  }

  /** The last two of three summands may be exchanged. */
  lemma AddSwap(a: Stats, b: Stats, c: Stats)
    ensures Add(Add(a, b), c) == Add(Add(a, c), b)
  {
  }
}
