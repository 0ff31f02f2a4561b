/** Effects and equippable items: plain values, never updated once built. */
module Items {
  import opened StatBlock

  datatype Option<+T> = None | Some(value: T)

  /** The trigger and kind names the evaluator recognises; effects carry free strings. */
  const OnSpecialCast: string := "on_special_cast"
  const Passive: string := "passive"
  const BuffMvPct: string := "buff_mv_pct"
  const ExtraHitMult: string := "extra_hit_mult"

  /** A triggered modifier, kept as data: `kind` is the effect's type name. */
  datatype Effect = Effect(trigger: string, kind: string, value: real)

  datatype Category = Stamp | Core | WeaponStamp

  /** An equippable item. Only stamps have a slot; a set name is optional. */
  datatype Item = Item(
    name: string,
    category: Category,
    slot: Option<int>,
    setName: Option<string>,
    stats: Stats,
    effects: seq<Effect>)

  /** Builds an item from a keyword stat mapping, as the item constructor does:
      stats not given are 0 and unknown keys are ignored. */
  function NewItem(name: string, category: Category, slot: Option<int>, setName: Option<string>,
                   stats: map<string, real>, effects: seq<Effect>): (r: Item)
    ensures r.name == name && r.category == category && r.slot == slot && r.setName == setName
    ensures r.effects == effects
    ensures forall f :: f in FieldNames ==> Field(r.stats, f) == Get(stats, f)
  {
    Item(name, category, slot, setName, FromFields(stats), effects)
  }
}
