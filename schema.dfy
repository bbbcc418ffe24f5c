/**
 * The data the Eryndor game system keeps on its documents, as plain values.
 *
 * The host owns the actual documents; this module describes the parts of
 * `actor.system` and `item.system` that the system's own code reads and
 * writes, and the few JavaScript value kinds whose truthiness matters.
 */
module Schema {

  datatype Option<+T> = None | Some(value: T)

  /** The result of JavaScript's `Number(x)` restricted to integers: a number or NaN. */
  datatype Numeric = NaN | Int(value: int)

  /** A JavaScript value as far as the system distinguishes them. */
  datatype JsValue =
    | Undefined
    | Null
    | Bool(b: bool)
    | Num(n: int)
    | NotANumber
    | Str(s: string)
    | Object(id: nat)

  /** JavaScript truthiness: `false`, `0`, `NaN`, `""`, `null` and `undefined` are falsy. */
  predicate Truthy(v: JsValue) {
    match v
    case Undefined => false
    case Null => false
    case Bool(b) => b
    case Num(n) => n != 0
    case NotANumber => false
    case Str(s) => s != ""
    case Object(_) => true
  }

  /** One ability score: `mod` is absent until derived data has been prepared. */
  datatype Ability = Ability(value: int, mod: Option<int>, labelText: string)

  /** A resource pool such as health or vigor. */
  datatype Pool = Pool(value: int, max: int)

  /**
   * The part of `actor.system` the system reads and writes. `level` and
   * `proficiency` are `attributes.level.value` and
   * `attributes.proficiency.value`, None when the attribute is absent;
   * `ac` is `attributes.ca.value`; `weaponAttribute` is
   * `chronosilverWeapon.attribute`.
   */
  datatype ActorSystem = ActorSystem(
    abilities: map<string, Ability>,
    level: Option<int>,
    proficiency: Option<int>,
    ac: int,
    health: Pool,
    vigor: Pool,
    masteries: map<string, int>,
    weaponAttribute: Option<string>)

  /**
   * The part of `item.system` the system reads and writes. A string field
   * that is missing is the empty string; a numeric field that is missing
   * is None. `armorType` is the armor's own `system.type` code.
   */
  datatype ItemSystem = ItemSystem(
    damage: string,
    damageType: string,
    range: string,
    armorType: string,
    armorValue: Option<int>,
    spellLevel: Option<int>,
    school: string,
    manaCost: Option<int>,
    quantity: Option<int>,
    weight: Option<int>,
    equipped: Option<bool>,
    formula: string)

  /** An owned item as the actor's item collection presents it. */
  datatype ItemData = ItemData(kind: string, system: ItemSystem)

  /**
   * The data handed to the dice engine: a copy of the actor's system data,
   * the ability shortcuts (`@str.mod`), `lvl`, `prof` and, for an item
   * roll, a copy of the item's system data.
   */
  datatype RollData = RollData(
    system: ActorSystem,
    shortcuts: map<string, Ability>,
    lvl: Option<int>,
    prof: Option<int>,
    item: Option<ItemSystem>)

  /**
   * `abilities?.[key]?.mod || 0`: the prepared modifier of an ability, or 0
   * when the ability or its modifier is missing.
   */
  function AbilityModOr0(abilities: map<string, Ability>, key: string): int
  {
    if key in abilities && abilities[key].mod.Some? then abilities[key].mod.value else 0
  }
}
