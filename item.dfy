/**
 * The item document of the Eryndor game system
 * (module/documents/item.mjs): the type-driven labels, the roll guards and
 * default formulas, casting a spell against the owner's vigor, and the
 * equip toggle.
 *
 * The item label tables of `CONFIG.ERYNDOR` (damage types, weapon ranges,
 * armor types, spell schools) are a parameter; a table the configuration
 * does not define is modelled as absent, and reading it throws.
 */
module ItemDocument {
  import opened Schema
  import Utils
  import ActorDocument

  /**
   * The item label tables of `CONFIG.ERYNDOR`, code to label. None stands
   * for a table the configuration leaves undefined: indexing it throws a
   * TypeError.
   */
  datatype Config = Config(
    damageTypes: Option<map<string, string>>,
    weaponRanges: Option<map<string, string>>,
    armorTypes: Option<map<string, string>>,
    spellSchools: Option<map<string, string>>)

  /**
   * `CONFIG.ERYNDOR` as module/helpers/config.mjs builds it (installed at
   * module/eryndor.mjs:29): abilities, domains, forms and weapons, but none
   * of the four item label tables.
   */
  const ShippedConfig: Config := Config(None, None, None, None)

  /** A configuration that defines all four item label tables. */
  predicate HasItemTables(config: Config) {
    config.damageTypes.Some? && config.weaponRanges.Some? && config.armorTypes.Some? && config.spellSchools.Some?
  }

  /** The derived `labels` object, by item type. */
  datatype Labels =
    | NoLabels
    | WeaponLabels(damage: string, damageType: string, range: string)
    | ArmorLabels(armorType: string, armorValue: int)
    | SpellLabels(spellLevel: string, school: string, manaCost: string)
    | EquipmentLabels(quantity: int, weight: string)

  /**
   * The fallback damage label, exactly as the source spells it: the three
   * characters U+00E2 U+20AC U+201D (an em dash that was mis-encoded).
   */
  const DamagePlaceholder: string := ['\U{00E2}', '\U{20AC}', '\U{201D}']

  /** `table[code] || code`: the configured label, or the raw code when it has none. */
  function ConfigLabel(table: map<string, string>, code: string): (text: string)
    ensures code in table && table[code] != "" ==> text == table[code]
    ensures code !in table || table[code] == "" ==> text == code
  {
    if code in table && table[code] != "" then table[code] else code
  }

  /** `CONFIG.ERYNDOR.<table>[code] || code`; None where the table is undefined and the read throws. */
  function TableLabel(table: Option<map<string, string>>, code: string): (text: Option<string>)
    ensures text.None? <==> table.None?
    ensures table.Some? ==> text.value == ConfigLabel(table.value, code)
  {
    match table
    case Some(t) => Some(ConfigLabel(t, code))
    case None => None
  }

  /** JavaScript's `${v}` for a numeric field that may be missing. */
  function Show(v: Option<int>): string {
    match v
    case Some(n) => Utils.IntToString(n)
    case None => "undefined"
  }

  /** `v || d` for a numeric field: a missing or zero value gives the default. */
  function OrDefault(v: Option<int>, d: int): (r: int)
    ensures v.Some? && v.value != 0 ==> r == v.value
    ensures v.None? || v.value == 0 ==> r == d
  {
    if v.Some? && v.value != 0 then v.value else d
  }

  /**
   * The labels `prepareDerivedData` computes for an item of type `kind`, or
   * None where it throws because a label table it reads is undefined.
   */
  function ItemLabels(kind: string, system: ItemSystem, config: Config): (labels: Option<Labels>)
    ensures labels.None? <==>
              || (kind == "weapon" && (config.damageTypes.None? || config.weaponRanges.None?))
              || (kind == "armor" && config.armorTypes.None?)
              || (kind == "spell" && config.spellSchools.None?)
    ensures labels.Some? ==>
              && (labels.value.WeaponLabels? <==> kind == "weapon")
              && (labels.value.ArmorLabels? <==> kind == "armor")
              && (labels.value.SpellLabels? <==> kind == "spell")
              && (labels.value.EquipmentLabels? <==> kind == "equipment")
    ensures labels.Some? && labels.value.WeaponLabels? ==>
              && labels.value.damage == (if system.damage != "" then system.damage else DamagePlaceholder)
              && labels.value.damageType == ConfigLabel(config.damageTypes.value, system.damageType)
              && labels.value.range == ConfigLabel(config.weaponRanges.value, system.range)
    ensures labels.Some? && labels.value.ArmorLabels? ==>
              && labels.value.armorType == ConfigLabel(config.armorTypes.value, system.armorType)
              && labels.value.armorValue == OrDefault(system.armorValue, 0)
    ensures labels.Some? && labels.value.SpellLabels? ==>
              && labels.value.spellLevel == "Circle " + Show(system.spellLevel)
              && labels.value.school == ConfigLabel(config.spellSchools.value, system.school)
              && labels.value.manaCost == Show(system.manaCost) + " Vigor"
    ensures labels.Some? && labels.value.EquipmentLabels? ==>
              labels.value.quantity == OrDefault(system.quantity, 1) && labels.value.weight == Show(system.weight) + " lbs"
  {
    if kind == "weapon" then
      var damageType := TableLabel(config.damageTypes, system.damageType);
      var range := TableLabel(config.weaponRanges, system.range);
      if damageType.None? || range.None? then None
      else Some(WeaponLabels(if system.damage != "" then system.damage else DamagePlaceholder, damageType.value, range.value))
    else if kind == "armor" then
      var armorType := TableLabel(config.armorTypes, system.armorType);
      if armorType.None? then None
      else Some(ArmorLabels(armorType.value, OrDefault(system.armorValue, 0)))
    else if kind == "spell" then
      var school := TableLabel(config.spellSchools, system.school);
      if school.None? then None
      else Some(SpellLabels("Circle " + Show(system.spellLevel), school.value, Show(system.manaCost) + " Vigor"))
    else if kind == "equipment" then
      Some(EquipmentLabels(OrDefault(system.quantity, 1), Show(system.weight) + " lbs"))
    else
      Some(NoLabels)
  }

  /** Skills, talents and every other type get an empty label set, whatever the configuration. */
  lemma OtherTypesHaveNoLabels(kind: string, system: ItemSystem, config: Config)
    requires kind !in {"weapon", "armor", "spell", "equipment"}
    ensures ItemLabels(kind, system, config) == Some(NoLabels)
  {
  }

  /**
   * With the configuration as shipped, label preparation throws for exactly
   * the weapons, armor and spells.
   */
  lemma ShippedConfigThrows(kind: string, system: ItemSystem)
    ensures ItemLabels(kind, system, ShippedConfig).None? <==> kind == "weapon" || kind == "armor" || kind == "spell"
  {
  }

  /** With the configuration as shipped, every weapon damage roll that gets rolled fails before its message. */
  lemma ShippedConfigDamageRollThrows(item: EryndorItem)
    ensures item.RollDamage(ShippedConfig).Some? ==> item.RollDamage(ShippedConfig).value.damageTypeLabel.None?
  {
  }

  /**
   * With all four item label tables defined, every item type gets its
   * labels: preparation never throws.
   */
  lemma LabelsWithItemTables(kind: string, system: ItemSystem, config: Config)
    requires HasItemTables(config)
    ensures ItemLabels(kind, system, config).Some?
    ensures kind == "weapon" ==> ItemLabels(kind, system, config).value.WeaponLabels?
    ensures kind == "armor" ==> ItemLabels(kind, system, config).value.ArmorLabels?
    ensures kind == "spell" ==> ItemLabels(kind, system, config).value.SpellLabels?
  {
  }

  /**
   * How far `rollDamage` gets: the formula it rolls, and the damage-type
   * label of its chat flavor, None where reading that label throws.
   */
  datatype DamageRoll = DamageRoll(formula: string, damageTypeLabel: Option<string>)

  /** The vigor a spell costs: `manaCost || 1`. */
  function SpellCost(system: ItemSystem): (cost: int)
    ensures cost != 0
    ensures cost == OrDefault(system.manaCost, 1)
  {
    OrDefault(system.manaCost, 1)
  }

  /** The equipped flag as the toggle reads it: `equipped ?? false`. */
  function EquippedFlag(system: ItemSystem): bool {
    system.equipped == Some(true)
  }

  /** The system data after `toggleEquipped`: weapons and armor flip their flag, other items keep theirs. */
  function Toggled(kind: string, system: ItemSystem): ItemSystem {
    if kind == "weapon" || kind == "armor" then system.(equipped := Some(!EquippedFlag(system))) else system
  }

  /**
   * Toggling flips the flag of a weapon or armor and touches nothing else;
   * toggling twice restores the flag (a missing flag comes back as false).
   */
  lemma ToggleFlipsAndRestores(kind: string, system: ItemSystem)
    ensures Toggled(kind, system).(equipped := system.equipped) == system
    ensures kind == "weapon" || kind == "armor" ==> EquippedFlag(Toggled(kind, system)) == !EquippedFlag(system)
    ensures kind != "weapon" && kind != "armor" ==> Toggled(kind, system) == system
    ensures EquippedFlag(Toggled(kind, Toggled(kind, system))) == EquippedFlag(system)
    ensures system.equipped.Some? ==> Toggled(kind, Toggled(kind, system)) == system
  {
    if system.equipped.Some? {
      if system.equipped.value {
        assert EquippedFlag(system);
      } else {
        assert !EquippedFlag(system);
      }
    }
  }

  class EryndorItem {
    /** The item's type: "weapon", "armor", "spell", "equipment", "skill", "talent", ... */
    var kind: string
    var system: ItemSystem
    var labels: Labels
    /** The owning actor, if any. */
    var actor: ActorDocument.EryndorActor?

    constructor(kind: string, system: ItemSystem, actor: ActorDocument.EryndorActor?)
      ensures this.kind == kind && this.system == system && this.actor == actor && labels == NoLabels
    {
      this.kind := kind;
      this.system := system;
      this.actor := actor;
      labels := NoLabels;
    }

    /**
     * `prepareDerivedData`: replaces the labels with those of the item's
     * type; where a label table it reads is undefined it throws before the
     * assignment, so the old labels stay and `prepared` is false.
     */
    method PrepareDerivedData(config: Config) returns (prepared: bool)
      modifies this`labels
      ensures prepared <==> ItemLabels(kind, system, config).Some?
      ensures prepared ==> labels == ItemLabels(kind, system, config).value
      ensures !prepared ==> labels == old(labels)
    {
      var l: Labels;
      match kind {
      case "weapon" =>
        var damageType := TableLabel(config.damageTypes, system.damageType);
        if damageType.None? {
          return false;
        }
        var range := TableLabel(config.weaponRanges, system.range);
        if range.None? {
          return false;
        }
        l := WeaponLabels(if system.damage != "" then system.damage else DamagePlaceholder, damageType.value, range.value);
      case "armor" =>
        var armorType := TableLabel(config.armorTypes, system.armorType);
        if armorType.None? {
          return false;
        }
        l := ArmorLabels(armorType.value, OrDefault(system.armorValue, 0));
      case "spell" =>
        var school := TableLabel(config.spellSchools, system.school);
        if school.None? {
          return false;
        }
        l := SpellLabels("Circle " + Show(system.spellLevel), school.value, Show(system.manaCost) + " Vigor");
      case "equipment" =>
        l := EquipmentLabels(OrDefault(system.quantity, 1), Show(system.weight) + " lbs");
      case _ =>
        l := NoLabels;
      }
      labels := l;
      prepared := true;
    }

    /** `getRollData`: null without an owner; otherwise the owner's roll data with a copy of this item's data. */
    function GetRollData(): (data: Option<RollData>)
      reads this, actor
      ensures data.None? <==> actor == null
      ensures data.Some? ==> data.value == actor.GetRollData().(item := Some(system))
      ensures data.Some? ==> data.value.item == Some(system) && data.value.system == actor.system
    {
      if actor == null then None else Some(actor.GetRollData().(item := Some(system)))
    }

    /** `rollAttack`: no roll unless a weapon with an owner; the formula defaults to "1d20". */
    function RollAttack(): (formula: Option<string>)
      reads this
      ensures formula.Some? <==> kind == "weapon" && actor != null
      ensures formula.Some? ==> formula.value == if system.formula != "" then system.formula else "1d20"
    {
      if kind != "weapon" || actor == null then None
      else Some(if system.formula != "" then system.formula else "1d20")
    }

    /**
     * `rollDamage`: no roll unless a weapon with an owner. Otherwise the
     * damage formula (default "1d6") is rolled, and then the damage-type
     * label of the chat flavor is read; where the damage-type table is
     * undefined that read throws and no message is posted.
     */
    function RollDamage(config: Config): (roll: Option<DamageRoll>)
      reads this
      ensures roll.Some? <==> kind == "weapon" && actor != null
      ensures roll.Some? ==> roll.value.formula == if system.damage != "" then system.damage else "1d6"
      ensures roll.Some? ==> (roll.value.damageTypeLabel.None? <==> config.damageTypes.None?)
      ensures roll.Some? && config.damageTypes.Some? ==>
                roll.value.damageTypeLabel == Some(ConfigLabel(config.damageTypes.value, system.damageType))
    {
      if kind != "weapon" || actor == null then None
      else Some(DamageRoll(if system.damage != "" then system.damage else "1d6", TableLabel(config.damageTypes, system.damageType)))
    }

    /**
     * `castSpell`: a spell with an owner whose vigor covers the cost spends
     * the cost and yields the effect formula (default "1d6"); otherwise
     * nothing changes and there is no roll.
     */
    method CastSpell() returns (formula: Option<string>)
      modifies actor
      ensures formula.Some? <==> kind == "spell" && actor != null && old(actor.system.vigor.value) >= SpellCost(system)
      ensures formula.None? && actor != null ==> actor.system == old(actor.system)
      ensures formula.Some? ==>
                && actor.system == old(actor.system).(vigor := old(actor.system.vigor).(value := old(actor.system.vigor.value) - SpellCost(system)))
                && actor.system.vigor.value >= 0
                && formula.value == if system.formula != "" then system.formula else "1d6"
      ensures actor != null ==> actor.kind == old(actor.kind) && actor.items == old(actor.items)
    {
      if kind != "spell" {
        return None;
      }
      var owner := actor;
      if owner == null {
        return None;
      }
      var vigorCost := if system.manaCost.Some? && system.manaCost.value != 0 then system.manaCost.value else 1;
      var currentVigor := owner.system.vigor.value;
      if currentVigor < vigorCost {
        return None;
      }
      owner.system := owner.system.(vigor := owner.system.vigor.(value := currentVigor - vigorCost));
      formula := Some(if system.formula != "" then system.formula else "1d6");
    }

    /** `toggleEquipped`. */
    method ToggleEquipped()
      modifies this`system
      ensures system == Toggled(kind, old(system))
    {
      if kind != "weapon" && kind != "armor" {
        return;
      }
      var equipped := match system.equipped case Some(b) => b case None => false;
      system := system.(equipped := Some(!equipped));
    }
  }
}
