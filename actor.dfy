/**
 * The actor document of the Eryndor game system
 * (module/documents/actor.mjs): derived-data preparation for characters
 * and NPCs, the armor-class loop, resting and the guards of the roll
 * actions.
 *
 * Host inputs are parameters: the `acAutomation`, `healthRecovery` and
 * `vigorRecovery` settings, the ability label table of the configuration
 * and the host's `localize`.
 */
module ActorDocument {
  import opened Schema
  import Utils

  /** The choices of the `healthRecovery` and `vigorRecovery` settings. */
  datatype Recovery = Full | Half | Custom

  /** What a rest asks the host to write: a new value for each pool, or nothing. */
  datatype RestUpdates = RestUpdates(health: Option<int>, vigor: Option<int>)

  // ---------------------------------------------------------------------
  // Derived data, as functions of the old system data
  // ---------------------------------------------------------------------

  /**
   * One ability after preparation: its modifier from its score, its label
   * the localized configuration label, or the key itself when the key has
   * no entry in the table.
   */
  function PreparedAbility(key: string, ability: Ability, abilityLabels: map<string, string>, localize: string -> string): Ability {
    ability.(
      mod := Some(Utils.CalculateModifier(ability.value)),
      labelText := if key in abilityLabels then localize(abilityLabels[key]) else key)
  }

  function PreparedAbilities(abilities: map<string, Ability>, abilityLabels: map<string, string>, localize: string -> string): map<string, Ability> {
    map k | k in abilities :: PreparedAbility(k, abilities[k], abilityLabels, localize)
  }

  /** `_prepareCharacterData` for an actor of type "character". */
  function PreparedCharacter(system: ActorSystem, items: seq<ItemData>, acAutomation: bool, abilityLabels: map<string, string>, localize: string -> string): ActorSystem {
    var withMods := system.(abilities := PreparedAbilities(system.abilities, abilityLabels, localize));
    var withProficiency :=
      if withMods.level.Some? then withMods.(proficiency := Some(Utils.CalculateProficiency(withMods.level.value)))
      else withMods;
    if acAutomation then withProficiency.(ac := Utils.ArmorClass(AbilityModOr0(withProficiency.abilities, "dex"), items))
    else withProficiency
  }

  /** `_prepareNpcData` for an actor of type "npc". */
  function PreparedNpc(system: ActorSystem, abilityLabels: map<string, string>, localize: string -> string): ActorSystem {
    system.(abilities := PreparedAbilities(system.abilities, abilityLabels, localize))
  }

  /** `prepareDerivedData`: the character preparation, then the NPC preparation; each applies to its type only. */
  function PreparedSystem(kind: string, system: ActorSystem, items: seq<ItemData>, acAutomation: bool, abilityLabels: map<string, string>, localize: string -> string): ActorSystem {
    if kind == "character" then PreparedCharacter(system, items, acAutomation, abilityLabels, localize)
    else if kind == "npc" then PreparedNpc(system, abilityLabels, localize)
    else system
  }

  /**
   * Preparation of a character or NPC keeps every ability and its score,
   * and sets each modifier to floor((score - 10) / 2).
   */
  lemma PreparationSetsModifiers(kind: string, system: ActorSystem, items: seq<ItemData>, acAutomation: bool, abilityLabels: map<string, string>, localize: string -> string)
    requires kind == "character" || kind == "npc"
    ensures
      var prepared := PreparedSystem(kind, system, items, acAutomation, abilityLabels, localize);
      && prepared.abilities.Keys == system.abilities.Keys
      && forall k :: k in system.abilities ==>
           && prepared.abilities[k].value == system.abilities[k].value
           && prepared.abilities[k].mod == Some(Utils.CalculateModifier(system.abilities[k].value))
  {
  }

  /**
   * Preparation changes nothing but the abilities, the proficiency and the
   * armor class; an NPC's proficiency and armor class, and a character's
   * armor class without AC automation, keep their old values.
   */
  lemma PreparationFrame(kind: string, system: ActorSystem, items: seq<ItemData>, acAutomation: bool, abilityLabels: map<string, string>, localize: string -> string)
    ensures
      var prepared := PreparedSystem(kind, system, items, acAutomation, abilityLabels, localize);
      && prepared.(abilities := system.abilities, proficiency := system.proficiency, ac := system.ac) == system
      && (kind != "character" ==> prepared.proficiency == system.proficiency && prepared.ac == system.ac)
      && (kind != "character" && kind != "npc" ==> prepared == system)
      && (kind == "character" && !acAutomation ==> prepared.ac == system.ac)
  {
  }

  /**
   * A character with a level gets proficiency floor((level - 1) / 4) + 2; with
   * AC automation its armor class is 10 plus the new dexterity modifier plus
   * its equipped armor.
   */
  lemma CharacterPreparation(system: ActorSystem, items: seq<ItemData>, acAutomation: bool, abilityLabels: map<string, string>, localize: string -> string)
    ensures
      var prepared := PreparedSystem("character", system, items, acAutomation, abilityLabels, localize);
      && (system.level.Some? ==> prepared.proficiency == Some(Utils.CalculateProficiency(system.level.value)))
      && (system.level.None? ==> prepared.proficiency == system.proficiency)
      && (acAutomation ==> prepared.ac == Utils.ArmorClass(AbilityModOr0(prepared.abilities, "dex"), items))
  {
  }

  lemma PreparedAbilitiesIdempotent(abilities: map<string, Ability>, abilityLabels: map<string, string>, localize: string -> string)
    ensures PreparedAbilities(PreparedAbilities(abilities, abilityLabels, localize), abilityLabels, localize)
         == PreparedAbilities(abilities, abilityLabels, localize)
  {
  }

  /** Preparing derived data twice gives the same system data as preparing it once. */
  lemma PreparationIdempotent(kind: string, system: ActorSystem, items: seq<ItemData>, acAutomation: bool, abilityLabels: map<string, string>, localize: string -> string)
    ensures
      var once := PreparedSystem(kind, system, items, acAutomation, abilityLabels, localize);
      PreparedSystem(kind, once, items, acAutomation, abilityLabels, localize) == once
  {
    PreparedAbilitiesIdempotent(system.abilities, abilityLabels, localize);
  }

  // ---------------------------------------------------------------------
  // Rest
  // ---------------------------------------------------------------------

  function Min(a: int, b: int): int {
    if a <= b then a else b
  }

  /**
   * The new value `rest` writes for one pool: its maximum on a long rest or
   * with "full", the value plus half the maximum (rounded down) capped at
   * the maximum with "half", and no update with "custom".
   */
  function RecoveredValue(pool: Pool, longRest: bool, setting: Recovery): (r: Option<int>)
    ensures r.None? <==> !longRest && setting.Custom?
    ensures longRest || setting == Full ==> r == Some(pool.max)
    ensures r.Some? ==> r.value <= pool.max
  {
    if setting == Full || longRest then Some(pool.max)
    else if setting == Half then Some(Min(pool.value + pool.max / 2, pool.max))
    else None
  }

  function ApplyUpdate(pool: Pool, update: Option<int>): Pool {
    match update
    case Some(v) => pool.(value := v)
    case None => pool
  }

  /** For a pool at or below a non-negative maximum, a rest neither raises it above its maximum nor lowers it. */
  lemma RestWithinBounds(pool: Pool, longRest: bool, setting: Recovery)
    requires 0 <= pool.max && pool.value <= pool.max
    ensures pool.value <= ApplyUpdate(pool, RecoveredValue(pool, longRest, setting)).value <= pool.max
    ensures longRest ==> ApplyUpdate(pool, RecoveredValue(pool, longRest, setting)).value == pool.max
  {
  }

  /** A pool that a long rest has filled stays full through any further rest. */
  lemma RestedPoolStaysFull(pool: Pool, longRest: bool, setting: Recovery, otherSetting: Recovery)
    requires 0 <= pool.max
    ensures
      var rested := ApplyUpdate(pool, RecoveredValue(pool, true, otherSetting));
      ApplyUpdate(rested, RecoveredValue(rested, longRest, setting)) == rested
  {
  }

  // ---------------------------------------------------------------------
  // The actor document
  // ---------------------------------------------------------------------

  class EryndorActor {
    /** The actor's type: "character", "npc" or another host type. */
    var kind: string
    var system: ActorSystem
    var items: seq<ItemData>

    constructor(kind: string, system: ActorSystem, items: seq<ItemData>)
      ensures this.kind == kind && this.system == system && this.items == items
    {
      this.kind := kind;
      this.system := system;
      this.items := items;
    }

    /** `prepareDerivedData`. */
    method PrepareDerivedData(acAutomation: bool, abilityLabels: map<string, string>, localize: string -> string)
      modifies this
      ensures kind == old(kind) && items == old(items)
      ensures system == PreparedSystem(kind, old(system), items, acAutomation, abilityLabels, localize)
    {
      PrepareCharacterData(acAutomation, abilityLabels, localize);
      PrepareNpcData(abilityLabels, localize);
    }

    /** `_prepareCharacterData`: does nothing unless the actor is a character. */
    method PrepareCharacterData(acAutomation: bool, abilityLabels: map<string, string>, localize: string -> string)
      modifies this
      ensures kind == old(kind) && items == old(items)
      ensures system == if kind == "character" then PreparedCharacter(old(system), items, acAutomation, abilityLabels, localize) else old(system)
    {
      if kind != "character" {
        return;
      }
      PrepareAbilities(abilityLabels, localize);
      if system.level.Some? {
        system := system.(proficiency := Some(Utils.CalculateProficiency(system.level.value)));
      }
      if acAutomation {
        var ac := CalculateAC();
        system := system.(ac := ac);
      }
    }

    /** `_prepareNpcData`: does nothing unless the actor is an NPC. */
    method PrepareNpcData(abilityLabels: map<string, string>, localize: string -> string)
      modifies this
      ensures kind == old(kind) && items == old(items)
      ensures system == if kind == "npc" then PreparedNpc(old(system), abilityLabels, localize) else old(system)
    {
      if kind != "npc" {
        return;
      }
      PrepareAbilities(abilityLabels, localize);
    }

    /** The loop both preparations run: every ability's `mod` and `label` written in place. */
    method PrepareAbilities(abilityLabels: map<string, string>, localize: string -> string)
      modifies this
      ensures kind == old(kind) && items == old(items)
      ensures system == old(system).(abilities := PreparedAbilities(old(system).abilities, abilityLabels, localize))
    {
      ghost var original := system.abilities;
      var remaining := system.abilities.Keys;
      while remaining != {}
        invariant remaining <= original.Keys
        invariant kind == old(kind) && items == old(items)
        invariant system == old(system).(abilities := system.abilities)
        invariant system.abilities.Keys == original.Keys
        invariant forall k :: k in remaining ==> system.abilities[k] == original[k]
        invariant forall k :: k in original && k !in remaining ==>
                    system.abilities[k] == PreparedAbility(k, original[k], abilityLabels, localize)
        decreases remaining
      {
        var key :| key in remaining;
        var ability := system.abilities[key];
        var text := if key in abilityLabels then localize(abilityLabels[key]) else key;
        var updated := ability.(mod := Some((ability.value - 10) / 2), labelText := text);
        system := system.(abilities := system.abilities[key := updated]);
        remaining := remaining - {key};
      }
      assert system.abilities == PreparedAbilities(original, abilityLabels, localize);
    }

    /** `_calculateAC`: 10 plus the dexterity modifier (0 if missing) plus every equipped armor's value. */
    method CalculateAC() returns (ac: int)
      ensures ac == Utils.ArmorClass(AbilityModOr0(system.abilities, "dex"), items)
    {
      var dexMod := if "dex" in system.abilities && system.abilities["dex"].mod.Some? then system.abilities["dex"].mod.value else 0;
      ac := 10 + dexMod;
      var i := 0;
      while i < |items|
        invariant 0 <= i <= |items|
        invariant ac == 10 + dexMod + Utils.ArmorTotal(items[..i])
      {
        assert items[..i + 1][..i] == items[..i];
        var item := items[i];
        if item.kind == "armor" && item.system.equipped == Some(true) {
          ac := ac + match item.system.armorValue case Some(v) => v case None => 0;
        }
        i := i + 1;
      }
      assert items[..i] == items;
    }

    /** `getRollData` with `_getCharacterRollData` and `_getNpcRollData`. */
    function GetRollData(): (data: RollData)
      reads this
      ensures data.system == system && data.item.None?
      ensures kind == "character" || kind == "npc" ==> data.shortcuts == system.abilities
      ensures kind == "character" ==> data.lvl == system.level && data.prof == system.proficiency
      ensures kind != "character" ==> data.lvl.None? && data.prof.None?
      ensures kind != "character" && kind != "npc" ==> data.shortcuts == map[]
    {
      if kind == "character" then RollData(system, system.abilities, system.level, system.proficiency, None)
      else if kind == "npc" then RollData(system, system.abilities, None, None, None)
      else RollData(system, map[], None, None, None)
    }

    /**
     * `rollAbilityCheck`: no roll for an unknown ability; otherwise the
     * formula the check rolls.
     */
    function RollAbilityCheck(abilityId: string): (formula: Option<string>)
      reads this
      ensures formula.Some? <==> abilityId in system.abilities
      ensures formula.Some? ==> formula.value == "1d20 + @" + abilityId + ".mod"
    {
      if abilityId !in system.abilities then None else Some("1d20 + @" + abilityId + ".mod")
    }

    /**
     * `rollMastery`: no roll without a mastery id (missing or empty) or for
     * an unknown one; otherwise the formula the check rolls.
     */
    function RollMastery(masteryId: Option<string>): (formula: Option<string>)
      reads this
      ensures formula.Some? <==> masteryId.Some? && masteryId.value != "" && masteryId.value in system.masteries
      ensures formula.Some? ==> formula.value == "1d20 + " + Utils.IntToString(system.masteries[masteryId.value])
    {
      match masteryId
      case None => None
      case Some(id) =>
        if id == "" || id !in system.masteries then None
        else Some("1d20 + " + Utils.IntToString(system.masteries[id]))
    }

    /** `rest`: computes the updates for both pools from the settings, then applies them. */
    method Rest(longRest: bool, healthRecovery: Recovery, vigorRecovery: Recovery) returns (updates: RestUpdates)
      modifies this
      ensures kind == old(kind) && items == old(items)
      ensures updates == RestUpdates(
                RecoveredValue(old(system).health, longRest, healthRecovery),
                RecoveredValue(old(system).vigor, longRest, vigorRecovery))
      ensures system == old(system).(
                health := ApplyUpdate(old(system).health, updates.health),
                vigor := ApplyUpdate(old(system).vigor, updates.vigor))
    {
      var health := system.health;
      var vigor := system.vigor;
      var healthUpdate: Option<int> := None;
      var vigorUpdate: Option<int> := None;
      if healthRecovery == Full || longRest {
        healthUpdate := Some(health.max);
      } else if healthRecovery == Half {
        healthUpdate := Some(Min(health.value + health.max / 2, health.max));
      }
      if vigorRecovery == Full || longRest {
        vigorUpdate := Some(vigor.max);
      } else if vigorRecovery == Half {
        vigorUpdate := Some(Min(vigor.value + vigor.max / 2, vigor.max));
      }
      updates := RestUpdates(healthUpdate, vigorUpdate);
      system := system.(health := ApplyUpdate(health, healthUpdate), vigor := ApplyUpdate(vigor, vigorUpdate));
    }
  }

  /**
   * The ability check of a character or NPC refers to `@<id>.mod`, and its
   * roll data binds that shortcut to the ability's current modifier.
   */
  lemma AbilityCheckFormulaResolves(actor: EryndorActor, abilityId: string)
    requires actor.kind == "character" || actor.kind == "npc"
    requires actor.RollAbilityCheck(abilityId).Some?
    ensures abilityId in actor.GetRollData().shortcuts
    ensures actor.GetRollData().shortcuts[abilityId].mod == actor.system.abilities[abilityId].mod
  {
  }
}
