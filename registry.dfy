/**
 * The Eryndor registry (module/registry.mjs): three independent
 * string-keyed tables of spells, items and masteries, and the two spell
 * formulas.
 */
module Registry {
  import opened Schema
  import Utils
  import ActorDocument

  /**
   * `map.get(id) || null`: the stored value when it is truthy, null when
   * the id is absent or its value is falsy.
   */
  function Lookup(entries: map<string, JsValue>, id: string): (r: JsValue)
    ensures r == Null || (id in entries && r == entries[id] && Truthy(r))
    ensures id in entries && Truthy(entries[id]) ==> r == entries[id]
  {
    if id in entries && Truthy(entries[id]) then entries[id] else Null
  }

  /** After storing `data` under `id`, a lookup of `id` gives `data`, or null when `data` is falsy; other ids read as before. */
  lemma LookupAfterSet(entries: map<string, JsValue>, id: string, data: JsValue, other: string)
    ensures Lookup(entries[id := data], id) == if Truthy(data) then data else Null
    ensures other != id ==> Lookup(entries[id := data], other) == Lookup(entries, other)
  {
  }

  /** Storing twice under one id keeps only the later value. */
  lemma LastWriteWins(entries: map<string, JsValue>, id: string, first: JsValue, second: JsValue)
    ensures entries[id := first][id := second] == entries[id := second]
  {
  }

  function Max(a: int, b: int): int {
    if a >= b then a else b
  }

  /** `masteries?.[key]?.value || 0`. */
  function MasteryOr0(masteries: map<string, int>, key: string): int {
    if key in masteries then masteries[key] else 0
  }

  /** `attributes?.proficiency?.value || 2`: a missing or zero proficiency counts as 2. */
  function SpellProficiency(system: ActorSystem): (p: int)
    ensures p != 0
    ensures system.proficiency.Some? && system.proficiency.value != 0 ==> p == system.proficiency.value
    ensures system.proficiency.None? || system.proficiency.value == 0 ==> p == 2
  {
    match system.proficiency
    case Some(v) => if v != 0 then v else 2
    case None => 2
  }

  /** `chronosilverWeapon?.attribute || "int"`: the ability key of the spell DC. */
  function SpellAbility(system: ActorSystem): (key: string)
    ensures key != ""
    ensures system.weaponAttribute.Some? && system.weaponAttribute.value != "" ==> key == system.weaponAttribute.value
    ensures system.weaponAttribute.None? || system.weaponAttribute.value == "" ==> key == "int"
  {
    match system.weaponAttribute
    case Some(a) => if a != "" then a else "int"
    case None => "int"
  }

  class EryndorRegistry {
    var spells: map<string, JsValue>
    var items: map<string, JsValue>
    var masteries: map<string, JsValue>

    constructor()
      ensures spells == map[] && items == map[] && masteries == map[]
    {
      spells, items, masteries := map[], map[], map[];
    }

    /** `registerSpell`: last write wins; the item and mastery tables are untouched. */
    method RegisterSpell(id: string, data: JsValue)
      modifies this
      ensures spells == old(spells)[id := data]
      ensures items == old(items) && masteries == old(masteries)
      ensures GetSpell(id) == if Truthy(data) then data else Null
      ensures forall other :: other != id ==> GetSpell(other) == old(GetSpell(other))
    {
      spells := spells[id := data];
    }

    /** `getSpell`. */
    function GetSpell(id: string): (r: JsValue)
      reads this
      ensures r == Null || (id in spells && r == spells[id] && Truthy(r))
      ensures id in spells && Truthy(spells[id]) ==> r == spells[id]
    {
      Lookup(spells, id)
    }

    /** `registerItem`: last write wins; the spell and mastery tables are untouched. */
    method RegisterItem(id: string, data: JsValue)
      modifies this
      ensures items == old(items)[id := data]
      ensures spells == old(spells) && masteries == old(masteries)
      ensures GetItem(id) == if Truthy(data) then data else Null
      ensures forall other :: other != id ==> GetItem(other) == old(GetItem(other))
    {
      items := items[id := data];
    }

    /** `getItem`. */
    function GetItem(id: string): (r: JsValue)
      reads this
      ensures r == Null || (id in items && r == items[id] && Truthy(r))
      ensures id in items && Truthy(items[id]) ==> r == items[id]
    {
      Lookup(items, id)
    }

    /** `registerMastery`: last write wins; the spell and item tables are untouched. */
    method RegisterMastery(id: string, data: JsValue)
      modifies this
      ensures masteries == old(masteries)[id := data]
      ensures spells == old(spells) && items == old(items)
      ensures GetMastery(id) == if Truthy(data) then data else Null
      ensures forall other :: other != id ==> GetMastery(other) == old(GetMastery(other))
    {
      masteries := masteries[id := data];
    }

    /** `getMastery`. */
    function GetMastery(id: string): (r: JsValue)
      reads this
      ensures r == Null || (id in masteries && r == masteries[id] && Truthy(r))
      ensures id in masteries && Truthy(masteries[id]) ==> r == masteries[id]
    {
      Lookup(masteries, id)
    }

    /** `clear`: empties all three tables, so every lookup gives null. */
    method Clear()
      modifies this
      ensures spells == map[] && items == map[] && masteries == map[]
      ensures forall id :: GetSpell(id) == Null && GetItem(id) == Null && GetMastery(id) == Null
    {
      spells, items, masteries := map[], map[], map[];
    }

    /**
     * `calculateSpellDC`: the mastery DC of the higher of the two
     * masteries (missing counts as 0), with the spell proficiency and the
     * modifier of the spell ability.
     */
    static function CalculateSpellDC(actor: ActorDocument.EryndorActor, domain: string, form: string): (dc: int)
      reads actor
      ensures dc == Utils.CalculateMasteryDC(
                Max(MasteryOr0(actor.system.masteries, domain), MasteryOr0(actor.system.masteries, form)),
                AbilityModOr0(actor.system.abilities, SpellAbility(actor.system)),
                SpellProficiency(actor.system))
    {
      var system := actor.system;
      var domainMastery := MasteryOr0(system.masteries, domain);
      var formMastery := MasteryOr0(system.masteries, form);
      var proficiency := SpellProficiency(system);
      var abilityMod := AbilityModOr0(system.abilities, SpellAbility(system));
      8 + proficiency + abilityMod + Max(domainMastery, formMastery)
    }

    /** `getSpellCircle`: the sum of both masteries bucketed into circles 1 to 5. */
    static function GetSpellCircle(domainMastery: int, formMastery: int): (circle: int)
      ensures 1 <= circle <= 5
      ensures circle >= 2 <==> domainMastery + formMastery >= 6
      ensures circle >= 3 <==> domainMastery + formMastery >= 10
      ensures circle >= 4 <==> domainMastery + formMastery >= 14
      ensures circle == 5 <==> domainMastery + formMastery >= 18
    {
      var totalMastery := domainMastery + formMastery;
      if totalMastery >= 18 then 5
      else if totalMastery >= 14 then 4
      else if totalMastery >= 10 then 3
      else if totalMastery >= 6 then 2
      else 1
    }
  }

  /** The spell DC does not depend on which mastery is the domain and which the form. */
  lemma SpellDCSymmetric(actor: ActorDocument.EryndorActor, domain: string, form: string)
    ensures EryndorRegistry.CalculateSpellDC(actor, domain, form) == EryndorRegistry.CalculateSpellDC(actor, form, domain)
  {
  }

  /**
   * With non-negative masteries the spell DC is at least 8 plus proficiency
   * plus the ability modifier; with neither mastery present it is exactly that.
   */
  lemma SpellDCLowerBound(actor: ActorDocument.EryndorActor, domain: string, form: string)
    requires forall k :: k in actor.system.masteries ==> actor.system.masteries[k] >= 0
    ensures
      var base := 8 + SpellProficiency(actor.system) + AbilityModOr0(actor.system.abilities, SpellAbility(actor.system));
      && EryndorRegistry.CalculateSpellDC(actor, domain, form) >= base
      && (domain !in actor.system.masteries && form !in actor.system.masteries ==>
            EryndorRegistry.CalculateSpellDC(actor, domain, form) == base)
  {
  }

  /** The spell circle never falls when either mastery grows, and does not depend on their order. */
  lemma SpellCircleMonotoneSymmetric(d1: int, f1: int, d2: int, f2: int)
    requires d1 <= d2 && f1 <= f2
    ensures EryndorRegistry.GetSpellCircle(d1, f1) <= EryndorRegistry.GetSpellCircle(d2, f2)
    ensures EryndorRegistry.GetSpellCircle(d1, f1) == EryndorRegistry.GetSpellCircle(f1, d1)
  {
  }

  lemma SpellCircleExamples()
    ensures EryndorRegistry.GetSpellCircle(2, 3) == 1 && EryndorRegistry.GetSpellCircle(3, 3) == 2
    ensures EryndorRegistry.GetSpellCircle(5, 4) == 2 && EryndorRegistry.GetSpellCircle(5, 5) == 3
    ensures EryndorRegistry.GetSpellCircle(7, 7) == 4 && EryndorRegistry.GetSpellCircle(9, 9) == 5
  {
  }
}
