/**
 * The formula and string utilities of the Eryndor game system
 * (module/utils.mjs): modifier and proficiency math, armor class,
 * roll-formula building, identifier normalisation, the UUID prefix test
 * and the experience curve.
 */
module Utils {
  import opened Schema

  // ---------------------------------------------------------------------
  // Decimal rendering of integers, as JavaScript's `${n}` renders them
  // ---------------------------------------------------------------------

  predicate IsDigit(c: char) {
    '0' <= c <= '9'
  }

  predicate AllDigits(s: string) {
    forall i :: 0 <= i < |s| ==> IsDigit(s[i])
  }

  function DigitChar(d: nat): (c: char)
    requires d < 10
    ensures IsDigit(c) && c as int - '0' as int == d
  {
    ('0' as int + d) as char
  }

  /** The decimal digits of `n`, most significant first, without leading zeros. */
  function NatToString(n: nat): (s: string)
    ensures |s| > 0 && AllDigits(s)
    ensures |s| > 1 ==> s[0] != '0'
    decreases n
  {
    if n < 10 then [DigitChar(n)] else NatToString(n / 10) + [DigitChar(n % 10)]
  }

  /** The value of a string of decimal digits: the inverse of NatToString. */
  function ParseNat(s: string): nat
    requires AllDigits(s)
  {
    if s == [] then 0 else ParseNat(s[..|s| - 1]) * 10 + (s[|s| - 1] as int - '0' as int)
  }

  lemma {:induction false} ParseNatToString(n: nat)
    ensures ParseNat(NatToString(n)) == n
    decreases n
  {
    if n >= 10 {
      var s := NatToString(n);
      assert s[..|s| - 1] == NatToString(n / 10);
      ParseNatToString(n / 10);
    }
  }

  /** JavaScript's string form of an integer: a '-' sign, then the digits of its magnitude. */
  function IntToString(n: int): string {
    if n < 0 then "-" + NatToString(-n) else NatToString(n)
  }

  // ---------------------------------------------------------------------
  // formatModifier
  // ---------------------------------------------------------------------

  /**
   * `formatModifier`: a signed modifier. The argument is the result of
   * `Number(modifier)`; NaN formats as "+0".
   */
  function FormatModifier(value: Numeric): (r: string)
    ensures |r| >= 2 && (r[0] == '+' || r[0] == '-') && AllDigits(r[1..])
    ensures value.NaN? ==> r == "+0"
    ensures value.Int? ==> (r[0] == '+' <==> value.value >= 0)
  {
    match value
    case NaN => "+0"
    case Int(n) => if n >= 0 then "+" + IntToString(n) else IntToString(n)
  }

  /** Reads back a signed modifier such as "+3" or "-1". */
  function ParseModifier(s: string): Option<int> {
    if |s| >= 2 && (s[0] == '+' || s[0] == '-') && AllDigits(s[1..]) then
      var magnitude: int := ParseNat(s[1..]);
      Some(if s[0] == '+' then magnitude else -magnitude)
    else
      None
  }

  /** Every formatted integer modifier reads back as the same integer. */
  lemma FormatModifierRoundTrip(n: int)
    ensures ParseModifier(FormatModifier(Int(n))) == Some(n)
  {
    var r := FormatModifier(Int(n));
    if n >= 0 {
      assert r[1..] == NatToString(n);
      ParseNatToString(n);
    } else {
      assert r[1..] == NatToString(-n);
      ParseNatToString(-n);
    }
  }

  // ---------------------------------------------------------------------
  // formatIdentifier
  // ---------------------------------------------------------------------

  /** A character of the class [a-z0-9]. */
  predicate IsIdentChar(c: char) {
    'a' <= c <= 'z' || '0' <= c <= '9'
  }

  predicate InIdentAlphabet(s: string) {
    forall i :: 0 <= i < |s| ==> IsIdentChar(s[i]) || s[i] == '-'
  }

  predicate NoDoubleDash(s: string) {
    forall i :: 0 < i < |s| ==> !(s[i - 1] == '-' && s[i] == '-')
  }

  /** The shape formatIdentifier promises: [a-z0-9] words joined by single dashes. */
  predicate IsIdentifier(s: string) {
    && InIdentAlphabet(s)
    && NoDoubleDash(s)
    && (|s| > 0 ==> s[0] != '-' && s[|s| - 1] != '-')
  }

  /** `toLowerCase` on the ASCII letters. */
  function LowerChar(c: char): char {
    if 'A' <= c <= 'Z' then (c as int + 32) as char else c
  }

  function ToLowerCase(s: string): (r: string)
    ensures |r| == |s|
    ensures forall i :: 0 <= i < |s| ==> r[i] == LowerChar(s[i])
  {
    seq(|s|, i requires 0 <= i < |s| => LowerChar(s[i]))
  }

  /**
   * `.replace(/[^a-z0-9]+/g, "-")`: every maximal run of characters outside
   * [a-z0-9] becomes one '-'. `inRun` says that the character before `s`
   * was already part of a replaced run.
   */
  function ReplaceRuns(s: string, inRun: bool): (r: string)
    ensures InIdentAlphabet(r) && NoDoubleDash(r)
    ensures inRun && |r| > 0 ==> r[0] != '-'
    decreases |s|
  {
    if s == [] then []
    else if IsIdentChar(s[0]) then [s[0]] + ReplaceRuns(s[1..], false)
    else if inRun then ReplaceRuns(s[1..], true)
    else "-" + ReplaceRuns(s[1..], true)
  }

  /** The `^-+` half of the trimming pattern. */
  function DropLeadingDashes(s: string): (r: string)
    ensures |r| <= |s| && r == s[|s| - |r|..]
    ensures |r| > 0 ==> r[0] != '-'
    ensures forall i :: 0 <= i < |s| - |r| ==> s[i] == '-'
    decreases |s|
  {
    if |s| > 0 && s[0] == '-' then DropLeadingDashes(s[1..]) else s
  }

  /** The `-+$` half of the trimming pattern. */
  function DropTrailingDashes(s: string): (r: string)
    ensures |r| <= |s| && r == s[..|r|]
    ensures |r| > 0 ==> r[|r| - 1] != '-'
    ensures forall i :: |r| <= i < |s| ==> s[i] == '-'
    decreases |s|
  {
    if |s| > 0 && s[|s| - 1] == '-' then DropTrailingDashes(s[..|s| - 1]) else s
  }

  /**
   * `formatIdentifier`: lower-case, replace runs outside [a-z0-9] by '-',
   * trim dashes at both ends. Anything but a string gives "".
   */
  function FormatIdentifier(input: JsValue): (r: string)
    ensures IsIdentifier(r)
    ensures !input.Str? ==> r == ""
  {
    match input
    case Str(s) =>
      var replaced := ReplaceRuns(ToLowerCase(s), false);
      var trimmed := DropLeadingDashes(replaced);
      var r := DropTrailingDashes(trimmed);
      assert |r| > 0 ==> r[0] == trimmed[0];
      r
    case _ => ""
  }

  lemma {:induction false} ReplaceRunsFixed(s: string, inRun: bool)
    requires InIdentAlphabet(s) && NoDoubleDash(s)
    requires inRun && |s| > 0 ==> s[0] != '-'
    ensures ReplaceRuns(s, inRun) == s
    decreases |s|
  {
    if s != [] {
      assert s[0] != '-' ==> IsIdentChar(s[0]);
      assert |s| > 1 && s[0] == '-' ==> s[1] != '-';
      ReplaceRunsFixed(s[1..], !IsIdentChar(s[0]));
    }
  }

  /** A string is left unchanged by formatIdentifier exactly when it already has the identifier shape. */
  lemma FormatIdentifierFixedPoints(s: string)
    ensures FormatIdentifier(Str(s)) == s <==> IsIdentifier(s)
  {
    if IsIdentifier(s) {
      assert ToLowerCase(s) == s;
      ReplaceRunsFixed(s, false);
    }
  }

  /** formatIdentifier is idempotent. */
  lemma FormatIdentifierIdempotent(input: JsValue)
    ensures FormatIdentifier(Str(FormatIdentifier(input))) == FormatIdentifier(input)
  {
    FormatIdentifierFixedPoints(FormatIdentifier(input));
  }

  /** The letters and digits of a string, in order. */
  function Alphanumerics(s: string): string {
    if s == [] then [] else (if IsIdentChar(s[0]) then [s[0]] else []) + Alphanumerics(s[1..])
  }

  lemma {:induction false} AlphanumericsSnoc(s: string, c: char)
    ensures Alphanumerics(s + [c]) == Alphanumerics(s) + (if IsIdentChar(c) then [c] else [])
    decreases |s|
  {
    if s != [] {
      assert (s + [c])[1..] == s[1..] + [c];
      AlphanumericsSnoc(s[1..], c);
    }
  }

  lemma {:induction false} ReplaceRunsKeepsAlphanumerics(s: string, inRun: bool)
    ensures Alphanumerics(ReplaceRuns(s, inRun)) == Alphanumerics(s)
    decreases |s|
  {
    if s != [] {
      ReplaceRunsKeepsAlphanumerics(s[1..], !IsIdentChar(s[0]));
      if IsIdentChar(s[0]) {
        assert ([s[0]] + ReplaceRuns(s[1..], false))[1..] == ReplaceRuns(s[1..], false);
      } else if !inRun {
        assert ("-" + ReplaceRuns(s[1..], true))[1..] == ReplaceRuns(s[1..], true);
      }
    }
  }

  lemma {:induction false} DropLeadingKeepsAlphanumerics(s: string)
    ensures Alphanumerics(DropLeadingDashes(s)) == Alphanumerics(s)
    decreases |s|
  {
    if |s| > 0 && s[0] == '-' {
      DropLeadingKeepsAlphanumerics(s[1..]);
    }
  }

  lemma {:induction false} DropTrailingKeepsAlphanumerics(s: string)
    ensures Alphanumerics(DropTrailingDashes(s)) == Alphanumerics(s)
    decreases |s|
  {
    if |s| > 0 && s[|s| - 1] == '-' {
      var init := s[..|s| - 1];
      assert s == init + ['-'];
      AlphanumericsSnoc(init, '-');
      DropTrailingKeepsAlphanumerics(init);
    }
  }

  /**
   * formatIdentifier drops no letter or digit: the [a-z0-9] characters of
   * its result are those of the lower-cased input, in the same order.
   */
  lemma FormatIdentifierKeepsAlphanumerics(s: string)
    ensures Alphanumerics(FormatIdentifier(Str(s))) == Alphanumerics(ToLowerCase(s))
  {
    var replaced := ReplaceRuns(ToLowerCase(s), false);
    ReplaceRunsKeepsAlphanumerics(ToLowerCase(s), false);
    DropLeadingKeepsAlphanumerics(replaced);
    DropTrailingKeepsAlphanumerics(DropLeadingDashes(replaced));
  }

  // ---------------------------------------------------------------------
  // Ability, proficiency and mastery formulas
  // ---------------------------------------------------------------------

  /** `calculateModifier`: floor((score - 10) / 2). */
  function CalculateModifier(score: int): (m: int)
    ensures 2 * m <= score - 10 < 2 * m + 2
  {
    (score - 10) / 2
  }

  lemma ModifierMonotone(a: int, b: int)
    requires a <= b
    ensures CalculateModifier(a) <= CalculateModifier(b)
  {
  }

  lemma ModifierExamples()
    ensures CalculateModifier(10) == 0 && CalculateModifier(11) == 0
    ensures CalculateModifier(9) == -1 && CalculateModifier(12) == 1
  {
  }

  /** `calculateProficiency`: floor((level - 1) / 4) + 2. */
  function CalculateProficiency(level: int): (p: int)
    ensures 4 * (p - 2) <= level - 1 < 4 * (p - 2) + 4
  {
    (level - 1) / 4 + 2
  }

  lemma ProficiencyAtLeastTwo(level: int)
    requires level >= 1
    ensures CalculateProficiency(level) >= 2
  {
  }

  lemma ProficiencyExamples()
    ensures CalculateProficiency(1) == 2 && CalculateProficiency(4) == 2
    ensures CalculateProficiency(5) == 3 && CalculateProficiency(9) == 4
    ensures CalculateProficiency(20) == 6
  {
  }

  /** `calculateMasteryDC`: 8 plus mastery, ability modifier and proficiency. */
  function CalculateMasteryDC(masteryValue: int, abilityModifier: int, proficiency: int): (dc: int)
    ensures dc >= 8 + abilityModifier + proficiency <==> masteryValue >= 0
    ensures dc == 8 + abilityModifier + proficiency <==> masteryValue == 0
  {
    8 + masteryValue + abilityModifier + proficiency
  }

  lemma MasteryDCMonotone(m1: int, m2: int, abilityModifier: int, proficiency: int)
    requires m1 <= m2
    ensures CalculateMasteryDC(m1, abilityModifier, proficiency) <= CalculateMasteryDC(m2, abilityModifier, proficiency)
    ensures m1 >= 0 ==> CalculateMasteryDC(m1, abilityModifier, proficiency) >= 8 + abilityModifier + proficiency
  {
  }

  // ---------------------------------------------------------------------
  // calculateArmorClass
  // ---------------------------------------------------------------------

  /** Equipped armor adds `Number(armorValue) || 0`; every other item adds nothing. */
  predicate ContributesArmor(item: ItemData) {
    item.kind == "armor" && item.system.equipped == Some(true)
  }

  function ArmorBonus(item: ItemData): int {
    if ContributesArmor(item) then
      match item.system.armorValue
      case Some(v) => v
      case None => 0
    else 0
  }

  /** The armor bonuses of a list of items, summed in order. */
  function ArmorTotal(items: seq<ItemData>): int {
    if items == [] then 0 else ArmorTotal(items[..|items| - 1]) + ArmorBonus(items[|items| - 1])
  }

  /** 10, plus the dexterity modifier, plus the bonus of every equipped armor. */
  function ArmorClass(dexMod: int, items: seq<ItemData>): int {
    10 + dexMod + ArmorTotal(items)
  }

  /** `calculateArmorClass`, with the actor's abilities and items passed in. */
  method CalculateArmorClass(abilities: map<string, Ability>, items: seq<ItemData>) returns (ac: int)
    ensures ac == ArmorClass(AbilityModOr0(abilities, "dex"), items)
  {
    var dexMod := AbilityModOr0(abilities, "dex");
    ac := 10 + dexMod;
    for i := 0 to |items|
      invariant ac == 10 + dexMod + ArmorTotal(items[..i])
    {
      assert items[..i + 1][..i] == items[..i];
      var item := items[i];
      if item.kind == "armor" && item.system.equipped == Some(true) {
        ac := ac + match item.system.armorValue case Some(v) => v case None => 0;
      }
    }
    assert items[..|items|] == items;
  }

  lemma {:induction false} ArmorTotalAppend(a: seq<ItemData>, b: seq<ItemData>)
    ensures ArmorTotal(a + b) == ArmorTotal(a) + ArmorTotal(b)
    decreases |b|
  {
    if b == [] {
      assert a + b == a;
    } else {
      var b' := b[..|b| - 1];
      assert (a + b)[..|a + b| - 1] == a + b';
      ArmorTotalAppend(a, b');
    }
  }

  /** Adding an unequipped or non-armor item anywhere leaves the armor class unchanged. */
  lemma ArmorClassIgnoresNonContributing(dexMod: int, before: seq<ItemData>, item: ItemData, after: seq<ItemData>)
    requires !ContributesArmor(item)
    ensures ArmorClass(dexMod, before + [item] + after) == ArmorClass(dexMod, before + after)
  {
    ArmorTotalAppend(before + [item], after);
    ArmorTotalAppend(before, after);
    assert (before + [item])[..|before|] == before;
  }

  /** With non-negative armor values, armor never lowers the class below 10 plus the dexterity modifier. */
  lemma {:induction false} ArmorClassAtLeastBase(dexMod: int, items: seq<ItemData>)
    requires forall i :: 0 <= i < |items| ==> items[i].system.armorValue.None? || items[i].system.armorValue.value >= 0
    ensures ArmorClass(dexMod, items) >= 10 + dexMod
    decreases |items|
  {
    if items != [] {
      ArmorClassAtLeastBase(dexMod, items[..|items| - 1]);
    }
  }

  /** Dexterity modifier +2, one equipped armor of value 3 and one unequipped of value 5 give 15. */
  lemma ArmorClassExample(s: ItemSystem)
    ensures
      var worn := ItemData("armor", s.(armorValue := Some(3), equipped := Some(true)));
      var stowed := ItemData("armor", s.(armorValue := Some(5), equipped := Some(false)));
      ArmorClass(2, [worn, stowed]) == 15
  {
    var worn := ItemData("armor", s.(armorValue := Some(3), equipped := Some(true)));
    var stowed := ItemData("armor", s.(armorValue := Some(5), equipped := Some(false)));
    assert [worn, stowed][..1] == [worn];
    assert [worn][..0] == [];
    assert ArmorTotal([worn]) == 3;
    assert ArmorTotal([worn, stowed]) == 3;
  }

  // ---------------------------------------------------------------------
  // createRollFormula
  // ---------------------------------------------------------------------

  /**
   * The piece one modifier appends: " + n" for a number n >= 0, " - |n|"
   * for a negative number (NaN fails `>= 0` and prints as " - NaN"),
   * " + s" for a string, and nothing for any other kind of value.
   */
  function FormulaTerm(modifier: JsValue): string {
    match modifier
    case Num(n) => if n >= 0 then " + " + NatToString(n) else " - " + NatToString(-n)
    case NotANumber => " - NaN"
    case Str(s) => " + " + s
    case _ => ""
  }

  predicate AddsTerm(modifier: JsValue) {
    modifier.Num? || modifier.NotANumber? || modifier.Str?
  }

  /** The base formula followed by the piece of every modifier, in order. */
  function RollFormula(base: string, modifiers: seq<JsValue>): string {
    if modifiers == [] then base
    else RollFormula(base, modifiers[..|modifiers| - 1]) + FormulaTerm(modifiers[|modifiers| - 1])
  }

  /** `createRollFormula`. */
  method CreateRollFormula(base: string, modifiers: seq<JsValue>) returns (formula: string)
    ensures formula == RollFormula(base, modifiers)
  {
    formula := base;
    for i := 0 to |modifiers|
      invariant formula == RollFormula(base, modifiers[..i])
    {
      assert modifiers[..i + 1][..i] == modifiers[..i];
      var m := modifiers[i];
      if m.Num? || m.NotANumber? {
        formula := formula + if m.Num? && m.n >= 0 then " + " + NatToString(m.n)
                             else if m.Num? then " - " + NatToString(-m.n)
                             else " - NaN";
      } else if m.Str? {
        formula := formula + " + " + m.s;
      }
    }
    assert modifiers[..|modifiers|] == modifiers;
  }

  /** Building a formula from two lists is building from the first, then extending by the second. */
  lemma {:induction false} RollFormulaAppend(base: string, a: seq<JsValue>, b: seq<JsValue>)
    ensures RollFormula(base, a + b) == RollFormula(RollFormula(base, a), b)
    decreases |b|
  {
    if b == [] {
      assert a + b == a;
    } else {
      var b' := b[..|b| - 1];
      assert (a + b)[..|a + b| - 1] == a + b';
      RollFormulaAppend(base, a, b');
    }
  }

  /** The formula always starts with the base formula. */
  lemma {:induction false} RollFormulaExtendsBase(base: string, modifiers: seq<JsValue>)
    ensures |base| <= |RollFormula(base, modifiers)|
    ensures RollFormula(base, modifiers)[..|base|] == base
    decreases |modifiers|
  {
    if modifiers != [] {
      RollFormulaExtendsBase(base, modifiers[..|modifiers| - 1]);
    }
  }

  /** A modifier that is neither a number nor a string adds nothing, wherever it stands. */
  lemma RollFormulaSkipsOtherKinds(base: string, before: seq<JsValue>, modifier: JsValue, after: seq<JsValue>)
    requires !AddsTerm(modifier)
    ensures RollFormula(base, before + [modifier] + after) == RollFormula(base, before + after)
  {
    assert (before + [modifier])[..|before|] == before;
    assert RollFormula(base, before + [modifier]) == RollFormula(base, before);
    RollFormulaAppend(base, before + [modifier], after);
    RollFormulaAppend(base, before, after);
  }

  // ---------------------------------------------------------------------
  // isUUID
  // ---------------------------------------------------------------------

  predicate IsAsciiLetter(c: char) {
    'A' <= c <= 'Z' || 'a' <= c <= 'z'
  }

  predicate IsAsciiAlphanumeric(c: char) {
    IsAsciiLetter(c) || IsDigit(c)
  }

  predicate AllLetters(s: string) {
    forall i :: 0 <= i < |s| ==> IsAsciiLetter(s[i])
  }

  /** The length of the longest prefix of ASCII letters. */
  function LetterPrefixLength(s: string): (k: nat)
    ensures k <= |s| && AllLetters(s[..k])
    ensures k < |s| ==> !IsAsciiLetter(s[k])
    decreases |s|
  {
    if |s| > 0 && IsAsciiLetter(s[0]) then
      var k := 1 + LetterPrefixLength(s[1..]);
      assert s[..k] == [s[0]] + s[1..][..k - 1];
      k
    else 0
  }

  /**
   * `isUUID`: the test of `/^[A-Za-z]+\.[A-Za-z0-9]+/`, which needs one or
   * more letters, a dot, then at least one letter or digit, at the start.
   */
  function IsUUID(s: string): (b: bool)
    ensures b <==> exists k :: 1 <= k && k + 1 < |s| && AllLetters(s[..k]) && s[k] == '.' && IsAsciiAlphanumeric(s[k + 1])
  {
    var k := LetterPrefixLength(s);
    var b := 1 <= k && k + 1 < |s| && s[k] == '.' && IsAsciiAlphanumeric(s[k + 1]);
    b
  }

  // ---------------------------------------------------------------------
  // experienceForLevel and levelFromExperience
  // ---------------------------------------------------------------------

  /** `experienceForLevel`: level squared times 100 (exact for integer levels). */
  function ExperienceForLevel(level: int): (xp: int)
    ensures xp >= 0
  {
    level * level * 100
  }

  lemma ExperienceIncreasing(a: int, b: int)
    requires 1 <= a < b
    ensures ExperienceForLevel(a) < ExperienceForLevel(b)
  {
    assert a * a < b * b by {
      assert a * a <= a * b;
      assert a * b < b * b;
    }
  }

  /** The search of `levelFromExperience`, continued from `level`. */
  function LevelSearch(xp: int, level: int): (r: int)
    requires 1 <= level <= 20
    ensures level <= r <= 20
    ensures r < 20 ==> ExperienceForLevel(r) > xp
    ensures r > level ==> ExperienceForLevel(r - 1) <= xp
    decreases 20 - level
  {
    if ExperienceForLevel(level) <= xp && level < 20 then LevelSearch(xp, level + 1) else level
  }

  /**
   * The level `levelFromExperience` returns: the first level whose
   * threshold exceeds `xp`, capped at 20.
   */
  function LevelFor(xp: int): (r: int)
    ensures 1 <= r <= 20
    ensures r < 20 ==> ExperienceForLevel(r) > xp
    ensures r > 1 ==> ExperienceForLevel(r - 1) <= xp
  {
    LevelSearch(xp, 1)
  }

  /** `levelFromExperience`. */
  method LevelFromExperience(xp: int) returns (level: int)
    ensures level == LevelFor(xp)
    ensures 1 <= level <= 20
    ensures level < 20 ==> ExperienceForLevel(level) > xp
    ensures level > 1 ==> ExperienceForLevel(level - 1) <= xp
  {
    level := 1;
    while ExperienceForLevel(level) <= xp && level < 20
      invariant 1 <= level <= 20
      invariant LevelSearch(xp, level) == LevelFor(xp)
      decreases 20 - level
    {
      level := level + 1;
    }
  }

  lemma {:induction false} LevelSearchMonotone(x: int, y: int, level: int)
    requires x <= y && 1 <= level <= 20
    ensures LevelSearch(x, level) <= LevelSearch(y, level)
    decreases 20 - level
  {
    if ExperienceForLevel(level) <= x && level < 20 {
      LevelSearchMonotone(x, y, level + 1);
    }
  }

  /** More experience never gives a lower level. */
  lemma LevelForMonotone(x: int, y: int)
    requires x <= y
    ensures LevelFor(x) <= LevelFor(y)
  {
    LevelSearchMonotone(x, y, 1);
  }

  /** The three bounds of LevelFor single out its result. */
  lemma LevelForUnique(xp: int, r: int)
    requires 1 <= r <= 20
    requires r < 20 ==> ExperienceForLevel(r) > xp
    requires r > 1 ==> ExperienceForLevel(r - 1) <= xp
    ensures r == LevelFor(xp)
  {
    var q := LevelFor(xp);
    if r < q {
      if r < q - 1 {
        ExperienceIncreasing(r, q - 1);
      }
    } else if q < r {
      if q < r - 1 {
        ExperienceIncreasing(q, r - 1);
      }
    }
  }

  lemma LevelForExamples()
    ensures ExperienceForLevel(1) == 100 && ExperienceForLevel(2) == 400
    ensures LevelFor(0) == 1 && LevelFor(99) == 1 && LevelFor(100) == 2
    ensures LevelFor(350) == 2 && LevelFor(400) == 3
  {
    LevelForUnique(350, 2);
    LevelForUnique(400, 3);
    LevelForUnique(0, 1);
    LevelForUnique(99, 1);
    LevelForUnique(100, 2);
  }
}
