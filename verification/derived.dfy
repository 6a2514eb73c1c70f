/**
  The derived statistics: saving throws, starting funds, weapon damage and range,
  equipment, speed, initiative, hit points and armour class. The saving throws, funds,
  weapon damage and armour class are paired with a table-driven reference definition of
  the same rule (`Effects`, `FundsBonuses`, `WeaponTable`, `ArmorBonuses`); equipment,
  speed, initiative and hit points are stated directly by their contracts.
*/
module DerivedStats {
  import opened Wrappers
  import opened Tables
  import opened Text
  import opened AbilityScores
  import opened LuckySigns

  // ---------------------------------------------------------------- saving throws

  datatype SavingThrows = SavingThrows(reflex: int, fortitude: int, willpower: int)

  /** `getSavingThrows`: agility, stamina and personality modifiers plus the luck the sign grants each throw. */
  function GetSavingThrows(m: Abilities, luckySign: string): (r: SavingThrows)
    ensures r.reflex == m.agility + SignLuck(luckySign, Reflex, m.luck)
    ensures r.fortitude == m.stamina + SignLuck(luckySign, Fortitude, m.luck)
    ensures r.willpower == m.personality + SignLuck(luckySign, Willpower, m.luck)
  {
    SignLuckByTarget(luckySign, m.luck);
    var all := if Contains(luckySign, "Lucky sign: Saving throws") then m.luck else 0;
    var reflex := m.agility + all + LuckBonus(luckySign, "Struck by lightning", m.luck);
    var fortitude := m.stamina + all + LuckBonus(luckySign, "Lived through famine", m.luck);
    var willpower := m.personality + all + LuckBonus(luckySign, "Resisted temptation", m.luck);
    SavingThrows(reflex, fortitude, willpower)
  }

  /**
    Nothing in the matching stops two triggers from stacking: a sign holding both the
    all-saves and the reflex trigger adds luck to reflex twice.
  */
  lemma TriggersStack(m: Abilities, luckySign: string)
    requires Contains(luckySign, "Lucky sign: Saving throws") && Contains(luckySign, "Struck by lightning")
    ensures GetSavingThrows(m, luckySign).reflex == m.agility + 2 * m.luck
    ensures SignLuck(luckySign, Reflex, m.luck) == 2 * m.luck
  {
    SignLuckByTarget(luckySign, m.luck);
  }

  /** Such signs exist: one text can hold both phrases. */
  lemma StackingSignExists()
    ensures var sign := "Lucky sign: Saving throws; Struck by lightning";
      Contains(sign, "Lucky sign: Saving throws") && Contains(sign, "Struck by lightning")
  {
    var sign := "Lucky sign: Saving throws; Struck by lightning";
    assert sign[..25] == "Lucky sign: Saving throws";
    assert sign[27..27 + 19] == "Struck by lightning";
    ContainsAt(sign, "Struck by lightning", 27);
  }

  // ---------------------------------------------------------------- starting funds

  datatype Money = Money(gp: int, sp: int, cp: int)

  /** Reference definition: the occupations that start richer and what they add. */
  const FundsBonuses: seq<(string, Money)> := [
    ("Halfling trader", Money(0, 20, 0)),
    ("Halfling moneylender", Money(5, 10, 200)),
    ("Merchant", Money(4, 14, 27)),
    ("Tax collector", Money(0, 0, 100))
  ]

  /** The value of the first row whose key equals `key`, or `default`. */
  function Lookup<V>(table: seq<(string, V)>, key: string, default: V): V
    decreases |table|
  {
    if |table| == 0 then default
    else if table[0].0 == key then table[0].1
    else Lookup(table[1..], key, default)
  }

  /** `getStartingFunds` with the 5d12 copper already rolled. */
  function StartingFunds(occupation: string, copper: int): (m: Money)
    requires 5 <= copper <= 60
    ensures m.gp >= 0 && m.sp >= 0 && m.cp >= copper
    ensures var bonus := Lookup(FundsBonuses, occupation, Money(0, 0, 0));
      m == Money(bonus.gp, bonus.sp, copper + bonus.cp)
  {
    var money := Money(0, 0, copper);
    if occupation == "Halfling trader" then money.(sp := money.sp + 20)
    else if occupation == "Halfling moneylender" then Money(money.gp + 5, money.sp + 10, money.cp + 200)
    else if occupation == "Merchant" then Money(money.gp + 4, money.sp + 14, money.cp + 27)
    else if occupation == "Tax collector" then money.(cp := money.cp + 100)
    else money
  }

  /** Every other occupation starts with the copper alone. */
  lemma OrdinaryOccupationHasOnlyCopper(occupation: string, copper: int)
    requires 5 <= copper <= 60
    requires forall k :: 0 <= k < |FundsBonuses| ==> FundsBonuses[k].0 != occupation
    ensures StartingFunds(occupation, copper) == Money(0, 0, copper)
  {
    assert FundsBonuses[0].0 != occupation && FundsBonuses[1].0 != occupation;
    assert FundsBonuses[2].0 != occupation && FundsBonuses[3].0 != occupation;
  }

  // ---------------------------------------------------------------- weapon damage and range

  datatype WeaponStats = WeaponStats(damage: string, range: string)

  const Unarmed := WeaponStats("1d3 subdual", "0/0/0")

  /** Reference definition: weapon keywords in the order they are tried. */
  const WeaponTable: seq<(string, WeaponStats)> := [
    ("dagger", WeaponStats("1d4", "0/0/0")),
    ("spear", WeaponStats("1d8", "0/0/0")),
    ("staff", WeaponStats("1d4", "0/0/0")),
    ("club", WeaponStats("1d4", "0/0/0")),
    ("axe", WeaponStats("1d6", "10/20/30*")),
    ("short sword", WeaponStats("1d6", "0/0/0")),
    ("dart", WeaponStats("1d4", "20/40/60*")),
    ("shortbow", WeaponStats("1d6", "50/100/150")),
    ("sling", WeaponStats("1d4", "40/80/160*")),
    ("longsword", WeaponStats("1d8", "0/0/0")),
    ("mace", WeaponStats("1d6", "0/0/0"))
  ]

  /** Index of the first keyword, from position `from` on, that the name contains. */
  function FirstKeyword<V>(table: seq<(string, V)>, name: string, from: nat): (r: Option<nat>)
    requires from <= |table|
    ensures r.Some? ==> from <= r.value < |table| && Contains(name, table[r.value].0)
    ensures r.Some? ==> forall i :: from <= i < r.value ==> !Contains(name, table[i].0)
    ensures r.None? <==> forall i :: from <= i < |table| ==> !Contains(name, table[i].0)
    decreases |table| - from
  {
    if from == |table| then None
    else if Contains(name, table[from].0) then Some(from)
    else FirstKeyword(table, name, from + 1)
  }

  /** The stats of the first keyword the name contains, or the unarmed default. */
  function ClassifyWeapon(name: string): WeaponStats {
    match FirstKeyword(WeaponTable, name, 0)
    case None => Unarmed
    case Some(i) => WeaponTable[i].1
  }

  /** `getWeaponDamage`: the trained weapon, lower-cased, tried against each keyword in turn. */
  function GetWeaponDamage(trainedWeapon: string): WeaponStats {
    var weapon := Lower(trainedWeapon);
    if Contains(weapon, "dagger") then WeaponStats("1d4", "0/0/0")
    else if Contains(weapon, "spear") then WeaponStats("1d8", "0/0/0")
    else if Contains(weapon, "staff") then WeaponStats("1d4", "0/0/0")
    else if Contains(weapon, "club") then WeaponStats("1d4", "0/0/0")
    else if Contains(weapon, "axe") then WeaponStats("1d6", "10/20/30*")
    else if Contains(weapon, "short sword") then WeaponStats("1d6", "0/0/0")
    else if Contains(weapon, "dart") then WeaponStats("1d4", "20/40/60*")
    else if Contains(weapon, "shortbow") then WeaponStats("1d6", "50/100/150")
    else if Contains(weapon, "sling") then WeaponStats("1d4", "40/80/160*")
    else if Contains(weapon, "longsword") then WeaponStats("1d8", "0/0/0")
    else if Contains(weapon, "mace") then WeaponStats("1d6", "0/0/0")
    else Unarmed
  }

  /** The keyword scan from position `from` on, as a chain of tests. */
  function ClassifyFrom(table: seq<(string, WeaponStats)>, name: string, from: nat): WeaponStats
    requires from <= |table|
    decreases |table| - from
  {
    if from == |table| then Unarmed
    else if Contains(name, table[from].0) then table[from].1
    else ClassifyFrom(table, name, from + 1)
  }

  lemma {:induction false} ClassifyFromIsFirstKeyword(table: seq<(string, WeaponStats)>, name: string, from: nat)
    requires from <= |table|
    ensures ClassifyFrom(table, name, from)
         == match FirstKeyword(table, name, from) case None => Unarmed case Some(i) => table[i].1
    decreases |table| - from
  {
    if from < |table| && !Contains(name, table[from].0) {
      ClassifyFromIsFirstKeyword(table, name, from + 1);
    }
  }

  /** The if-chain is the first-match scan of the keyword table; no keyword gives the subdual default. */
  lemma WeaponDamageIsFirstMatch(trainedWeapon: string)
    ensures GetWeaponDamage(trainedWeapon) == ClassifyWeapon(Lower(trainedWeapon))
    ensures FirstKeyword(WeaponTable, Lower(trainedWeapon), 0).None? ==> GetWeaponDamage(trainedWeapon) == Unarmed
  {
    ClassifyFromIsFirstKeyword(WeaponTable, Lower(trainedWeapon), 0);
  }

  /** None of the keywords tried before "shortbow" occurs in "shortbow + <digit> ammo". */
  lemma ShortbowAmmoMatchesShortbow(digit: char)
    requires IsDigit(digit)
    ensures var w := "shortbow + " + [digit] + " ammo";
      && !Contains(w, "dagger") && !Contains(w, "spear") && !Contains(w, "staff") && !Contains(w, "club")
      && !Contains(w, "axe") && !Contains(w, "short sword") && !Contains(w, "dart") && Contains(w, "shortbow")
  {
    ShortbowAmmoLacksFirstKeywords(digit);
    ShortbowAmmoLacksLaterKeywords(digit);
    var w := "shortbow + " + [digit] + " ammo";
    assert w[..8] == "shortbow";
  }

  /** "dagger", "spear", "staff" and "club" each need a letter "shortbow + <digit> ammo" lacks. */
  lemma ShortbowAmmoLacksFirstKeywords(digit: char)
    requires IsDigit(digit)
    ensures var w := "shortbow + " + [digit] + " ammo";
      !Contains(w, "dagger") && !Contains(w, "spear") && !Contains(w, "staff") && !Contains(w, "club")
  {
    var w := "shortbow + " + [digit] + " ammo";
    assert 'd' !in w && 'p' !in w && 'f' !in w && 'c' !in w;
    MissingCharNotContained(w, "dagger", 'd');
    MissingCharNotContained(w, "spear", 'p');
    MissingCharNotContained(w, "staff", 'f');
    MissingCharNotContained(w, "club", 'c');
  }

  /** "axe", "short sword" and "dart" each need a letter "shortbow + <digit> ammo" lacks. */
  lemma ShortbowAmmoLacksLaterKeywords(digit: char)
    requires IsDigit(digit)
    ensures var w := "shortbow + " + [digit] + " ammo";
      !Contains(w, "axe") && !Contains(w, "short sword") && !Contains(w, "dart")
  {
    var w := "shortbow + " + [digit] + " ammo";
    assert 'd' !in w && 'x' !in w;
    MissingCharNotContained(w, "axe", 'x');
    MissingCharNotContained(w, "short sword", 'd');
    MissingCharNotContained(w, "dart", 'd');
  }

  /** No occurrence of the pattern is possible when one of its characters is missing from the text. */
  lemma {:induction false} MissingCharNotContained(s: string, pattern: string, c: char)
    requires c in pattern && c !in s
    ensures !Contains(s, pattern)
    decreases |s|
  {
    var k :| 0 <= k < |pattern| && pattern[k] == c;
    if |pattern| <= |s| {
      assert s[k] in s;
      assert s[..|pattern|][k] != pattern[k];
    }
    if |s| > 0 {
      MissingCharNotContained(s[1..], pattern, c);
    }
  }

  // ---------------------------------------------------------------- equipment

  /** `getEquipment` with the d24 already rolled. */
  function GetEquipment(trainedWeapon: string, stats: WeaponStats, tradeGoods: string, items: seq<string>, d24: int)
    : (r: seq<string>)
    requires 1 <= d24 <= 24 && |items| >= 24
    ensures |r| == (if tradeGoods != "" then 3 else 2)
    ensures r[0] == trainedWeapon + " " + stats.damage + " " + stats.range
    ensures tradeGoods != "" ==> r[1] == tradeGoods
    ensures r[|r| - 1] == items[d24 - 1]
  {
    [trainedWeapon + " " + stats.damage + " " + stats.range]
    + (if tradeGoods != "" then [tradeGoods] else [])
    + [items[d24 - 1]]
  }

  // ---------------------------------------------------------------- speed, initiative, hit points, armour class

  /** Walking speed in feet before any lucky-sign bonus. */
  function BaseSpeed(race: Race): (feet: int)
    ensures feet == 20 <==> (race.Dwarf? || race.Halfling?)
    ensures feet == 30 <==> (race.Human? || race.Elf?)
  {
    if race == Dwarf || race == Halfling then 20 else 30
  }

  /** Feet per round: the race's base speed plus what the sign grants to speed. */
  function SpeedFeet(race: Race, luckySign: string, luckModifier: int): (feet: int)
    ensures feet == BaseSpeed(race) + SignLuck(luckySign, Speed, luckModifier)
  {
    SignLuckByTarget(luckySign, luckModifier);
    BaseSpeed(race) + (if Contains(luckySign, "Wild child") then luckModifier * 5 else 0)
  }

  /** `getSpeed`: the feet per round followed by an apostrophe. */
  function GetSpeed(race: Race, luckySign: string, luckModifier: int): (s: string)
    ensures |s| >= 2 && s[|s| - 1] == '\''
    ensures ParseInt(s[..|s| - 1]) == Some(SpeedFeet(race, luckySign, luckModifier))
  {
    var feet := SpeedFeet(race, luckySign, luckModifier);
    var s := IntToString(feet) + "'";
    assert s[..|s| - 1] == IntToString(feet);
    IntToStringRoundTrip(feet);
    s
  }

  /** `getInitiative`. */
  function GetInitiative(agilityModifier: int, luckySign: string, luckModifier: int): (r: int)
    ensures r == agilityModifier + SignLuck(luckySign, Initiative, luckModifier)
  {
    SignLuckByTarget(luckySign, luckModifier);
    agilityModifier + LuckBonus(luckySign, "Speed of the cobra", luckModifier)
  }

  /** `getHitPoints` with the d4 already rolled: never below one. */
  function GetHitPoints(d4: int, staminaModifier: int, luckySign: string, luckModifier: int): (hp: int)
    requires 1 <= d4 <= 4
    ensures hp >= 1
    ensures var raw := d4 + staminaModifier + SignLuck(luckySign, HitPoints, luckModifier);
      (raw >= 1 ==> hp == raw) && (raw < 1 ==> hp == 1)
  {
    SignLuckByTarget(luckySign, luckModifier);
    var hitPoints := d4 + staminaModifier + LuckBonus(luckySign, "Bountiful harvest", luckModifier);
    if hitPoints < 1 then 1 else hitPoints
  }

  /** Reference definition: trade goods that count as armour and their bonus. */
  const ArmorBonuses: seq<(string, int)> := [("Leather armor", 2), ("Hide armor", 3), ("Shield", 1)]

  /** `getArmorClass`. */
  function GetArmorClass(agilityModifier: int, tradeGoods: string, luckySign: string, luckModifier: int): (ac: int)
    ensures ac == 10 + agilityModifier + Lookup(ArmorBonuses, tradeGoods, 0) + SignLuck(luckySign, ArmorClass, luckModifier)
  {
    SignLuckByTarget(luckySign, luckModifier);
    var armorClass := 10 + agilityModifier;
    var armored :=
      if tradeGoods == "Leather armor" then armorClass + 2
      else if tradeGoods == "Hide armor" then armorClass + 3
      else if tradeGoods == "Shield" then armorClass + 1
      else armorClass;
    armored + LuckBonus(luckySign, "Charmed house", luckModifier)
  }

  /** A sign holding no trigger phrase leaves every derived roll at its luck-free value. */
  lemma UntriggeredSignLeavesRollsBare(m: Abilities, race: Race, d4: int, tradeGoods: string, luckySign: string)
    requires 1 <= d4 <= 4
    requires forall k :: 0 <= k < |Effects| ==> !Contains(luckySign, Effects[k].0)
    ensures GetSavingThrows(m, luckySign) == SavingThrows(m.agility, m.stamina, m.personality)
    ensures SpeedFeet(race, luckySign, m.luck) == BaseSpeed(race)
    ensures GetInitiative(m.agility, luckySign, m.luck) == m.agility
    ensures GetHitPoints(d4, m.stamina, luckySign, m.luck) == if d4 + m.stamina >= 1 then d4 + m.stamina else 1
    ensures GetArmorClass(m.agility, tradeGoods, luckySign, m.luck) == 10 + m.agility + Lookup(ArmorBonuses, tradeGoods, 0)
  {
    UntriggeredSignAddsNothing(luckySign, Reflex, m.luck);
    UntriggeredSignAddsNothing(luckySign, Fortitude, m.luck);
    UntriggeredSignAddsNothing(luckySign, Willpower, m.luck);
    UntriggeredSignAddsNothing(luckySign, Speed, m.luck);
    UntriggeredSignAddsNothing(luckySign, Initiative, m.luck);
    UntriggeredSignAddsNothing(luckySign, HitPoints, m.luck);
    UntriggeredSignAddsNothing(luckySign, ArmorClass, m.luck);
  }
}
