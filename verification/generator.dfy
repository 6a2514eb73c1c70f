/**
  The character record and the constructor of `dccZeroLevelChar`: every step in the
  source's order, each drawing its dice from one outcome sequence.
*/
module Generator {
  import opened Wrappers
  import opened Dice
  import opened Tables
  import opened Text
  import opened AbilityScores
  import opened RaceSelection
  import opened OccupationResolution
  import opened LanguageSelection
  import opened DerivedStats

  datatype Character = Character(
    scores: Abilities,
    modifiers: Abilities,
    suitable: Option<bool>,            // only assigned when suitability is tested
    luckySign: string,
    saves: SavingThrows,
    race: Race,
    racialTraits: seq<string>,
    occupation: string,
    trainedWeapon: string,
    tradeGoods: string,
    languages: seq<Option<string>>,
    money: Money,
    weapon: WeaponStats,               // trainedWeaponDamage and trainedWeaponRange
    equipment: seq<string>,
    speed: string,
    initiative: int,
    hitPoints: int,
    armorClass: int)

  /** What the steps up to the race settle: scores, modifiers, `suitable`, sign, throws, race. */
  datatype Origin = Origin(phase: AbilityPhase, luckySign: string, saves: SavingThrows, race: Race)

  predicate ValidOrigin(t: RuleTables, testSuitability: bool, flags: Exclusions, o: Origin)
    requires WellFormed(t)
  {
    && InScoreRange(o.phase.scores)
    && o.phase.modifiers == Modifiers(t.modifiers, o.phase.scores)
    && (testSuitability ==> o.phase.suitable == Some(true) && IsSuitable(o.phase.modifiers))
    && (!testSuitability ==> o.phase.suitable == None)
    && o.luckySign in t.luckSigns[..30]
    && o.saves == GetSavingThrows(o.phase.modifiers, o.luckySign)
    && !Excludes(flags, o.race)
  }

  /** `getLuckySign`: the d30 picks one of the first thirty signs. */
  function RollLuckySign(signs: seq<string>, stream: seq<int>): (r: Step<string>)
    requires |signs| >= 30
    ensures r.Ok? ==> r.value.value in signs[..30]
    ensures r.Ok? ==> |stream| > 0 && 1 <= stream[0] <= 30 && r.value.value == signs[stream[0] - 1]
  {
    var d :- Draw(stream, 30);
    assert signs[..30][d.value - 1] == signs[d.value - 1];
    Ok(Drawn(signs[d.value - 1], d.rest))
  }

  /** Ability scores (with the suitability loop), d30 lucky sign, saving throws, d10 race. */
  function RollOrigin(t: RuleTables, testSuitability: bool, flags: Exclusions, stream: seq<int>): (r: Step<Origin>)
    requires WellFormed(t)
    ensures r.Ok? ==> ValidOrigin(t, testSuitability, flags, r.value.value)
  {
    var phase :- RollAbilityPhase(testSuitability, t.modifiers, stream);
    var sign :- RollLuckySign(t.luckSigns, phase.rest);
    var race :- SelectRace(flags, sign.rest);
    Ok(Drawn(Origin(phase.value, sign.value, GetSavingThrows(phase.value.modifiers, sign.value), race.value), race.rest))
  }

  /** Occupation, weapon and trade goods, then languages. */
  datatype Background = Background(job: Job, languages: seq<Option<string>>)

  function RollBackground(t: RuleTables, o: Origin, stream: seq<int>): (r: Step<Background>)
    requires WellFormed(t)
    ensures r.Ok? ==> |r.value.value.languages| >= 1 && r.value.value.languages[0] == Some("Common")
    ensures r.Ok? ==> NoDuplicates(r.value.value.languages)
    ensures r.Ok? ==> JobFromTable(t, o.race, r.value.value.job)
    ensures r.Ok? ==> var m := o.phase.modifiers;
      LanguagesFollowRules(o.phase.scores.intelligence, m.intelligence, m.luck, o.luckySign,
                           o.race, t.languages, r.value.value.languages)
  {
    var job :- ResolveOccupation(t, o.race, stream);
    var m := o.phase.modifiers;
    var langs :- Languages(o.phase.scores.intelligence, m.intelligence, m.luck, o.luckySign,
                           o.race, t.languages, job.rest);
    Ok(Drawn(Background(job.value, langs.value), langs.rest))
  }

  /** What every character the constructor completes under the race flags `flags` satisfies, field by field. */
  predicate ValidCharacter(t: RuleTables, testSuitability: bool, flags: Exclusions, c: Character)
    requires WellFormed(t)
  {
    && ValidOrigin(t, testSuitability, flags,
                   Origin(AbilityPhase(c.scores, c.modifiers, c.suitable), c.luckySign, c.saves, c.race))
    && c.racialTraits == RacialTraits(c.race)
    && JobFromTable(t, c.race, Job(c.occupation, c.trainedWeapon, c.tradeGoods))
    && LanguagesFollowRules(c.scores.intelligence, c.modifiers.intelligence, c.modifiers.luck, c.luckySign,
                            c.race, t.languages, c.languages)
    && (exists copper :: 5 <= copper <= 60 && c.money == StartingFunds(c.occupation, copper))
    && c.weapon == GetWeaponDamage(c.trainedWeapon)
    && (exists d24 :: 1 <= d24 <= 24
          && c.equipment == GetEquipment(c.trainedWeapon, c.weapon, c.tradeGoods, t.equipment, d24))
    && c.speed == GetSpeed(c.race, c.luckySign, c.modifiers.luck)
    && c.initiative == GetInitiative(c.modifiers.agility, c.luckySign, c.modifiers.luck)
    && (exists d4 :: 1 <= d4 <= 4
          && c.hitPoints == GetHitPoints(d4, c.modifiers.stamina, c.luckySign, c.modifiers.luck))
    && c.armorClass == GetArmorClass(c.modifiers.agility, c.tradeGoods, c.luckySign, c.modifiers.luck)
  }

  /** Funds (5d12), weapon damage, equipment (d24), speed, initiative, hit points (d4), armour class. */
  function Outfit(t: RuleTables, o: Origin, b: Background, stream: seq<int>): (r: Result<Character, Failure>)
    requires WellFormed(t)
    ensures r.Ok? ==> var c := r.value;
      && c.scores == o.phase.scores && c.modifiers == o.phase.modifiers && c.suitable == o.phase.suitable
      && c.luckySign == o.luckySign && c.saves == o.saves && c.race == o.race
      && c.racialTraits == RacialTraits(c.race)
      && c.occupation == b.job.occupation && c.trainedWeapon == b.job.weapon && c.tradeGoods == b.job.goods
      && c.languages == b.languages
      && (exists copper :: 5 <= copper <= 60 && c.money == StartingFunds(c.occupation, copper))
      && c.weapon == GetWeaponDamage(c.trainedWeapon)
      && (exists d24 :: 1 <= d24 <= 24
            && c.equipment == GetEquipment(c.trainedWeapon, c.weapon, c.tradeGoods, t.equipment, d24))
      && c.speed == GetSpeed(c.race, c.luckySign, c.modifiers.luck)
      && c.initiative == GetInitiative(c.modifiers.agility, c.luckySign, c.modifiers.luck)
      && (exists d4 :: 1 <= d4 <= 4
            && c.hitPoints == GetHitPoints(d4, c.modifiers.stamina, c.luckySign, c.modifiers.luck))
      && c.armorClass == GetArmorClass(c.modifiers.agility, c.tradeGoods, c.luckySign, c.modifiers.luck)
  {
    var m := o.phase.modifiers;
    var copper :- Roll(stream, 12, 5);
    var weapon := GetWeaponDamage(b.job.weapon);
    var item :- Draw(copper.rest, 24);
    var d4 :- Draw(item.rest, 4);
    Ok(Character(
      o.phase.scores, m, o.phase.suitable, o.luckySign, o.saves,
      o.race, RacialTraits(o.race),
      b.job.occupation, b.job.weapon, b.job.goods,
      b.languages,
      StartingFunds(b.job.occupation, copper.value),
      weapon,
      GetEquipment(b.job.weapon, weapon, b.job.goods, t.equipment, item.value),
      GetSpeed(o.race, o.luckySign, m.luck),
      GetInitiative(m.agility, o.luckySign, m.luck),
      GetHitPoints(d4.value, m.stamina, o.luckySign, m.luck),
      GetArmorClass(m.agility, b.job.goods, o.luckySign, m.luck)))
  }

  /**
    The constructor. The all-excluded override is applied once, before any roll; the
    character is then rolled under the resulting flags.
  */
  function Generate(t: RuleTables, testSuitability: bool, ex: Exclusions, stream: seq<int>): (r: Result<Character, Failure>)
    requires WellFormed(t)
    ensures r.Ok? ==> ValidCharacter(t, testSuitability, Normalize(ex), r.value)
  {
    RollCharacter(t, testSuitability, Normalize(ex), stream)
  }

  /**
    Every roll of the constructor, in the source's order: the ability scores (again and
    again when suitability is tested), d30 lucky sign, d10 race (until allowed), the
    occupation roll and its adjustments, d100 per language attempt, 5d12 copper, d24
    equipment, d4 hit points.
  */
  function RollCharacter(t: RuleTables, testSuitability: bool, flags: Exclusions, stream: seq<int>)
    : (r: Result<Character, Failure>)
    requires WellFormed(t)
    ensures r.Ok? ==> ValidCharacter(t, testSuitability, flags, r.value)
  {
    var origin :- RollOrigin(t, testSuitability, flags, stream);
    var background :- RollBackground(t, origin.value, origin.rest);
    Outfit(t, origin.value, background.value, background.rest)
  }

  /** Excluding every race is the same request as excluding none. */
  lemma ExcludingAllIsExcludingNone(t: RuleTables, testSuitability: bool, stream: seq<int>)
    requires WellFormed(t)
    ensures Generate(t, testSuitability, Exclusions(true, true, true, true), stream)
         == Generate(t, testSuitability, Exclusions(false, false, false, false), stream)
  {
    assert Normalize(Exclusions(true, true, true, true)) == Normalize(Exclusions(false, false, false, false));
  }

  lemma LowerShortbowAmmo(k: int)
    requires 1 <= k <= 6
    ensures Lower(WithAmmo("Shortbow", k)) == "shortbow + " + [DigitChar(k)] + " ammo"
  {
    assert IntToString(k) == [DigitChar(k)];
  }

  /** A shortbow with its ammunition is still classified as a shortbow: 1d6 at 50/100/150. */
  lemma ShortbowWithAmmoClassified(k: int)
    requires 1 <= k <= 6
    ensures GetWeaponDamage(WithAmmo("Shortbow", k)) == WeaponStats("1d6", "50/100/150")
  {
    LowerShortbowAmmo(k);
    ShortbowAmmoMatchesShortbow(DigitChar(k));
  }
}
