# DCC zero-level character generator: a Dafny model

This project models the engine behind a Dungeon Crawl Classics "funnel" character
generator. The class `dccZeroLevelChar` builds one zero-level character by running a
fixed chain of dice rolls, table lookups and rule adjustments:

1. six ability scores (3d6 each), with their modifiers;
2. optionally, rerolling until the modifiers add up to at least zero;
3. a d30 lucky sign, then the saving throws;
4. a d10 race that respects the caller's exclusions, then the racial traits;
5. a d70 or d10 occupation with its trained weapon and trade goods;
6. the languages, the 5d12 copper and occupation funds, and the weapon damage and range;
7. the equipment, speed, initiative, hit points and armour class.

It also models the pure text helpers of the character-sheet writer: `convertInt`,
`listSplit` and the money field.

Dice are not random here. Every die is drawn from the front of an explicit, finite
sequence of outcomes, so a generation is a function of its outcomes.
- A sequence that runs out gives `OutOfRolls`.
- An outcome outside `[1, sides]` gives `BadDie`.
- The three reroll loops recurse on the remaining length: suitability, race and
  duplicate language.

The rule tables are one immutable `RuleTables` value. `Tables.WellFormed` holds the
length and coverage facts that the source's indexing relies on.

Modules:
- `Tables`: races, occupation rows, language rows and the rule tables (data shared by every step).
- `Dice`: the outcome stream, `Draw` and `Roll` (`diceRoll`).
- `AbilityScores`: the scores, modifiers, suitability and the reroll loop.
- `LuckySigns`: the lucky-sign effect table, one row per trigger phrase and the roll it raises; the saving throws already use it.
- `RaceSelection`: the exclusion override, `getRace` and `getRacialTraits`.
- `OccupationResolution`: `getOccupation`, as a first-match scan plus the ammunition, animal, farmer and cart adjustments.
- `LanguageSelection`: `getLanguages` and `getOneLanguage`.
- `DerivedStats`: saving throws, funds, weapon damage, equipment, speed, initiative, hit points and armour class.
- `Generator`: the character record and the constructor, `Generate`.
- `SheetText`: `convertInt`, `listSplit` and the money field, each with a reader or reference definition that recovers what was written.
- `Text` and `Wrappers`: decimal text and parsing, substring search, ASCII lower-casing, and the `Option`/`Result` types.

## Model

`AbilityScores.Modifiers` (`getAbilityScoreModifiers`), `AbilityScores.IsSuitable`
(`charIsSuitable`) and `DerivedStats.GetWeaponDamage` (`getWeaponDamage`) carry no contract of
their own. Their behaviour is stated in the rows for `RollAbilityPhase`, `RollUntilSuitable` and
`WeaponDamageIsFirstMatch`.

| member | source | states |
|---|---|---|
| Dice.Draw | mysite/character_generator2.py:152-163 | One die succeeds exactly when an outcome remains and lies in [1, sides]. The value is that outcome, and exactly one outcome is consumed. Otherwise the failure says which: no outcome left, or the bad face. |
| Dice.Roll | mysite/character_generator2.py:152-163 | `count` dice succeed exactly when `count` valid outcomes remain. The total lies in [count, count*sides] and is the sum of those outcomes, which are consumed. |
| AbilityScores.RollScores | mysite/character_generator2.py:166-173 | Roll i of n 3d6 rolls is the sum of outcomes 3i..3i+2 and lies in [3, 18]. Exactly 3n outcomes are consumed. |
| AbilityScores.RollAbilities | mysite/character_generator2.py:166-173 | The six scores lie in [3, 18] and are read in the source's order, strength first and luck last, each the sum of its three outcomes. Eighteen outcomes are consumed. |
| AbilityScores.RollUntilSuitable | mysite/character_generator2.py:129-134 | The loop only stops on suitable modifiers (their sum is at least zero), and these are the table's modifiers of in-range scores. |
| AbilityScores.RollUntilSuitableTakesFirstSuitable | mysite/character_generator2.py:129-134 | Attempts 0..k-1 are unsuitable and attempt k is suitable, so the loop returns attempt k and resumes after its eighteen outcomes. |
| AbilityScores.RollAbilityPhase | mysite/character_generator2.py:125-134 | When suitability is requested, `suitable` is true and the modifiers sum to at least zero. Otherwise one roll of eighteen outcomes is taken, `suitable` stays unassigned (None), and each modifier is the table entry for the sum of its three outcomes. |
| RaceSelection.Normalize | mysite/character_generator2.py:113-116 | After the override at least one race is allowed. A race is excluded exactly when it was excluded and not all four were. |
| RaceSelection.RaceForRoll | mysite/character_generator2.py:243-254 | Rolls 1, 2 and 3 give Dwarf, Elf and Halfling exactly when that race is allowed. Any other outcome is Human when allowed. The loop rerolls exactly when neither applies. |
| RaceSelection.SelectRace | mysite/character_generator2.py:238-256 | The race returned is never excluded, and at least one roll is consumed. |
| RaceSelection.RaceReachable | mysite/character_generator2.py:243-254 | A race is the outcome of some d10 if and only if it is not excluded. |
| RaceSelection.NormalizedAdmitsARoll | mysite/character_generator2.py:113-116 | After the override some d10 always settles the race loop. |
| RaceSelection.HumanAllowedSettlesAtOnce | mysite/character_generator2.py:241-254 | With Human allowed, the first d10 decides the race. |
| RaceSelection.SelectRaceSettlesAtFirstAccepted | mysite/character_generator2.py:241-254 | The loop takes the race of the first roll that yields one and resumes right after that roll. |
| RaceSelection.RacialTraits | mysite/character_generator2.py:259-271 | Only humans have no traits. Every demi-human list starts with Infravision. Small size, Underground skills and Iron vulnerability belong to exactly Halfling, Dwarf and Elf. |
| OccupationResolution.OccupationRange | mysite/character_generator2.py:286-289 | The roll range is 70 exactly for Human and 10 for every other race. |
| OccupationResolution.FirstCovering | mysite/character_generator2.py:291-297 | The chosen row is the first in table order whose bound is at least the roll. There is none exactly when every bound is below the roll. |
| OccupationResolution.PartitionSelectsUniqueRow | mysite/character_generator2.py:291-297 | On ascending bounds that cover [1, range], each roll selects row i exactly when it lies in (bound[i-1], bound[i]]. |
| OccupationResolution.ArmWeapon | mysite/character_generator2.py:299-301 | Shortbow and Sling gain " + k ammo" where k is the next outcome, a d6, which is consumed. No other weapon changes or consumes a die. |
| OccupationResolution.HerdGoods | mysite/character_generator2.py:303-307 | Trade goods change only for a herder or farmer whose d20 is above 14. They then become animal d20-14, one of entries 1..6. |
| OccupationResolution.HerdAnimal | mysite/character_generator2.py:303-307 | A herding job draws a d20 from the next outcome, and its goods are what `HerdGoods` makes of that roll: the same goods or one of animals 1..6. Any other job keeps its goods and rolls nothing. |
| OccupationResolution.FarmerLabel | mysite/character_generator2.py:309-311 | A Farmer becomes `farmers[d8-1] + " farmer"` for the next outcome d8, and only that outcome is consumed. Other jobs keep their name and roll nothing. |
| OccupationResolution.CartGoods | mysite/character_generator2.py:313-315 | A Wainwright's goods are "Pushcart full of " followed by `carts[d6-1]` for the next outcome d6, and only that outcome is consumed. Other jobs keep their goods and roll nothing. |
| OccupationResolution.AdjustRow | mysite/character_generator2.py:299-317 | The resolved job follows its row: weapon, label and goods change only by the four adjustments. It fails only by running out of outcomes or by a bad die. |
| OccupationResolution.OrdinaryRowUnchanged | mysite/character_generator2.py:299-317 | A row with no missile weapon, herding job or cart is taken over unchanged and consumes no die. |
| OccupationResolution.ResolveOccupation | mysite/character_generator2.py:274-317 | The roll lies in the race's range, and the job follows the first covering row, so the job comes from the race's table (`JobFromTable`). A miss happens only when every bound is below the roll. |
| OccupationResolution.PartitionedTableNeverMisses | mysite/character_generator2.py:291-297 | A table that partitions its race's range never misses. |
| LanguageSelection.FirstGranting | mysite/character_generator2.py:331-337 | The first row, in table order, whose cell for the race is a number at least the roll. There is none exactly when no row grants. |
| LanguageSelection.OneLanguage | mysite/character_generator2.py:331-337 | The result is the language of a row that grants on this roll and is preceded by no granting row, that is, the first granting row in table order. It is None exactly when no row grants on that roll. |
| LanguageSelection.DrawNewLanguage | mysite/character_generator2.py:363-365 | The reroll ends only on a language (or None) that is not already known, and that entry is what some d100 gives (`RolledLanguage`). |
| LanguageSelection.DrawNewLanguageSettlesAtFirstNew | mysite/character_generator2.py:363-365 | When d100 rolls 0..k-1 give languages already known and roll k does not, the reroll returns roll k's language and resumes right after it. |
| LanguageSelection.AddBonusLanguages | mysite/character_generator2.py:359-367 | Exactly max(count, 0) entries are appended to an unchanged prefix. Each is what some d100 gives, and no duplicates are introduced. |
| LanguageSelection.BonusLanguageCount | mysite/character_generator2.py:354-357 | The intelligence modifier plus what the lucky-sign effect table grants to extra languages (luck for "Birdsong"). |
| LanguageSelection.Languages | mysite/character_generator2.py:320-369 | Intelligence up to 5 gives exactly [Common, Illiterate] and 6-7 gives exactly [Common], with no die consumed. Every list has the shape of `LanguagesFollowRules`: Common first and no duplicates; from intelligence 8, a demi-human's race language second, then exactly max(bonus, 0) languages, each what some d100 gives. |
| DerivedStats.GetSavingThrows | mysite/character_generator2.py:220-235 | Reflex, fortitude and willpower start at the agility, stamina and personality modifiers. Each gains exactly the luck that the lucky-sign effect table grants that throw. |
| DerivedStats.UntriggeredSignLeavesRollsBare | mysite/character_generator2.py:220-516 | A sign with no trigger phrase leaves the throws at the bare modifiers. Speed is then the race's base, initiative the agility modifier, hit points d4 + stamina (at least 1) and armour class 10 + agility + armour. |
| LuckySigns.SignLuckByTarget | mysite/character_generator2.py:220-516 | The effect table grants each roll exactly the luck that the generator's if-chains add. For each of the eight rolls, that is the sum over its trigger phrases of luck when the sign contains the phrase. |
| LuckySigns.UntriggeredSignAddsNothing | mysite/character_generator2.py:220-516 | A sign that contains none of the trigger phrases adds nothing to any roll. |
| DerivedStats.TriggersStack | mysite/character_generator2.py:225-230 | The all-saves and reflex triggers stack: any sign that holds both phrases adds luck to reflex twice. |
| DerivedStats.StackingSignExists | mysite/character_generator2.py:225-230 | Such a sign exists, so the stacking case is reachable. |
| DerivedStats.StartingFunds | mysite/character_generator2.py:372-398 | No denomination is negative and copper is at least the 5d12 roll. The money is the roll plus the bonus the funds table lists for the occupation. |
| DerivedStats.OrdinaryOccupationHasOnlyCopper | mysite/character_generator2.py:386-398 | An occupation outside the four richer ones starts with the rolled copper only. |
| DerivedStats.WeaponDamageIsFirstMatch | mysite/character_generator2.py:401-442 | The if-chain is a first-match scan of the lower-cased name over the keyword table, in the source's order. No keyword gives ("1d3 subdual", "0/0/0"). |
| DerivedStats.GetEquipment | mysite/character_generator2.py:445-462 | Three items when there are trade goods, two otherwise. The weapon string with damage and range is first, the goods second when present, and the d24 item last. |
| DerivedStats.BaseSpeed | mysite/character_generator2.py:465-469 | 20 feet exactly for Dwarf and Halfling, 30 exactly for Human and Elf. |
| DerivedStats.SpeedFeet | mysite/character_generator2.py:465-472 | The race's base speed plus what the lucky-sign effect table grants to speed (five times luck for "Wild child"). |
| DerivedStats.GetSpeed | mysite/character_generator2.py:465-477 | The text ends in an apostrophe, and what precedes it reads back as the speed in feet. |
| DerivedStats.GetInitiative | mysite/character_generator2.py:480-487 | The agility modifier plus what the lucky-sign effect table grants to initiative. |
| DerivedStats.GetHitPoints | mysite/character_generator2.py:490-500 | Never below 1. Equal to d4 + stamina modifier + the table's luck for hit points whenever that sum is at least 1. |
| DerivedStats.GetArmorClass | mysite/character_generator2.py:503-516 | 10 + agility modifier + the armour table's bonus for the trade goods (0 when absent) + the sign table's luck for armour class. |
| Generator.RollLuckySign | mysite/character_generator2.py:209-217 | The sign is entry d30-1, so always one of the first thirty. |
| Generator.RollOrigin | mysite/character_generator2.py:113-139 | Scores, modifiers, suitability, sign, throws and a race that is not excluded all satisfy their step's contract. |
| Generator.RollBackground | mysite/character_generator2.py:141-142 | The job comes from the race's occupation table (`JobFromTable`), and the languages have the shape of `LanguagesFollowRules` for the character's intelligence, modifiers, sign and race. |
| Generator.Outfit | mysite/character_generator2.py:140-149 | Earlier fields and the job are carried over unchanged. The money is the funds for the occupation of some 5d12 total in [5, 60]; the equipment is `GetEquipment` for some d24; the hit points are `GetHitPoints` for some d4. Weapon damage, speed, initiative and armour class follow their routines. |
| Generator.Generate | mysite/character_generator2.py:98-149 | Every completed character satisfies `ValidCharacter` under the flags after the all-excluded override. |
| Generator.RollCharacter | mysite/character_generator2.py:123-149 | Every character rolled under given race flags satisfies `ValidCharacter` for those flags: the origin, a job from the table, the language shape, funds, equipment and hit points from some legal roll, and the derived statistics. |
| Generator.ExcludingAllIsExcludingNone | mysite/character_generator2.py:113-116 | Excluding all four races is the same request as excluding none, for every outcome sequence. |
| Generator.ShortbowWithAmmoClassified | mysite/character_generator2.py:299-301 | A shortbow still classifies as a shortbow (1d6, 50/100/150) after its ammunition suffix is added. |
| SheetText.ConvertText | mysite/char_sheet_creator2.py:39-48 | Text longer than one character is kept. A single character gets "+" exactly when signed and not "0", and a space otherwise. |
| SheetText.ConvertInt | mysite/char_sheet_creator2.py:39-48 | Negative and multi-digit numbers pass through untouched. Every result has at least two characters. |
| SheetText.ConvertIntRoundTrip | mysite/char_sheet_creator2.py:39-48 | Stripping one leading space or "+" and parsing gives back the number, for every integer and either flag. |
| SheetText.SpeedShownUnchanged | mysite/char_sheet_creator2.py:89-90 | The speed text is shown unchanged on the sheet. |
| SheetText.Section | mysite/char_sheet_creator2.py:52-58 | "first" selects floor(n/2) items, and any other section the remaining n - floor(n/2). |
| SheetText.SectionsReassemble | mysite/char_sheet_creator2.py:54-58 | The first section followed by the other is exactly the original list. |
| SheetText.ListSplit | mysite/char_sheet_creator2.py:52-62 | The accumulate-and-trim loop equals the reference join with ", ". There is no trailing separator, and an empty selection gives "". |
| SheetText.JoinAppend | mysite/char_sheet_creator2.py:52-62 | For two non-empty halves (a list of at least two items), the two lines joined by ", " are the whole list's line. With an empty half this fails: `["x"]` gives "" and "x", and "" + ", " + "x" is not "x". |
| SheetText.MoneyText | mysite/char_sheet_creator2.py:117-126 | The field is empty exactly when all three amounts are zero. It starts with the highest non-zero denomination, in GP, SP, CP order. A zero denomination does not appear at all. |
| SheetText.MoneyTextRoundTrip | mysite/char_sheet_creator2.py:117-126 | For non-negative money, reading the field back gives the same GP, SP and CP, so the omitted zero denominations lose nothing. |
| SheetText.ReadFieldNeverZero | mysite/char_sheet_creator2.py:117-126 | A field the reader finds under its tag always has a positive amount, so "SP:0" or "SP:05" is refused, matching a writer that only writes non-zero amounts. |
| SheetText.ReadFieldInverse | mysite/char_sheet_creator2.py:117-125 | Whatever one field read accepts is a coin as the writer spells it, followed by the unread rest, so no other spelling of an amount is accepted. |
| SheetText.ReadMoneyOnlyMoneyText | mysite/char_sheet_creator2.py:117-126 | Any line the reader accepts is exactly the money text of what it reads. With `MoneyTextRoundTrip`, the reader accepts exactly the lines the writer produces. |

## Left out

- Reading the rule tables from CSV and text files, the SQLite set-up, the Flask routes,
  the PDF conversion and the SVG tree walk are I/O. The tables are one input value.
- `__str__` is display only.
- The distribution of the dice (uniform faces) is not stated. Outcomes are inputs.
- The original reroll loops have no bound. Termination is not claimed. Each loop is
  modelled over a finite outcome sequence and fails with `OutOfRolls` when the sequence
  runs out.
- Python's `str.lower()` is modelled for ASCII letters only.
- The occupation tables are not required to cover their roll range. A roll past every
  bound leaves `weapon`, `job` and `goods` unassigned, and the source raises at its first
  read of `weapon` (line 300). That case is the `OccupationMiss` failure.
  `PartitionedTableNeverMisses` shows that bounds covering the range (`Tables.Partitions`)
  rule it out.
- The d30 lucky sign, d20 animal, d8 farmer type, d6 cart item and d24 equipment indices
  (d-1, or d20-14) are never negative. The list lengths in `Tables.WellFormed` make sure
  they are also in range, so the `IndexError` a short list would give is not modelled.
- The wizard spell fields are commented out in the source and are not modelled.
- `getOneLanguage` returns None when no row grants on the roll. It is kept as a `None`
  entry in the language list. The sheet writer's `listSplit` would fail to concatenate
  such an entry. `SheetText.ListSplit` is modelled on text items only.
- The rest of the SVG field walk in `writeSVG` is not modelled. This covers the `convertInt` and
  `str()` fields, and also `weapon1` (the weapon name, a space and its damage). It also covers
  `luckySign1`/`luckySign2`, which split the sign on ": " and take parts 0 and 1. The
  walk assumes every sign holds ": "; for a sign without it, `luckySign2` raises `IndexError`.
