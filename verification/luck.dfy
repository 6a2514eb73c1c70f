/**
  The lucky-sign effects. A lucky sign is the text of one row of the luck table; the
  generator adds the luck modifier to a roll whenever the sign contains that roll's
  trigger phrase. The routines test the phrases one by one in if-chains; this module
  collects them into one table, the reference the routines are checked against.
*/
module LuckySigns {
  import opened Text

  /** The rolls a lucky sign can raise. */
  datatype Target = Reflex | Fortitude | Willpower | ExtraLanguages | Speed | Initiative | HitPoints | ArmorClass

  /** Reference definition: trigger phrase, the roll it raises, and how many times luck is added. */
  const Effects: seq<(string, Target, int)> := [
    ("Lucky sign: Saving throws", Reflex, 1),
    ("Lucky sign: Saving throws", Fortitude, 1),
    ("Lucky sign: Saving throws", Willpower, 1),
    ("Struck by lightning", Reflex, 1),
    ("Lived through famine", Fortitude, 1),
    ("Resisted temptation", Willpower, 1),
    ("Birdsong", ExtraLanguages, 1),
    ("Wild child", Speed, 5),
    ("Speed of the cobra", Initiative, 1),
    ("Bountiful harvest", HitPoints, 1),
    ("Charmed house", ArmorClass, 1)
  ]

  /** The luck modifier when the lucky sign contains the trigger, otherwise nothing. */
  function LuckBonus(luckySign: string, trigger: string, luckModifier: int): int {
    if Contains(luckySign, trigger) then luckModifier else 0
  }

  /** The luck the effects from position `from` on add to `target`. */
  function LuckFrom(luckySign: string, target: Target, luckModifier: int, from: nat): int
    requires from <= |Effects|
    decreases |Effects| - from
  {
    if from == |Effects| then 0
    else
      (if Effects[from].1 == target then Effects[from].2 * LuckBonus(luckySign, Effects[from].0, luckModifier) else 0)
      + LuckFrom(luckySign, target, luckModifier, from + 1)
  }

  /** Everything the sign adds to `target`: one share of luck per matching trigger it contains. */
  function SignLuck(luckySign: string, target: Target, luckModifier: int): int {
    LuckFrom(luckySign, target, luckModifier, 0)
  }

  /** The table read target by target, as the generator's if-chains test it. */
  lemma SignLuckByTarget(s: string, l: int)
    ensures SignLuck(s, Reflex, l) == LuckBonus(s, "Lucky sign: Saving throws", l) + LuckBonus(s, "Struck by lightning", l)
    ensures SignLuck(s, Fortitude, l) == LuckBonus(s, "Lucky sign: Saving throws", l) + LuckBonus(s, "Lived through famine", l)
    ensures SignLuck(s, Willpower, l) == LuckBonus(s, "Lucky sign: Saving throws", l) + LuckBonus(s, "Resisted temptation", l)
    ensures SignLuck(s, ExtraLanguages, l) == LuckBonus(s, "Birdsong", l)
    ensures SignLuck(s, Speed, l) == 5 * LuckBonus(s, "Wild child", l)
    ensures SignLuck(s, Initiative, l) == LuckBonus(s, "Speed of the cobra", l)
    ensures SignLuck(s, HitPoints, l) == LuckBonus(s, "Bountiful harvest", l)
    ensures SignLuck(s, ArmorClass, l) == LuckBonus(s, "Charmed house", l)
  {
  }

  /** A sign that contains none of the effects' triggers from position `from` on adds nothing there. */
  lemma {:induction false} NoTriggerFromAddsNothing(luckySign: string, target: Target, luckModifier: int, from: nat)
    requires from <= |Effects|
    requires forall k :: from <= k < |Effects| ==> !Contains(luckySign, Effects[k].0)
    ensures LuckFrom(luckySign, target, luckModifier, from) == 0
    decreases |Effects| - from
  {
    if from < |Effects| {
      NoTriggerFromAddsNothing(luckySign, target, luckModifier, from + 1);
    }
  }

  /** A sign holding no trigger phrase leaves every roll at its luck-free value. */
  lemma UntriggeredSignAddsNothing(luckySign: string, target: Target, luckModifier: int)
    requires forall k :: 0 <= k < |Effects| ==> !Contains(luckySign, Effects[k].0)
    ensures SignLuck(luckySign, target, luckModifier) == 0
  {
    NoTriggerFromAddsNothing(luckySign, target, luckModifier, 0);
  }
}
