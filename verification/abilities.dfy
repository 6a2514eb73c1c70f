/**
  Ability scores, their modifiers and the suitability gate
  (`rollAbilityScores`, `getAbilityScoreModifiers`, `charIsSuitable` and the reroll loop
  of the constructor).
*/
module AbilityScores {
  import opened Wrappers
  import opened Dice
  import opened Tables

  /** The six abilities in the source's order; used for both scores and modifiers. */
  datatype Abilities = Abilities(strength: int, agility: int, stamina: int, intelligence: int, personality: int, luck: int)

  predicate InScoreRange(a: Abilities) {
    && 3 <= a.strength <= 18
    && 3 <= a.agility <= 18
    && 3 <= a.stamina <= 18
    && 3 <= a.intelligence <= 18
    && 3 <= a.personality <= 18
    && 3 <= a.luck <= 18
  }

  function Total(m: Abilities): int {
    m.strength + m.agility + m.stamina + m.intelligence + m.personality + m.luck
  }

  /** `n` rolls of 3d6 in order; roll `i` reads outcomes 3i to 3i + 2. */
  function RollScores(stream: seq<int>, n: nat): (r: Step<seq<int>>)
    ensures r.Ok? ==> |r.value.value| == n && 3 * n <= |stream| && r.value.rest == stream[3 * n..]
    ensures r.Ok? ==> forall i :: 0 <= i < n ==> 3 <= r.value.value[i] <= 18
    ensures r.Ok? ==> forall i :: 0 <= i < n ==> r.value.value[i] == Sum(stream[3 * i..3 * i + 3])
    decreases n
  {
    if n == 0 then Ok(Drawn([], stream))
    else
      var first :- RollScores(stream, n - 1);
      var last :- Roll(first.rest, 6, 3);
      assert stream[3 * (n - 1)..][..3] == stream[3 * (n - 1)..3 * n];
      assert stream[3 * (n - 1)..][3..] == stream[3 * n..];
      AppendScore(stream, n, first.value, last.value);
      Ok(Drawn(first.value + [last.value], last.rest))
  }

  /** Appending the 3d6 read from outcomes 3(n-1) .. 3n - 1 extends the per-roll facts to n rolls. */
  lemma AppendScore(stream: seq<int>, n: nat, scores: seq<int>, next: int)
    requires 1 <= n && 3 * n <= |stream| && |scores| == n - 1
    requires forall i :: 0 <= i < n - 1 ==> 3 <= scores[i] <= 18 && scores[i] == Sum(stream[3 * i..3 * i + 3])
    requires 3 <= next <= 18 && next == Sum(stream[3 * (n - 1)..3 * n])
    ensures forall i :: 0 <= i < n ==> 3 <= (scores + [next])[i] <= 18
    ensures forall i :: 0 <= i < n ==> (scores + [next])[i] == Sum(stream[3 * i..3 * i + 3])
  {
    var all := scores + [next];
    forall i | 0 <= i < n
      ensures 3 <= all[i] <= 18 && all[i] == Sum(stream[3 * i..3 * i + 3])
    {
      if i < n - 1 {
        assert all[i] == scores[i];
      }
    }
  }

  /** `rollAbilityScores`: six rolls of 3d6, strength first and luck last. */
  function RollAbilities(stream: seq<int>): (r: Step<Abilities>)
    ensures r.Ok? ==> InScoreRange(r.value.value)
    ensures r.Ok? ==> 18 <= |stream| && r.value.rest == stream[18..]
    ensures r.Ok? ==> var a := r.value.value;
      && a.strength == Sum(stream[0..3]) && a.agility == Sum(stream[3..6])
      && a.stamina == Sum(stream[6..9]) && a.intelligence == Sum(stream[9..12])
      && a.personality == Sum(stream[12..15]) && a.luck == Sum(stream[15..18])
  {
    var six :- RollScores(stream, 6);
    var s := six.value;
    assert 3 <= s[0] <= 18 && 3 <= s[1] <= 18 && 3 <= s[2] <= 18;
    assert 3 <= s[3] <= 18 && 3 <= s[4] <= 18 && 3 <= s[5] <= 18;
    Ok(Drawn(Abilities(s[0], s[1], s[2], s[3], s[4], s[5]), six.rest))
  }

  /** Each modifier is the table's entry for the matching score. */
  function Modifiers(table: map<int, int>, scores: Abilities): Abilities
    requires ModifiersCover(table) && InScoreRange(scores)
  {
    Abilities(table[scores.strength], table[scores.agility], table[scores.stamina],
              table[scores.intelligence], table[scores.personality], table[scores.luck])
  }

  /** `charIsSuitable`: the six modifiers add up to at least zero. */
  predicate IsSuitable(m: Abilities) {
    Total(m) >= 0
  }

  /** Scores together with the modifiers the table gives them. */
  datatype Rolled = Rolled(scores: Abilities, modifiers: Abilities)

  /** The constructor's reroll loop: roll six scores until their modifiers are suitable. */
  function RollUntilSuitable(table: map<int, int>, stream: seq<int>): (r: Step<Rolled>)
    requires ModifiersCover(table)
    ensures r.Ok? ==> InScoreRange(r.value.value.scores)
    ensures r.Ok? ==> r.value.value.modifiers == Modifiers(table, r.value.value.scores)
    ensures r.Ok? ==> IsSuitable(r.value.value.modifiers)
    ensures r.Ok? ==> |r.value.rest| <= |stream| - 18
    decreases |stream|
  {
    var attempt :- RollAbilities(stream);
    var mods := Modifiers(table, attempt.value);
    if IsSuitable(mods) then Ok(Drawn(Rolled(attempt.value, mods), attempt.rest))
    else RollUntilSuitable(table, attempt.rest)
  }

  /** The k-th attempt of the reroll loop reads outcomes 18k to 18k + 17. */
  function Attempt(stream: seq<int>, k: nat): Step<Abilities>
    requires 18 * k <= |stream|
  {
    RollAbilities(stream[18 * k..])
  }

  /** An unsuitable first attempt is discarded together with its eighteen outcomes. */
  lemma SkipUnsuitable(table: map<int, int>, stream: seq<int>)
    requires ModifiersCover(table)
    requires RollAbilities(stream).Ok?
    requires !IsSuitable(Modifiers(table, RollAbilities(stream).value.value))
    ensures RollUntilSuitable(table, stream) == RollUntilSuitable(table, stream[18..])
  {
  }

  /** A suitable first attempt ends the loop at once. */
  lemma SuitableFirstAttemptAccepted(table: map<int, int>, stream: seq<int>)
    requires ModifiersCover(table)
    requires RollAbilities(stream).Ok?
    requires IsSuitable(Modifiers(table, RollAbilities(stream).value.value))
    ensures var first := RollAbilities(stream).value.value;
      RollUntilSuitable(table, stream) == Ok(Drawn(Rolled(first, Modifiers(table, first)), stream[18..]))
  {
  }

  /**
    The loop accepts the first attempt whose modifiers are suitable: when attempts
    0 .. k-1 are well-formed but unsuitable and attempt k is suitable, attempt k is the result.
  */
  lemma RollUntilSuitableTakesFirstSuitable(table: map<int, int>, stream: seq<int>, k: nat)
    requires ModifiersCover(table)
    requires 18 * (k + 1) <= |stream|
    requires forall j :: 0 <= j <= k ==> Attempt(stream, j).Ok?
    requires forall j :: 0 <= j < k ==> !IsSuitable(Modifiers(table, Attempt(stream, j).value.value))
    requires IsSuitable(Modifiers(table, Attempt(stream, k).value.value))
    ensures var last := Attempt(stream, k).value.value;
      RollUntilSuitable(table, stream) == Ok(Drawn(Rolled(last, Modifiers(table, last)), stream[18 * (k + 1)..]))
  {
    assert stream[18 * 0..] == stream;
    SettlesFrom(table, stream, k, 0);
  }

  /** A suitable attempt k ends a loop started at attempt k. */
  lemma SettlesAt(table: map<int, int>, stream: seq<int>, k: nat)
    requires ModifiersCover(table)
    requires 18 * (k + 1) <= |stream|
    requires Attempt(stream, k).Ok? && IsSuitable(Modifiers(table, Attempt(stream, k).value.value))
    ensures var last := Attempt(stream, k).value.value;
      RollUntilSuitable(table, stream[18 * k..]) == Ok(Drawn(Rolled(last, Modifiers(table, last)), stream[18 * (k + 1)..]))
  {
    assert stream[18 * k..][18..] == stream[18 * (k + 1)..];
    SuitableFirstAttemptAccepted(table, stream[18 * k..]);
  }

  /** Started at attempt i <= k, the loop runs on to attempt k and settles there. */
  lemma {:induction false} SettlesFrom(table: map<int, int>, stream: seq<int>, k: nat, i: nat)
    requires ModifiersCover(table)
    requires i <= k && 18 * (k + 1) <= |stream|
    requires forall j :: i <= j <= k ==> Attempt(stream, j).Ok?
    requires forall j :: i <= j < k ==> !IsSuitable(Modifiers(table, Attempt(stream, j).value.value))
    requires IsSuitable(Modifiers(table, Attempt(stream, k).value.value))
    ensures var last := Attempt(stream, k).value.value;
      RollUntilSuitable(table, stream[18 * i..]) == Ok(Drawn(Rolled(last, Modifiers(table, last)), stream[18 * (k + 1)..]))
    decreases k - i
  {
    if i == k {
      SettlesAt(table, stream, k);
    } else {
      var here := stream[18 * i..];
      assert here[18..] == stream[18 * (i + 1)..];
      assert Attempt(stream, i).Ok?;
      SkipUnsuitable(table, here);
      SettlesFrom(table, stream, k, i + 1);
    }
  }

  /** What the ability phase of the constructor settles: scores, modifiers and `suitable`. */
  datatype AbilityPhase = AbilityPhase(scores: Abilities, modifiers: Abilities, suitable: Option<bool>)

  /**
    Roll once, or reroll until suitable when `testSuitability` is set. The source only
    assigns `suitable` inside the reroll branch, so it is None when no test was asked for.
  */
  function RollAbilityPhase(testSuitability: bool, table: map<int, int>, stream: seq<int>): (r: Step<AbilityPhase>)
    requires ModifiersCover(table)
    ensures r.Ok? ==> InScoreRange(r.value.value.scores)
    ensures r.Ok? ==> r.value.value.modifiers == Modifiers(table, r.value.value.scores)
    ensures r.Ok? && testSuitability ==> r.value.value.suitable == Some(true) && IsSuitable(r.value.value.modifiers)
    ensures r.Ok? && !testSuitability ==> r.value.value.suitable == None && 18 <= |stream| && r.value.rest == stream[18..]
    ensures !testSuitability ==> (r.Ok? <==> RollAbilities(stream).Ok?)
    ensures r.Ok? && !testSuitability ==> var m := r.value.value.modifiers;
      && m.strength == table[Sum(stream[0..3])] && m.agility == table[Sum(stream[3..6])]
      && m.stamina == table[Sum(stream[6..9])] && m.intelligence == table[Sum(stream[9..12])]
      && m.personality == table[Sum(stream[12..15])] && m.luck == table[Sum(stream[15..18])]
  {
    if testSuitability then
      var accepted :- RollUntilSuitable(table, stream);
      Ok(Drawn(AbilityPhase(accepted.value.scores, accepted.value.modifiers, Some(true)), accepted.rest))
    else
      var once :- RollAbilities(stream);
      Ok(Drawn(AbilityPhase(once.value, Modifiers(table, once.value), None), once.rest))
  }
}
