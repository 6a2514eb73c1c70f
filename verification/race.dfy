/**
  Race selection with caller exclusions (`getRace` and the all-excluded override at the
  top of the constructor) and the fixed racial traits (`getRacialTraits`).
*/
module RaceSelection {
  import opened Wrappers
  import opened Dice
  import opened Tables

  /** The constructor's `noHuman`, `noDwarf`, `noElf` and `noHalfling` flags. */
  datatype Exclusions = Exclusions(noHuman: bool, noDwarf: bool, noElf: bool, noHalfling: bool)

  predicate Excludes(ex: Exclusions, race: Race) {
    match race
    case Human => ex.noHuman
    case Dwarf => ex.noDwarf
    case Elf => ex.noElf
    case Halfling => ex.noHalfling
  }

  predicate AllExcluded(ex: Exclusions) {
    ex.noHuman && ex.noDwarf && ex.noElf && ex.noHalfling
  }

  /**
    At least one race must stay possible: when every race is excluded the flags are all
    cleared, once, before any die is rolled; otherwise they are kept as given.
  */
  function Normalize(ex: Exclusions): (r: Exclusions)
    ensures !AllExcluded(r)
    ensures forall race :: Excludes(r, race) <==> Excludes(ex, race) && !AllExcluded(ex)
  {
    if AllExcluded(ex) then Exclusions(false, false, false, false) else ex
  }

  /**
    One d10 of the race loop: 1, 2 and 3 give Dwarf, Elf and Halfling when that race is
    allowed; every other roll, and a demi-human roll whose race is excluded, gives Human
    when Human is allowed; None means the loop rolls again.
  */
  function RaceForRoll(roll: int, ex: Exclusions): (r: Option<Race>)
    requires 1 <= roll <= 10
    ensures r.Some? ==> !Excludes(ex, r.value)
    ensures r == Some(Dwarf) <==> roll == 1 && !ex.noDwarf
    ensures r == Some(Elf) <==> roll == 2 && !ex.noElf
    ensures r == Some(Halfling) <==> roll == 3 && !ex.noHalfling
    ensures r == Some(Human) <==> !ex.noHuman && !(roll == 1 && !ex.noDwarf) && !(roll == 2 && !ex.noElf) && !(roll == 3 && !ex.noHalfling)
    ensures r.None? <==> ex.noHuman && (roll == 1 ==> ex.noDwarf) && (roll == 2 ==> ex.noElf) && (roll == 3 ==> ex.noHalfling)
  {
    if roll == 1 && !ex.noDwarf then Some(Dwarf)
    else if roll == 2 && !ex.noElf then Some(Elf)
    else if roll == 3 && !ex.noHalfling then Some(Halfling)
    else if !ex.noHuman then Some(Human)
    else None
  }

  /** `getRace`: roll d10 until a roll gives an allowed race. */
  function SelectRace(ex: Exclusions, stream: seq<int>): (r: Step<Race>)
    ensures r.Ok? ==> !Excludes(ex, r.value.value)
    ensures r.Ok? ==> |r.value.rest| < |stream|
    decreases |stream|
  {
    var d :- Draw(stream, 10);
    match RaceForRoll(d.value, ex)
    case Some(race) => Ok(Drawn(race, d.rest))
    case None => SelectRace(ex, d.rest)
  }

  /** A race is the outcome of some d10 exactly when it is not excluded. */
  lemma RaceReachable(ex: Exclusions, race: Race)
    ensures (exists roll :: 1 <= roll <= 10 && RaceForRoll(roll, ex) == Some(race)) <==> !Excludes(ex, race)
  {
    if !Excludes(ex, race) {
      var roll := match race case Dwarf => 1 case Elf => 2 case Halfling => 3 case Human => 4;
      assert RaceForRoll(roll, ex) == Some(race);
    }
  }

  /** After the override some d10 roll always settles the race loop. */
  lemma NormalizedAdmitsARoll(ex: Exclusions)
    ensures exists roll :: 1 <= roll <= 10 && RaceForRoll(roll, Normalize(ex)).Some?
  {
    var n := Normalize(ex);
    var race := if !n.noHuman then Human else if !n.noDwarf then Dwarf else if !n.noElf then Elf else Halfling;
    RaceReachable(n, race);
  }

  /** With Human allowed the loop never rerolls: the first d10 decides the race. */
  lemma HumanAllowedSettlesAtOnce(ex: Exclusions, stream: seq<int>)
    requires !ex.noHuman
    requires |stream| > 0 && 1 <= stream[0] <= 10
    ensures SelectRace(ex, stream) == Ok(Drawn(RaceForRoll(stream[0], ex).value, stream[1..]))
  {
  }

  /** The loop settles at the first roll that gives an allowed race. */
  lemma {:induction false} SelectRaceSettlesAtFirstAccepted(ex: Exclusions, stream: seq<int>, k: nat)
    requires k < |stream|
    requires forall j :: 0 <= j <= k ==> 1 <= stream[j] <= 10
    requires forall j :: 0 <= j < k ==> RaceForRoll(stream[j], ex).None?
    requires RaceForRoll(stream[k], ex).Some?
    ensures SelectRace(ex, stream) == Ok(Drawn(RaceForRoll(stream[k], ex).value, stream[k + 1..]))
    decreases k
  {
    if k > 0 {
      assert RaceForRoll(stream[0], ex).None?;
      SelectRaceSettlesAtFirstAccepted(ex, stream[1..], k - 1);
      assert stream[1..][k - 1 + 1..] == stream[k + 1..];
    }
  }

  /** `getRacialTraits`: a fixed list per race. */
  function RacialTraits(race: Race): (traits: seq<string>)
    ensures |traits| == 0 <==> race == Human
    ensures race != Human ==> traits[0] == "Infravision"
    ensures "Small size" in traits <==> race == Halfling
    ensures "Underground skills" in traits <==> race == Dwarf
    ensures "Iron vulnerability" in traits <==> race == Elf
  {
    match race
    case Human => []
    case Dwarf => ["Infravision", "Underground skills"]
    case Elf => ["Infravision", "Immune to magic sleep/paralysis", "Heightened senses", "Iron vulnerability"]
    case Halfling => ["Infravision", "Small size"]
  }
}
