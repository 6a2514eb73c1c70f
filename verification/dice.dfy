/**
  The dice engine. The source draws every die from Python's random source; here the
  outcomes are an explicit finite sequence that each draw consumes from the front, so a
  generation is a deterministic function of the outcomes it is given.
*/
module Dice {
  import opened Wrappers

  /** Why a generation could not be completed. */
  datatype Failure =
    | OutOfRolls                        // the outcome sequence ran out (a reroll loop did not settle)
    | BadDie(sides: int, face: int)     // an outcome that no die with `sides` faces can show
    | OccupationMiss(roll: int)         // the occupation table has no row whose bound covers the roll

  /** A value together with the outcomes not yet consumed. */
  datatype Drawn<T> = Drawn(value: T, rest: seq<int>)

  type Step<T> = Result<Drawn<T>, Failure>

  /** Reference definition: the sum of a sequence of outcomes. */
  function Sum(s: seq<int>): int
    decreases |s|
  {
    if |s| == 0 then 0 else Sum(s[..|s| - 1]) + s[|s| - 1]
  }

  predicate FacesIn(s: seq<int>, sides: int) {
    forall i :: 0 <= i < |s| ==> 1 <= s[i] <= sides
  }

  /** One throw of a die with `sides` faces. */
  function Draw(stream: seq<int>, sides: int): (r: Step<int>)
    ensures r.Ok? <==> |stream| > 0 && 1 <= stream[0] <= sides
    ensures r.Ok? ==> r.value.value == stream[0] && r.value.rest == stream[1..]
    ensures r.Err? ==> r.error == (if |stream| == 0 then OutOfRolls else BadDie(sides, stream[0]))
  {
    if |stream| == 0 then Err(OutOfRolls)
    else if !(1 <= stream[0] <= sides) then Err(BadDie(sides, stream[0]))
    else Ok(Drawn(stream[0], stream[1..]))
  }

  /** `diceRoll(sides, count)`: the sum of `count` throws of a die with `sides` faces. */
  function Roll(stream: seq<int>, sides: int, count: nat): (r: Step<int>)
    ensures r.Ok? <==> count <= |stream| && FacesIn(stream[..count], sides)
    ensures r.Ok? ==> count <= r.value.value <= count * sides
    ensures r.Ok? ==> r.value.rest == stream[count..]
    ensures r.Ok? ==> r.value.value == Sum(stream[..count])
    decreases count
  {
    if count == 0 then Ok(Drawn(0, stream))
    else
      var first :- Roll(stream, sides, count - 1);
      var last :- Draw(first.rest, sides);
      assert stream[..count][..count - 1] == stream[..count - 1];
      Ok(Drawn(first.value + last.value, last.rest))
  }
}
