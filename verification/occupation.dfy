/**
  Occupation, trained weapon and trade goods (`getOccupation`): a first-match scan of the
  race's occupation table followed by the ammunition, animal, farmer and cart adjustments.
*/
module OccupationResolution {
  import opened Wrappers
  import opened Dice
  import opened Tables
  import opened Text

  /** The resolved occupation triple. */
  datatype Job = Job(occupation: string, weapon: string, goods: string)

  /** Humans roll d70 on their table, demi-humans d10. */
  function OccupationRange(race: Race): (n: int)
    ensures n == 70 <==> race == Human
    ensures n == 10 <==> race != Human
  {
    if race == Human then 70 else 10
  }

  /** Index of the first row, in table order, whose bound is at least the roll. */
  function FirstCovering(rows: seq<OccupationRow>, roll: int): (r: Option<nat>)
    ensures r.Some? ==> r.value < |rows| && roll <= rows[r.value].bound
    ensures r.Some? ==> forall i :: 0 <= i < r.value ==> rows[i].bound < roll
    ensures r.None? <==> forall i :: 0 <= i < |rows| ==> rows[i].bound < roll
    decreases |rows|
  {
    if |rows| == 0 then None
    else if roll <= rows[0].bound then Some(0)
    else match FirstCovering(rows[1..], roll)
      case None => None
      case Some(i) => Some(i + 1)
  }

  /** On a table that partitions [1, range], every roll in range falls in exactly one row's interval. */
  lemma PartitionSelectsUniqueRow(rows: seq<OccupationRow>, range: int, roll: int)
    requires Partitions(rows, range) && 1 <= roll <= range
    ensures FirstCovering(rows, roll).Some?
    ensures forall i :: 0 <= i < |rows| ==>
      (FirstCovering(rows, roll) == Some(i) <==> (i == 0 || rows[i - 1].bound < roll) && roll <= rows[i].bound)
  {
    assert rows[|rows| - 1].bound >= roll;
  }

  predicate IsMissile(weapon: string) {
    weapon == "Shortbow" || weapon == "Sling"
  }

  /** Occupations whose trade good may be replaced by an animal. */
  predicate HerdsAnimals(job: string) {
    job == "Dwarven herder" || job == "Herder" || job == "Farmer"
  }

  function WithAmmo(weapon: string, count: int): string
    requires 1 <= count <= 6
  {
    weapon + " + " + IntToString(count) + " ammo"
  }

  /** A missile weapon gains " + k ammo" with k from a d6; no other weapon consumes a die. */
  function ArmWeapon(weapon: string, stream: seq<int>): (r: Step<string>)
    ensures r.Ok? && IsMissile(weapon) ==> exists k :: 1 <= k <= 6 && r.value.value == WithAmmo(weapon, k)
    ensures !IsMissile(weapon) ==> r == Ok(Drawn(weapon, stream))
    ensures r.Ok? && IsMissile(weapon) ==>
      |stream| > 0 && 1 <= stream[0] <= 6 && r.value.value == WithAmmo(weapon, stream[0]) && r.value.rest == stream[1..]
  {
    if IsMissile(weapon) then
      var k :- Draw(stream, 6);
      Ok(Drawn(WithAmmo(weapon, k.value), k.rest))
    else Ok(Drawn(weapon, stream))
  }

  /** A herder's or farmer's trade good becomes animal d20 - 14 only on a d20 above 14. */
  function HerdGoods(job: string, goods: string, d20: int, animals: seq<string>): (r: string)
    requires 1 <= d20 <= 20 && |animals| >= 7
    ensures r != goods ==> HerdsAnimals(job) && d20 > 14
    ensures HerdsAnimals(job) && d20 > 14 ==> r == animals[d20 - 14]
    ensures HerdsAnimals(job) ==> r == goods || exists i :: 1 <= i <= 6 && r == animals[i]
  {
    if HerdsAnimals(job) && d20 > 14 then animals[d20 - 14] else goods
  }

  function HerdAnimal(job: string, goods: string, animals: seq<string>, stream: seq<int>): (r: Step<string>)
    requires |animals| >= 7
    ensures r.Ok? && HerdsAnimals(job) ==> r.value.value == goods || exists i :: 1 <= i <= 6 && r.value.value == animals[i]
    ensures !HerdsAnimals(job) ==> r == Ok(Drawn(goods, stream))
    ensures r.Ok? && HerdsAnimals(job) ==>
      |stream| > 0 && 1 <= stream[0] <= 20 && r.value.value == HerdGoods(job, goods, stream[0], animals) && r.value.rest == stream[1..]
  {
    if HerdsAnimals(job) then
      var d :- Draw(stream, 20);
      Ok(Drawn(HerdGoods(job, goods, d.value, animals), d.rest))
    else Ok(Drawn(goods, stream))
  }

  /** A Farmer is relabelled "<type> farmer" with the type from a d8; other jobs keep their name. */
  function FarmerLabel(job: string, farmers: seq<string>, stream: seq<int>): (r: Step<string>)
    requires |farmers| >= 8
    ensures r.Ok? && job == "Farmer" ==> exists i :: 0 <= i < 8 && r.value.value == farmers[i] + " farmer"
    ensures job != "Farmer" ==> r == Ok(Drawn(job, stream))
    ensures r.Ok? && job == "Farmer" ==>
      |stream| > 0 && 1 <= stream[0] <= 8 && r.value.value == farmers[stream[0] - 1] + " farmer" && r.value.rest == stream[1..]
  {
    if job == "Farmer" then
      var d :- Draw(stream, 8);
      Ok(Drawn(farmers[d.value - 1] + " farmer", d.rest))
    else Ok(Drawn(job, stream))
  }

  /** A Wainwright's trade good is "Pushcart full of " and a d6 pick from the cart contents. */
  function CartGoods(job: string, goods: string, carts: seq<string>, stream: seq<int>): (r: Step<string>)
    requires |carts| >= 6
    ensures r.Ok? && job == "Wainwright" ==> exists i :: 0 <= i < 6 && r.value.value == "Pushcart full of " + carts[i]
    ensures r.Ok? && job == "Wainwright" ==> StartsWith(r.value.value, "Pushcart full of ")
    ensures job != "Wainwright" ==> r == Ok(Drawn(goods, stream))
    ensures r.Ok? && job == "Wainwright" ==>
      |stream| > 0 && 1 <= stream[0] <= 6 && r.value.value == "Pushcart full of " + carts[stream[0] - 1] && r.value.rest == stream[1..]
  {
    if job == "Wainwright" then
      var d :- Draw(stream, 6);
      var item := carts[d.value - 1];
      assert ("Pushcart full of " + item)[..17] == "Pushcart full of ";
      Ok(Drawn("Pushcart full of " + item, d.rest))
    else Ok(Drawn(goods, stream))
  }

  /** How a resolved job relates to the table row it came from. */
  predicate JobFollowsRow(t: RuleTables, row: OccupationRow, job: Job)
    requires WellFormed(t)
  {
    && (IsMissile(row.weapon) ==> exists k :: 1 <= k <= 6 && job.weapon == WithAmmo(row.weapon, k))
    && (!IsMissile(row.weapon) ==> job.weapon == row.weapon)
    && (row.occupation == "Farmer" ==> exists i :: 0 <= i < 8 && job.occupation == t.farmerTypes[i] + " farmer")
    && (row.occupation != "Farmer" ==> job.occupation == row.occupation)
    && (row.occupation == "Wainwright" ==> exists i :: 0 <= i < 6 && job.goods == "Pushcart full of " + t.cartContents[i])
    && (HerdsAnimals(row.occupation) ==> job.goods == row.goods || exists i :: 1 <= i <= 6 && job.goods == t.animalTypes[i])
    && (!HerdsAnimals(row.occupation) && row.occupation != "Wainwright" ==> job.goods == row.goods)
  }

  /** The adjustments, drawing their dice in the source's order: ammo, animal, farmer type, cart. */
  function AdjustRow(t: RuleTables, row: OccupationRow, stream: seq<int>): (r: Step<Job>)
    requires WellFormed(t)
    ensures r.Ok? ==> JobFollowsRow(t, row, r.value.value)
    ensures r.Err? ==> r.error.OutOfRolls? || r.error.BadDie?
  {
    var weapon :- ArmWeapon(row.weapon, stream);
    var goods :- HerdAnimal(row.occupation, row.goods, t.animalTypes, weapon.rest);
    var job :- FarmerLabel(row.occupation, t.farmerTypes, goods.rest);
    assert job.value == "Wainwright" <==> row.occupation == "Wainwright" by {
      if row.occupation == "Farmer" {
        var i :| 0 <= i < 8 && job.value == t.farmerTypes[i] + " farmer";
        assert job.value[|job.value| - 1] == 'r';
      }
    }
    var cart :- CartGoods(job.value, goods.value, t.cartContents, job.rest);
    Ok(Drawn(Job(job.value, weapon.value, cart.value), cart.rest))
  }

  /** A row with no special weapon, herding job or cart is taken over unchanged and consumes no die. */
  lemma OrdinaryRowUnchanged(t: RuleTables, row: OccupationRow, stream: seq<int>)
    requires WellFormed(t)
    requires !IsMissile(row.weapon) && !HerdsAnimals(row.occupation) && row.occupation != "Wainwright"
    ensures AdjustRow(t, row, stream) == Ok(Drawn(Job(row.occupation, row.weapon, row.goods), stream))
  {
  }

  /** The job is the adjustment of the first row covering some roll in the race's range. */
  predicate JobFromTable(t: RuleTables, race: Race, job: Job)
    requires WellFormed(t)
  {
    exists roll :: 1 <= roll <= OccupationRange(race) && FirstCovering(Occupations(t, race), roll).Some?
      && JobFollowsRow(t, Occupations(t, race)[FirstCovering(Occupations(t, race), roll).value], job)
  }

  /** `getOccupation`: roll on the race's table, take the first covering row, then adjust it. */
  function ResolveOccupation(t: RuleTables, race: Race, stream: seq<int>): (r: Step<Job>)
    requires WellFormed(t)
    ensures r.Ok? ==> |stream| > 0 && 1 <= stream[0] <= OccupationRange(race)
    ensures r.Ok? ==> FirstCovering(Occupations(t, race), stream[0]).Some?
    ensures r.Ok? ==> JobFollowsRow(t, Occupations(t, race)[FirstCovering(Occupations(t, race), stream[0]).value], r.value.value)
    ensures r.Err? && r.error.OccupationMiss? ==>
      1 <= r.error.roll <= OccupationRange(race)
      && forall i :: 0 <= i < |Occupations(t, race)| ==> Occupations(t, race)[i].bound < r.error.roll
    ensures r.Ok? ==> JobFromTable(t, race, r.value.value)
  {
    var roll :- Draw(stream, OccupationRange(race));
    var rows := Occupations(t, race);
    match FirstCovering(rows, roll.value)
    case None => Err(OccupationMiss(roll.value))
    case Some(i) =>
      var job := AdjustRow(t, rows[i], roll.rest);
      if job.Ok? then
        CoveredJobFromTable(t, race, roll.value, job.value.value);
        job
      else job
  }

  /** A roll in range whose first covering row the job follows witnesses `JobFromTable`. */
  lemma CoveredJobFromTable(t: RuleTables, race: Race, roll: int, job: Job)
    requires WellFormed(t)
    requires 1 <= roll <= OccupationRange(race) && FirstCovering(Occupations(t, race), roll).Some?
    requires JobFollowsRow(t, Occupations(t, race)[FirstCovering(Occupations(t, race), roll).value], job)
    ensures JobFromTable(t, race, job)
  {
  }

  /** A table that partitions its race's range never misses. */
  lemma PartitionedTableNeverMisses(t: RuleTables, race: Race, stream: seq<int>)
    requires WellFormed(t)
    requires Partitions(Occupations(t, race), OccupationRange(race))
    ensures !(ResolveOccupation(t, race, stream).Err? && ResolveOccupation(t, race, stream).error.OccupationMiss?)
  {
    var rows := Occupations(t, race);
    assert rows[|rows| - 1].bound >= OccupationRange(race);
  }
}
