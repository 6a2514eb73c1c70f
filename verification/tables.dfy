/**
  The rule tables the engine reads. The source loads them from CSV and text files into
  dictionaries and lists; here they are one immutable value handed to the engine.
*/
module Tables {

  datatype Race = Human | Dwarf | Elf | Halfling

  /** The race's name as the source spells it (also the demi-human language name). */
  function RaceName(r: Race): string {
    match r
    case Human => "Human"
    case Dwarf => "Dwarf"
    case Elf => "Elf"
    case Halfling => "Halfling"
  }

  /** One row of an occupation table: the highest roll it covers and what it grants. */
  datatype OccupationRow = OccupationRow(bound: int, occupation: string, weapon: string, goods: string)

  /** A cell of the language table: `-` (the race cannot learn it) or the highest d100 roll that grants it. */
  datatype Threshold = Ineligible | UpTo(limit: int)

  /** One language with its cell for each of the four races the generator creates. */
  datatype LanguageRow = LanguageRow(name: string, human: Threshold, dwarf: Threshold, elf: Threshold, halfling: Threshold)

  function ThresholdFor(row: LanguageRow, race: Race): Threshold {
    match race
    case Human => row.human
    case Dwarf => row.dwarf
    case Elf => row.elf
    case Halfling => row.halfling
  }

  datatype RuleTables = RuleTables(
    modifiers: map<int, int>,            // ability score -> modifier
    luckSigns: seq<string>,              // "<sign>: <effect>", indexed by d30 - 1
    humanJobs: seq<OccupationRow>,       // rows in file order
    dwarfJobs: seq<OccupationRow>,
    elfJobs: seq<OccupationRow>,
    halflingJobs: seq<OccupationRow>,
    farmerTypes: seq<string>,            // indexed by d8 - 1
    animalTypes: seq<string>,            // indexed by d20 - 14
    cartContents: seq<string>,           // indexed by d6 - 1
    equipment: seq<string>,              // indexed by d24 - 1
    languages: seq<LanguageRow>)         // rows in file order

  function Occupations(t: RuleTables, race: Race): seq<OccupationRow> {
    match race
    case Human => t.humanJobs
    case Dwarf => t.dwarfJobs
    case Elf => t.elfJobs
    case Halfling => t.halflingJobs
  }

  /** The modifier table has an entry for every score three six-sided dice can show. */
  predicate ModifiersCover(m: map<int, int>) {
    forall score :: 3 <= score <= 18 ==> score in m
  }

  /** What the source's indexing needs of the tables so that no legal roll falls off a list. */
  predicate WellFormed(t: RuleTables) {
    && ModifiersCover(t.modifiers)
    && |t.luckSigns| >= 30
    && |t.farmerTypes| >= 8
    && |t.animalTypes| >= 7
    && |t.cartContents| >= 6
    && |t.equipment| >= 24
  }

  /** Bounds strictly ascending, the first at least 1 and the last at least `range`. */
  predicate Partitions(rows: seq<OccupationRow>, range: int) {
    && |rows| > 0
    && rows[0].bound >= 1
    && rows[|rows| - 1].bound >= range
    && forall i, j :: 0 <= i < j < |rows| ==> rows[i].bound < rows[j].bound
  }
}
