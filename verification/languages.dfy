/**
  Languages (`getLanguages` and its inner `getOneLanguage`). A language entry is an
  Option: `getOneLanguage` falls off the end of the table and yields Python's None when
  no row covers the roll, and the source appends that None like any other result.
*/
module LanguageSelection {
  import opened Wrappers
  import opened Dice
  import opened Tables
  import opened Text
  import opened LuckySigns

  predicate NoDuplicates<T(==)>(s: seq<T>) {
    forall i, j :: 0 <= i < j < |s| ==> s[i] != s[j]
  }

  /** A row grants its language to the race on this d100 when its cell is a number at least the roll. */
  predicate Grants(row: LanguageRow, race: Race, roll: int) {
    ThresholdFor(row, race).UpTo? && roll <= ThresholdFor(row, race).limit
  }

  /** A language the race can learn at all, or the None the lookup can produce. */
  predicate Learnable(rows: seq<LanguageRow>, race: Race, lang: Option<string>) {
    lang.None? || exists i :: 0 <= i < |rows| && rows[i].name == lang.value && ThresholdFor(rows[i], race).UpTo?
  }

  /** Index of the first row, in table order, that grants its language on this roll. */
  function FirstGranting(rows: seq<LanguageRow>, race: Race, roll: int): (r: Option<nat>)
    ensures r.Some? ==> r.value < |rows| && Grants(rows[r.value], race, roll)
    ensures r.Some? ==> forall i :: 0 <= i < r.value ==> !Grants(rows[i], race, roll)
    ensures r.None? <==> forall i :: 0 <= i < |rows| ==> !Grants(rows[i], race, roll)
    decreases |rows|
  {
    if |rows| == 0 then None
    else if Grants(rows[0], race, roll) then Some(0)
    else match FirstGranting(rows[1..], race, roll)
      case None => None
      case Some(i) => Some(i + 1)
  }

  /** `getOneLanguage` for a given d100: the first granting row's language, or None. */
  function OneLanguage(rows: seq<LanguageRow>, race: Race, roll: int): (r: Option<string>)
    ensures Learnable(rows, race, r)
    ensures r.None? <==> forall i :: 0 <= i < |rows| ==> !Grants(rows[i], race, roll)
    ensures r.Some? ==> exists i :: 0 <= i < |rows| && rows[i].name == r.value && Grants(rows[i], race, roll)
                                 && forall j :: 0 <= j < i ==> !Grants(rows[j], race, roll)
  {
    match FirstGranting(rows, race, roll)
    case None => None
    case Some(i) => Some(rows[i].name)
  }

  /** A language entry one d100 can produce. */
  predicate RolledLanguage(rows: seq<LanguageRow>, race: Race, lang: Option<string>) {
    exists d :: 1 <= d <= 100 && lang == OneLanguage(rows, race, d)
  }

  /** The inner reroll loop: draw d100s until the language is not one already known. */
  function DrawNewLanguage(rows: seq<LanguageRow>, race: Race, known: seq<Option<string>>, stream: seq<int>): (r: Step<Option<string>>)
    ensures r.Ok? ==> r.value.value !in known
    ensures r.Ok? ==> Learnable(rows, race, r.value.value)
    ensures r.Ok? ==> RolledLanguage(rows, race, r.value.value)
    decreases |stream|
  {
    var d :- Draw(stream, 100);
    var lang := OneLanguage(rows, race, d.value);
    if lang in known then DrawNewLanguage(rows, race, known, d.rest)
    else Ok(Drawn(lang, d.rest))
  }

  /**
    The reroll settles at the first d100 whose language is not yet known: when rolls
    0 .. k-1 give known languages and roll k does not, roll k's language is the result and
    the outcomes after it are left.
  */
  lemma {:induction false} DrawNewLanguageSettlesAtFirstNew(rows: seq<LanguageRow>, race: Race, known: seq<Option<string>>,
                                                           stream: seq<int>, k: nat)
    requires k < |stream|
    requires forall j :: 0 <= j <= k ==> 1 <= stream[j] <= 100
    requires forall j :: 0 <= j < k ==> OneLanguage(rows, race, stream[j]) in known
    requires OneLanguage(rows, race, stream[k]) !in known
    ensures DrawNewLanguage(rows, race, known, stream) == Ok(Drawn(OneLanguage(rows, race, stream[k]), stream[k + 1..]))
    decreases k
  {
    if k > 0 {
      assert OneLanguage(rows, race, stream[0]) in known;
      DrawNewLanguageSettlesAtFirstNew(rows, race, known, stream[1..], k - 1);
      assert stream[1..][k - 1 + 1..] == stream[k + 1..];
    }
  }

  /** The outer loop: append `count` new languages, one reroll loop each; nothing when `count` is not positive. */
  function AddBonusLanguages(rows: seq<LanguageRow>, race: Race, known: seq<Option<string>>, count: int, stream: seq<int>)
    : (r: Step<seq<Option<string>>>)
    ensures r.Ok? ==> |r.value.value| == |known| + (if count > 0 then count else 0)
    ensures r.Ok? ==> r.value.value[..|known|] == known
    ensures r.Ok? ==> forall k :: |known| <= k < |r.value.value| ==> RolledLanguage(rows, race, r.value.value[k])
    ensures r.Ok? && NoDuplicates(known) ==> NoDuplicates(r.value.value)
    ensures count <= 0 ==> r == Ok(Drawn(known, stream))
    decreases if count > 0 then count else 0
  {
    if count <= 0 then Ok(Drawn(known, stream))
    else
      var lang :- DrawNewLanguage(rows, race, known, stream);
      var next := known + [lang.value];
      assert next[..|known|] == known;
      var r := AddBonusLanguages(rows, race, next, count - 1, lang.rest);
      if r.Ok? then
        assert r.value.value[..|known|] == next[..|known|];
        AppendRolled(rows, race, known, lang.value, r.value.value);
        r
      else r
  }

  /** Entries from `|known|` on are rolled when the first of them is and the ones after it are. */
  lemma AppendRolled(rows: seq<LanguageRow>, race: Race, known: seq<Option<string>>, lang: Option<string>,
                     langs: seq<Option<string>>)
    requires RolledLanguage(rows, race, lang)
    requires |known| < |langs| && langs[..|known| + 1] == known + [lang]
    requires forall k :: |known| + 1 <= k < |langs| ==> RolledLanguage(rows, race, langs[k])
    ensures forall k :: |known| <= k < |langs| ==> RolledLanguage(rows, race, langs[k])
  {
    assert langs[|known|] == (known + [lang])[|known|];
  }

  /** How many bonus languages a character rolls: intelligence modifier, plus luck on a "Birdsong" sign. */
  function BonusLanguageCount(intelligenceModifier: int, luckModifier: int, luckySign: string): (n: int)
    ensures n == intelligenceModifier + SignLuck(luckySign, ExtraLanguages, luckModifier)
  {
    SignLuckByTarget(luckySign, luckModifier);
    intelligenceModifier + (if Contains(luckySign, "Birdsong") then luckModifier else 0)
  }

  /** The languages a character starts with before any bonus language. */
  function BaseLanguages(intelligence: int, race: Race): seq<Option<string>> {
    [Some("Common")] + (if race != Human && intelligence >= 8 then [Some(RaceName(race))] else [])
  }

  /**
    The shape every language list `getLanguages` produces: Common first and no repeats;
    Common and Illiterate at intelligence 5 or less, Common alone at 6 or 7; otherwise the
    race's own language second (demi-humans), then one rolled language per point of
    bonus.
  */
  predicate LanguagesFollowRules(intelligence: int, intelligenceModifier: int, luckModifier: int, luckySign: string,
                                 race: Race, rows: seq<LanguageRow>, langs: seq<Option<string>>)
  {
    && |langs| >= 1 && langs[0] == Some("Common")
    && NoDuplicates(langs)
    && (intelligence <= 5 ==> langs == [Some("Common"), Some("Illiterate")])
    && (6 <= intelligence <= 7 ==> langs == [Some("Common")])
    && (intelligence >= 8 && race != Human ==> |langs| >= 2 && langs[1] == Some(RaceName(race)))
    && (intelligence >= 8 ==>
          var bonus := BonusLanguageCount(intelligenceModifier, luckModifier, luckySign);
          |langs| == (if race == Human then 1 else 2) + (if bonus > 0 then bonus else 0))
    && (intelligence >= 8 ==>
          forall k :: (if race == Human then 1 else 2) <= k < |langs| ==> RolledLanguage(rows, race, langs[k]))
  }

  /** `getLanguages`. */
  function Languages(intelligence: int, intelligenceModifier: int, luckModifier: int, luckySign: string,
                     race: Race, rows: seq<LanguageRow>, stream: seq<int>): (r: Step<seq<Option<string>>>)
    ensures intelligence <= 5 ==> r == Ok(Drawn([Some("Common"), Some("Illiterate")], stream))
    ensures 6 <= intelligence <= 7 ==> r == Ok(Drawn([Some("Common")], stream))
    ensures r.Ok? ==> LanguagesFollowRules(intelligence, intelligenceModifier, luckModifier, luckySign, race, rows, r.value.value)
  {
    if intelligence <= 5 then Ok(Drawn([Some("Common"), Some("Illiterate")], stream))
    else if intelligence <= 7 then Ok(Drawn([Some("Common")], stream))
    else
      var base := BaseLanguages(intelligence, race);
      var bonus := BonusLanguageCount(intelligenceModifier, luckModifier, luckySign);
      var r := AddBonusLanguages(rows, race, base, bonus, stream);
      if r.Ok? then
        BonusLanguagesFollowRules(intelligence, intelligenceModifier, luckModifier, luckySign, race, rows, r.value.value);
        r
      else r
  }

  /** A list that extends the base languages by `bonus` new rolled ones has the shape of `getLanguages`. */
  lemma BonusLanguagesFollowRules(intelligence: int, intelligenceModifier: int, luckModifier: int, luckySign: string,
                                  race: Race, rows: seq<LanguageRow>, langs: seq<Option<string>>)
    requires intelligence >= 8
    requires var base := BaseLanguages(intelligence, race);
      var bonus := BonusLanguageCount(intelligenceModifier, luckModifier, luckySign);
      && |langs| == |base| + (if bonus > 0 then bonus else 0)
      && langs[..|base|] == base
      && (forall k :: |base| <= k < |langs| ==> RolledLanguage(rows, race, langs[k]))
      && NoDuplicates(langs)
    ensures LanguagesFollowRules(intelligence, intelligenceModifier, luckModifier, luckySign, race, rows, langs)
  {
    var base := BaseLanguages(intelligence, race);
    assert langs[0] == langs[..|base|][0] == Some("Common");
    if race != Human {
      assert langs[1] == langs[..|base|][1] == Some(RaceName(race));
    }
  }
}
