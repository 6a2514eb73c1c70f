/**
  The text helpers of the character-sheet writer: `convertInt`, `listSplit` and the money
  line that `writeSVG` builds for the "money" field. Each comes with a reader or a
  reference definition that recovers what was written.
*/
module SheetText {
  import opened Wrappers
  import opened Text
  import opened DerivedStats

  // ---------------------------------------------------------------- convertInt

  /**
    `convertInt` applied to a value whose `str()` is `text`: text longer than one
    character is kept, a single character gets a leading space, or a leading "+" when
    `signed` is set and the character is not "0".
  */
  function ConvertText(text: string, signed: bool): (r: string)
    ensures |text| > 1 ==> r == text
    ensures |text| == 1 ==> |r| == 2 && r[1..] == text
    ensures |text| == 1 ==> (r[0] == '+' <==> signed && text != "0")
    ensures |text| == 1 ==> (r[0] == ' ' <==> !signed || text == "0")
  {
    if |text| > 1 then text
    else if text == "0" || !signed then " " + text
    else "+" + text
  }

  /** `convertInt(n, signed)` for an integer. */
  function ConvertInt(n: int, signed: bool): (r: string)
    ensures n < 0 || n > 9 ==> r == IntToString(n)
    ensures 0 <= n <= 9 && (n == 0 || !signed) ==> r == [' ', DigitChar(n)]
    ensures 1 <= n <= 9 && signed ==> r == ['+', DigitChar(n)]
    ensures |r| >= 2
  {
    var text := IntToString(n);
    assert 0 <= n <= 9 ==> text == [DigitChar(n)] && (n == 0 <==> text == "0");
    ConvertText(text, signed)
  }

  /** Reads a sheet number back: one leading space or plus sign, then an integer. */
  function ReadSheetNumber(s: string): Option<int> {
    if |s| > 0 && (s[0] == ' ' || s[0] == '+') then ParseInt(s[1..]) else ParseInt(s)
  }

  /** Padding or signing never changes the number a sheet field shows. */
  lemma ConvertIntRoundTrip(n: int, signed: bool)
    ensures ReadSheetNumber(ConvertInt(n, signed)) == Some(n)
  {
    var s := ConvertInt(n, signed);
    IntToStringRoundTrip(n);
    if 0 <= n <= 9 {
      assert s[1..] == [DigitChar(n)] == IntToString(n);
    } else {
      assert s[0] == '-' || IsDigit(s[0]);
    }
  }

  /** The speed string already has its apostrophe, so the sheet shows it unchanged. */
  lemma SpeedShownUnchanged(race: Tables.Race, luckySign: string, luckModifier: int)
    ensures ConvertText(GetSpeed(race, luckySign, luckModifier), false) == GetSpeed(race, luckySign, luckModifier)
  {
  }

  // ---------------------------------------------------------------- listSplit

  /** The half of a list `listSplit` shows: the first floor(n/2) items for "first", the rest otherwise. */
  function Section<T>(l: seq<T>, section: string): (r: seq<T>)
    ensures section == "first" ==> |r| == |l| / 2
    ensures section != "first" ==> |r| == |l| - |l| / 2
  {
    if section == "first" then l[..|l| / 2] else l[|l| / 2..]
  }

  /** The two halves together are exactly the original list, whatever the second section is called. */
  lemma SectionsReassemble<T>(l: seq<T>, other: string)
    requires other != "first"
    ensures Section(l, "first") + Section(l, other) == l
  {
  }

  /** Reference definition: items separated by `sep`, with nothing after the last. */
  function Join(items: seq<string>, sep: string): string
    decreases |items|
  {
    if |items| == 0 then ""
    else if |items| == 1 then items[0]
    else Join(items[..|items| - 1], sep) + sep + items[|items| - 1]
  }

  /** `listSplit`: append each item and ", ", then cut the last two characters. */
  method ListSplit(l: seq<string>, section: string) returns (r: string)
    ensures r == Join(Section(l, section), ", ")
    ensures |Section(l, section)| == 0 ==> r == ""
  {
    var theList := Section(l, section);
    var theString := "";
    var i := 0;
    while i < |theList|
      invariant 0 <= i <= |theList|
      invariant i == 0 ==> theString == ""
      invariant i > 0 ==> theString == Join(theList[..i], ", ") + ", "
    {
      assert theList[..i + 1][..i] == theList[..i];
      theString := theString + theList[i] + ", ";
      i := i + 1;
    }
    assert theList[..i] == theList;
    // Python's s[:len(s) - 2] is "" when s is shorter than two characters.
    r := if |theString| >= 2 then theString[..|theString| - 2] else "";
  }

  /**
    For two non-empty halves (a list of at least two items), their lines joined by the
    separator give the whole list's line.
  */
  lemma {:induction false} JoinAppend(a: seq<string>, b: seq<string>, sep: string)
    requires |a| > 0 && |b| > 0
    ensures Join(a + b, sep) == Join(a, sep) + sep + Join(b, sep)
    decreases |b|
  {
    var ab := a + b;
    assert ab[..|ab| - 1] == a + b[..|b| - 1];
    if |b| > 1 {
      JoinAppend(a, b[..|b| - 1], sep);
    } else {
      assert ab[..|ab| - 1] == a;
    }
  }

  // ---------------------------------------------------------------- the money field

  /** One denomination of the money field: "<tag>:<n>" when `n` is non-zero, nothing otherwise. */
  function Coin(tag: string, n: int, spaced: bool): string {
    if n != 0 then tag + ":" + IntToString(n) + (if spaced then " " else "") else ""
  }

  /** A character that is no digit, sign, colon or space, and not in the tag, never occurs in its coin. */
  lemma CoinLacks(tag: string, n: int, spaced: bool, c: char)
    requires c !in tag && c != ':' && c != ' ' && c != '-' && !IsDigit(c)
    ensures c !in Coin(tag, n, spaced)
  {
    if n != 0 {
      var digits := if n < 0 then NatToString(-n) else NatToString(n);
      assert IntToString(n) == (if n < 0 then "-" else "") + digits;
      assert forall i :: 0 <= i < |digits| ==> digits[i] != c;
    }
  }

  /** The "money" field: "GP:<n> ", "SP:<n> ", "CP:<n>" in that order, each only when non-zero. */
  function MoneyText(m: Money): (s: string)
    ensures s == "" <==> m.gp == 0 && m.sp == 0 && m.cp == 0
    ensures m.gp != 0 ==> StartsWith(s, "GP:")
    ensures m.gp == 0 && m.sp != 0 ==> StartsWith(s, "SP:")
    ensures m.gp == 0 && m.sp == 0 && m.cp != 0 ==> s == "CP:" + IntToString(m.cp)
    ensures m.gp == 0 ==> !Contains(s, "GP:")
    ensures m.sp == 0 ==> !Contains(s, "SP:")
    ensures m.cp == 0 ==> !Contains(s, "CP:")
  {
    var gp := Coin("GP", m.gp, true);
    var sp := Coin("SP", m.sp, true);
    var cp := Coin("CP", m.cp, false);
    assert m.gp != 0 ==> (gp + sp + cp)[..3] == "GP:";
    assert m.gp == 0 && m.sp != 0 ==> (gp + sp + cp)[..3] == "SP:";
    assert m.gp == 0 ==> !Contains(gp + sp + cp, "GP:") by {
      if m.gp == 0 {
        CoinLacks("SP", m.sp, true, 'G');
        CoinLacks("CP", m.cp, false, 'G');
        assert 'G' in "GP:";
        MissingCharNotContained(gp + sp + cp, "GP:", 'G');
      }
    }
    assert m.sp == 0 ==> !Contains(gp + sp + cp, "SP:") by {
      if m.sp == 0 {
        CoinLacks("GP", m.gp, true, 'S');
        CoinLacks("CP", m.cp, false, 'S');
        assert 'S' in "SP:";
        MissingCharNotContained(gp + sp + cp, "SP:", 'S');
      }
    }
    assert m.cp == 0 ==> !Contains(gp + sp + cp, "CP:") by {
      if m.cp == 0 {
        CoinLacks("GP", m.gp, true, 'C');
        CoinLacks("SP", m.sp, true, 'C');
        assert 'C' in "CP:";
        MissingCharNotContained(gp + sp + cp, "CP:", 'C');
      }
    }
    gp + sp + cp
  }

  /** Length of the run of digits at the start of `s`. */
  function DigitRun(s: string): (n: nat)
    ensures n <= |s| && AllDigits(s[..n])
    ensures n < |s| ==> !IsDigit(s[n])
    decreases |s|
  {
    if |s| == 0 || !IsDigit(s[0]) then 0
    else
      var k := DigitRun(s[1..]);
      assert s[..k + 1] == [s[0]] + s[1..][..k];
      k + 1
  }

  /** Reads "<tag>:<digits>" (and a space when `spaced`) at the start; an absent tag reads as 0. */
  function ReadField(s: string, tag: string, spaced: bool): Option<(int, string)> {
    if !StartsWith(s, tag + ":") then Some((0, s))
    else
      var body := s[|tag| + 1..];
      var n := DigitRun(body);
      if n == 0 || body[0] == '0' then None  // a written amount is never zero and has no leading zero
      else if !spaced then Some((DigitsValue(body[..n]), body[n..]))
      else if n < |body| && body[n] == ' ' then Some((DigitsValue(body[..n]), body[n + 1..]))
      else None
  }

  /** Reads a money line back; None for text `MoneyText` cannot produce. */
  function ReadMoney(s: string): Option<Money> {
    var gp :- ReadField(s, "GP", true);
    var sp :- ReadField(gp.1, "SP", true);
    var cp :- ReadField(sp.1, "CP", false);
    if cp.1 == "" then Some(Money(gp.0, sp.0, cp.0)) else None
  }

  lemma {:induction false} DigitRunOfDigits(d: string, rest: string)
    requires AllDigits(d)
    requires |rest| == 0 || !IsDigit(rest[0])
    ensures DigitRun(d + rest) == |d|
    decreases |d|
  {
    if |d| > 0 {
      assert (d + rest)[1..] == d[1..] + rest;
      DigitRunOfDigits(d[1..], rest);
    }
  }

  /** The decimal text of a positive number does not start with '0'. */
  lemma {:induction false} NoLeadingZero(n: nat)
    requires n >= 1
    ensures NatToString(n)[0] != '0'
    decreases n
  {
    if n > 9 {
      NoLeadingZero(n / 10);
      assert NatToString(n)[0] == NatToString(n / 10)[0];
    }
  }

  lemma ReadPresentField(tag: string, n: nat, spaced: bool, tail: string)
    requires n != 0
    requires !spaced ==> tail == ""
    ensures ReadField(tag + ":" + NatToString(n) + (if spaced then " " else "") + tail, tag, spaced)
         == Some((n, tail))
  {
    var body := NatToString(n) + (if spaced then " " else "") + tail;
    var s := tag + ":" + NatToString(n) + (if spaced then " " else "") + tail;
    assert s == (tag + ":") + body;
    assert s[..|tag| + 1] == tag + ":";
    assert s[|tag| + 1..] == body;
    ReadAmount(n, spaced, tail);
  }

  /** The digits of a positive amount, then the separator and the rest, read back as the amount. */
  lemma ReadAmount(n: nat, spaced: bool, tail: string)
    requires n != 0
    requires !spaced ==> tail == ""
    ensures var digits := NatToString(n);
      var body := digits + (if spaced then " " else "") + tail;
      && DigitRun(body) == |digits| && |digits| > 0 && body[0] != '0'
      && DigitsValue(body[..|digits|]) == n
      && (spaced ==> |digits| < |body| && body[|digits|] == ' ' && body[|digits| + 1..] == tail)
      && (!spaced ==> body[|digits|..] == "")
  {
    var digits := NatToString(n);
    var after := (if spaced then " " else "") + tail;
    var body := digits + (if spaced then " " else "") + tail;
    assert body == digits + after;
    DigitRunOfDigits(digits, after);
    NoLeadingZero(n);
    assert body[..|digits|] == digits;
    NatToStringRoundTrip(n);
    if spaced {
      assert body[|digits| + 1..] == tail;
    } else {
      assert body[|digits|..] == "";
    }
  }

  /** A coin field written by `Coin` reads back as its value, leaving what follows. */
  lemma ReadCoin(tag: string, n: int, spaced: bool, tail: string)
    requires n >= 0
    requires !spaced ==> tail == ""
    requires !StartsWith(tail, tag + ":")
    ensures ReadField(Coin(tag, n, spaced) + tail, tag, spaced) == Some((n, tail))
  {
    if n != 0 {
      ReadPresentField(tag, n, spaced, tail);
      assert Coin(tag, n, spaced) + tail == tag + ":" + NatToString(n) + (if spaced then " " else "") + tail;
    } else {
      assert Coin(tag, n, spaced) + tail == tail;
    }
  }

  /** Nothing is lost in the money line: non-negative funds are read back exactly. */
  lemma MoneyTextRoundTrip(m: Money)
    requires m.gp >= 0 && m.sp >= 0 && m.cp >= 0
    ensures ReadMoney(MoneyText(m)) == Some(m)
  {
    var cp := Coin("CP", m.cp, false);
    var sp := Coin("SP", m.sp, true);
    var gp := Coin("GP", m.gp, true);
    assert MoneyText(m) == gp + (sp + cp);
    assert cp == "" || cp[0] == 'C';
    assert sp + cp == "" || (sp + cp)[0] == 'S' || (sp + cp)[0] == 'C';
    ReadCoin("CP", m.cp, false, "");
    assert cp + "" == cp;
    ReadCoin("SP", m.sp, true, cp);
    ReadCoin("GP", m.gp, true, sp + cp);
  }

  /** A field the reader finds under its tag is never zero: "SP:0" and "SP:05" are refused. */
  lemma ReadFieldNeverZero(s: string, tag: string, spaced: bool)
    requires StartsWith(s, tag + ":") && ReadField(s, tag, spaced).Some?
    ensures ReadField(s, tag, spaced).value.0 > 0
  {
    var body := s[|tag| + 1..];
    PositiveDigits(body[..DigitRun(body)]);
  }

  /** Whatever the reader accepts is one coin written back exactly, followed by the unread rest. */
  lemma ReadFieldInverse(s: string, tag: string, spaced: bool, n: int, rest: string)
    requires ReadField(s, tag, spaced) == Some((n, rest))
    ensures n >= 0 && s == Coin(tag, n, spaced) + rest
  {
    if StartsWith(s, tag + ":") {
      var body := s[|tag| + 1..];
      var k := DigitRun(body);
      var sep := if spaced then " " else "";
      ReadFieldParts(s, tag, spaced);
      var digits := body[..k];
      assert n == DigitsValue(digits) && rest == body[k + |sep|..];
      CanonicalDigits(digits);
      FieldPieces(s, tag, k, sep);
      CoinSpelledOut(tag, n, spaced, sep, rest);
    }
  }

  /** What the reader saw in a present field: the digits, the separator and the rest. */
  lemma ReadFieldParts(s: string, tag: string, spaced: bool)
    requires StartsWith(s, tag + ":") && ReadField(s, tag, spaced).Some?
    ensures var body := s[|tag| + 1..];
      var k := DigitRun(body);
      var sep := if spaced then " " else "";
      && 0 < k && k + |sep| <= |body| && AllDigits(body[..k]) && body[..k][0] != '0'
      && body[k..k + |sep|] == sep
      && ReadField(s, tag, spaced).value == (DigitsValue(body[..k]), body[k + |sep|..])
  {
  }

  /** A tagged text cut after the tag, after `k` more characters and after the separator. */
  lemma FieldPieces(s: string, tag: string, k: nat, sep: string)
    requires StartsWith(s, tag + ":")
    requires k + |sep| <= |s[|tag| + 1..]| && s[|tag| + 1..][k..k + |sep|] == sep
    ensures var body := s[|tag| + 1..];
      s == tag + ":" + (body[..k] + sep + body[k + |sep|..])
  {
  }

  /** A non-zero coin followed by more text, written out piece by piece. */
  lemma CoinSpelledOut(tag: string, n: nat, spaced: bool, sep: string, rest: string)
    requires n > 0 && sep == (if spaced then " " else "")
    ensures Coin(tag, n, spaced) + rest == tag + ":" + (NatToString(n) + sep + rest)
  {
  }

  /**
    The reader accepts only what the writer produces: a line that reads as some money is
    that money's line, so no zero field, leading zero or reordering gets through.
  */
  lemma ReadMoneyOnlyMoneyText(s: string)
    requires ReadMoney(s).Some?
    ensures MoneyText(ReadMoney(s).value) == s
  {
    var gp := ReadField(s, "GP", true).value;
    var sp := ReadField(gp.1, "SP", true).value;
    var cp := ReadField(sp.1, "CP", false).value;
    assert ReadMoney(s).value == Money(gp.0, sp.0, cp.0) && cp.1 == "";
    ReadFieldInverse(s, "GP", true, gp.0, gp.1);
    ReadFieldInverse(gp.1, "SP", true, sp.0, sp.1);
    ReadFieldInverse(sp.1, "CP", false, cp.0, cp.1);
    MoneyTextIsCoins(Money(gp.0, sp.0, cp.0));
  }

  lemma MoneyTextIsCoins(m: Money)
    ensures MoneyText(m) == Coin("GP", m.gp, true) + (Coin("SP", m.sp, true) + Coin("CP", m.cp, false))
  {
  }
}
