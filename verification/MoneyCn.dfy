/** Amounts in capital Chinese numerals, web/lib/money-cn.ts, with a reader. The amount is
    an integer of fen, as left by rounding to two decimals. */
module MoneyCn {

  const DIGITS: seq<char> := ['零', '壹', '贰', '叁', '肆', '伍', '陆', '柒', '捌', '玖']
  const POS_UNITS: seq<string> := ["", "拾", "佰", "仟"]
  const SECTION_UNITS: seq<string> := ["", "万", "亿", "万亿"]
  const MAX_INT_DIGITS := 16

  type Digit = d: int | 0 <= d < 10

  function Ten(k: nat): nat { if k == 0 then 1 else 10 * Ten(k - 1) }

  /** The decimal digits of n, without leading zeros but at least one. */
  function Digits(n: nat): (ds: seq<Digit>)
    ensures |ds| > 0
  {
    if n < 10 then [n] else Digits(n / 10) + [n % 10]
  }

  // ---- the printer ----

  /** The loop's variables. */
  datatype Print = Print(out: string, zeroPending: bool, sectionHasValue: bool)

  function PutDigit(p: Print, d: Digit, pos: nat): Print {
    if d == 0 then Print(p.out, true, p.sectionHasValue)
    else
      var out := if p.zeroPending && p.out != "" then p.out + "零" else p.out;
      Print(out + [DIGITS[d]] + POS_UNITS[pos % 4], false, true)
  }

  function CloseSection(p: Print, pos: nat): Print
    requires pos < MAX_INT_DIGITS
  {
    if pos % 4 != 0 then p
    else Print(if p.sectionHasValue then p.out + SECTION_UNITS[pos / 4] else p.out, p.zeroPending, false)
  }

  /** After the first i digits. */
  function Printed(ds: seq<Digit>, i: nat): Print
    requires i <= |ds| <= MAX_INT_DIGITS
  {
    if i == 0 then Print("", false, false)
    else CloseSection(PutDigit(Printed(ds, i - 1), ds[i - 1], |ds| - i), |ds| - i)
  }

  function Fraction(jiao: Digit, fen: Digit, intNonZero: bool): string {
    if jiao == 0 && fen == 0 then if intNonZero then "整" else "零元整"
    else
      (if jiao > 0 then [DIGITS[jiao], '角'] else "")
      + (if fen > 0 then (if jiao == 0 && intNonZero then "零" else "") + [DIGITS[fen], '分'] else "")
  }

  function Abs(x: int): nat { if x < 0 then -x else x }

  function Integer(n: nat): string
    requires |Digits(n)| <= MAX_INT_DIGITS
  {
    if n == 0 then "" else Printed(Digits(n), |Digits(n)|).out + "元"
  }

  function Text(fen: int): string {
    var n := Abs(fen) / 100;
    if |Digits(n)| > MAX_INT_DIGITS then ""
    else (if fen < 0 then "负" else "") + (Integer(n) + Fraction(Abs(fen) % 100 / 10, Abs(fen) % 10, n != 0))
  }

  lemma PrintedStep(ds: seq<Digit>, i: nat)
    requires i < |ds| <= MAX_INT_DIGITS
    ensures Printed(ds, i + 1) == CloseSection(PutDigit(Printed(ds, i), ds[i], |ds| - 1 - i), |ds| - 1 - i)
  {
  }

  lemma PrintedNone(ds: seq<Digit>)
    requires |ds| <= MAX_INT_DIGITS
    ensures Printed(ds, 0) == Print("", false, false)
  {
  }

  /** The loop over the integer digits. */
  method PrintInteger(intPart: seq<Digit>) returns (out: string)
    requires |intPart| <= MAX_INT_DIGITS
    ensures out == Printed(intPart, |intPart|).out
  {
    hide Printed;
    out := "";
    var zeroPending, sectionHasValue := false, false;
    PrintedNone(intPart);
    var i := 0;
    while i < |intPart|
      invariant 0 <= i <= |intPart|
      invariant Print(out, zeroPending, sectionHasValue) == Printed(intPart, i)
    {
      var pos := |intPart| - 1 - i;
      var d := intPart[i];
      PrintedStep(intPart, i);
      if d == 0 {
        zeroPending := true;
      } else {
        if zeroPending && out != "" {
          out := out + "零";
        }
        zeroPending := false;
        out := out + [DIGITS[d]] + POS_UNITS[pos % 4];
        sectionHasValue := true;
      }
      if pos % 4 == 0 {
        if sectionHasValue {
          out := out + SECTION_UNITS[pos / 4];
        }
        sectionHasValue := false;
      }
      i := i + 1;
    }
  }

  method MoneyToChinese(fen: int) returns (text: string)
    ensures text == Text(fen)
  {
    hide Printed, Digits;
    var negative := fen < 0;
    var amount := if fen < 0 then -fen else fen;
    var intPart := Digits(amount / 100);
    if |intPart| > MAX_INT_DIGITS {
      return "";
    }
    var intNonZero := amount / 100 != 0;
    var out := "";
    if intNonZero {
      out := PrintInteger(intPart);
      out := out + "元";
    }
    var jiao, cents := amount % 100 / 10, amount % 10;
    var tail := "";
    if jiao == 0 && cents == 0 {
      tail := if intNonZero then "整" else "零元整";
    } else {
      if jiao > 0 {
        tail := tail + [DIGITS[jiao], '角'];
      }
      if cents > 0 {
        tail := tail + ((if jiao == 0 && intNonZero then "零" else "") + [DIGITS[cents], '分']);
      }
    }
    assert tail == Fraction(jiao, cents, intNonZero);
    text := (if negative then "负" else "") + (out + tail);
  }

  // ---- where each 零 and each unit stands ----

  /** One of the digits of i's group of four, up to i, is not zero. */
  predicate GroupHasValue(ds: seq<Digit>, i: nat)
    requires i < |ds|
  {
    exists j :: 0 <= j <= i && (|ds| - 1 - j) / 4 == (|ds| - 1 - i) / 4 && ds[j] != 0
  }

  /** What digit i adds: its name and unit, after 零 exactly if the digit before it is zero, and
      the unit of a finished group that has a value. */
  function Piece(ds: seq<Digit>, i: nat): string
    requires i < |ds| <= MAX_INT_DIGITS
  {
    var pos := |ds| - 1 - i;
    (if ds[i] == 0 then ""
     else (if i > 0 && ds[i - 1] == 0 then "零" else "") + [DIGITS[ds[i]]] + POS_UNITS[pos % 4])
    + (if pos % 4 == 0 && GroupHasValue(ds, i) then SECTION_UNITS[pos / 4] else "")
  }

  function Pieces(ds: seq<Digit>, i: nat): string
    requires i <= |ds| <= MAX_INT_DIGITS
  {
    if i == 0 then "" else Pieces(ds, i - 1) + Piece(ds, i - 1)
  }

  /** The flags of the loop are what the digits before i say. */
  predicate FlagsTell(p: Print, ds: seq<Digit>, i: nat)
    requires i <= |ds|
  {
    && (p.zeroPending <==> i > 0 && ds[i - 1] == 0)
    && (i > 0 ==> p.out != "")
    && (p.sectionHasValue <==> i > 0 && (|ds| - i) % 4 != 0 && GroupHasValue(ds, i - 1))
  }

  lemma PutPiece(p: Print, ds: seq<Digit>, i: nat)
    requires i < |ds| <= MAX_INT_DIGITS && ds[0] != 0 && FlagsTell(p, ds, i)
    ensures var pos := |ds| - 1 - i; var q := PutDigit(p, ds[i], pos);
      && q.out == p.out + (if ds[i] == 0 then "" else (if i > 0 && ds[i - 1] == 0 then "零" else "") + [DIGITS[ds[i]]] + POS_UNITS[pos % 4])
      && (q.zeroPending <==> ds[i] == 0) && (q.sectionHasValue <==> p.sectionHasValue || ds[i] != 0)
  {
    hide GroupHasValue;
  }

  lemma ClosePiece(p: Print, q: Print, ds: seq<Digit>, i: nat)
    requires i < |ds| <= MAX_INT_DIGITS && ds[0] != 0 && FlagsTell(p, ds, i)
    requires q == PutDigit(p, ds[i], |ds| - 1 - i)
    ensures q.sectionHasValue <==> GroupHasValue(ds, i)
    ensures var r := CloseSection(q, |ds| - 1 - i);
      r.out == p.out + Piece(ds, i) && FlagsTell(r, ds, i + 1)
  {
    hide GroupHasValue, PutDigit;
    PutPiece(p, ds, i);
    GroupNext(ds, i);
    NotEmpty(p, q, ds, i);
  }

  lemma NotEmpty(p: Print, q: Print, ds: seq<Digit>, i: nat)
    requires i < |ds| <= MAX_INT_DIGITS && ds[0] != 0 && FlagsTell(p, ds, i)
    requires q == PutDigit(p, ds[i], |ds| - 1 - i)
    ensures q.out != ""
  {
    hide GroupHasValue;
  }

  lemma GroupNext(ds: seq<Digit>, i: nat)
    requires i < |ds|
    ensures GroupHasValue(ds, i) <==> ds[i] != 0 || (i > 0 && (|ds| - i) % 4 != 0 && GroupHasValue(ds, i - 1))
  {
    if ds[i] != 0 {
      assert (|ds| - 1 - i) / 4 == (|ds| - 1 - i) / 4;
    }
    SameGroup(|ds| - 1 - i);
    if i > 0 && GroupHasValue(ds, i - 1) && (|ds| - i) % 4 != 0 {
      var j :| 0 <= j <= i - 1 && (|ds| - 1 - j) / 4 == (|ds| - i) / 4 && ds[j] != 0;
      assert (|ds| - 1 - j) / 4 == (|ds| - 1 - i) / 4;
    }
    if GroupHasValue(ds, i) && ds[i] == 0 {
      var j :| 0 <= j <= i && (|ds| - 1 - j) / 4 == (|ds| - 1 - i) / 4 && ds[j] != 0;
      GroupSpan(|ds| - 1 - j, |ds| - i, |ds| - 1 - i);
    }
  }

  lemma SameGroup(pos: nat)
    ensures (pos + 1) % 4 != 0 <==> (pos + 1) / 4 == pos / 4
  {
  }

  lemma GroupSpan(a: nat, b: nat, c: nat)
    requires a >= b >= c && a / 4 == c / 4
    ensures b / 4 == a / 4
  {
  }

  lemma {:induction false} PrintedIsPieces(ds: seq<Digit>, i: nat)
    requires i <= |ds| <= MAX_INT_DIGITS && ds != [] && ds[0] != 0
    ensures Printed(ds, i).out == Pieces(ds, i) && FlagsTell(Printed(ds, i), ds, i)
  {
    hide GroupHasValue, Printed, Piece, PutDigit, CloseSection;
    PrintedNone(ds);
    if i > 0 {
      PrintedIsPieces(ds, i - 1);
      PrintedStep(ds, i - 1);
      var p := Printed(ds, i - 1);
      ClosePiece(p, PutDigit(p, ds[i - 1], |ds| - i), ds, i - 1);
    }
  }

  lemma {:induction false} FirstDigit(n: nat)
    requires n > 0
    ensures Digits(n)[0] != 0
  {
    if n >= 10 {
      FirstDigit(n / 10);
    }
  }

  /** The integer part of every amount, piece by piece. */
  lemma IntegerIsPieces(n: nat)
    requires n > 0 && |Digits(n)| <= MAX_INT_DIGITS
    ensures Integer(n) == Pieces(Digits(n), |Digits(n)|) + "元"
  {
    hide Printed, Digits, Pieces;
    FirstDigit(n);
    PrintedIsPieces(Digits(n), |Digits(n)|);
  }

  /** The fraction: 整 for whole amounts, and 零 before 分 exactly after a yuan part without jiao. */
  lemma FractionTexts(n: nat, jiao: Digit, fen: Digit)
    ensures jiao == 0 && fen == 0 ==> Fraction(jiao, fen, n != 0) == if n == 0 then "零元整" else "整"
    ensures jiao > 0 && fen == 0 ==> Fraction(jiao, fen, n != 0) == [DIGITS[jiao]] + "角"
    ensures jiao > 0 && fen > 0 ==> Fraction(jiao, fen, n != 0) == [DIGITS[jiao]] + "角" + [DIGITS[fen]] + "分"
    ensures jiao == 0 && fen > 0 && n > 0 ==> Fraction(jiao, fen, n != 0) == "零" + [DIGITS[fen]] + "分"
    ensures jiao == 0 && fen > 0 && n == 0 ==> Fraction(jiao, fen, n != 0) == [DIGITS[fen]] + "分"
  {
  }

  // ---- the reader ----

  /** Closed sections, the open section, the last digit without a unit, and the fen. */
  datatype Reading = Reading(total: nat, section: nat, digit: nat, fen: nat, negative: bool)

  const NOTHING := Reading(0, 0, 0, 0, false)

  /** Reads one character as a person does; 亿 right after 万 turns that section into 万亿. */
  function ReadChar(r: Reading, c: char): Reading {
    if c in DIGITS then
      if c == '零' then r else Reading(r.total, r.section, IndexOf(c), r.fen, r.negative)
    else if c == '拾' then Reading(r.total, r.section + 10 * r.digit, 0, r.fen, r.negative)
    else if c == '佰' then Reading(r.total, r.section + 100 * r.digit, 0, r.fen, r.negative)
    else if c == '仟' then Reading(r.total, r.section + 1000 * r.digit, 0, r.fen, r.negative)
    else if c == '万' then Reading(r.total + 10000 * (r.section + r.digit), 0, 0, r.fen, r.negative)
    else if c == '亿' then
      if r.section + r.digit == 0 then Reading(100000000 * r.total, 0, 0, r.fen, r.negative)
      else Reading(r.total + 100000000 * (r.section + r.digit), 0, 0, r.fen, r.negative)
    else if c == '元' then Reading(0, 0, 0, 100 * (r.total + r.section + r.digit), r.negative)
    else if c == '角' then Reading(r.total, r.section, 0, r.fen + 10 * r.digit, r.negative)
    else if c == '分' then Reading(r.total, r.section, 0, r.fen + r.digit, r.negative)
    else if c == '负' then Reading(r.total, r.section, r.digit, r.fen, true)
    else r
  }

  function IndexOf(c: char): Digit {
    if c == '壹' then 1 else if c == '贰' then 2 else if c == '叁' then 3 else if c == '肆' then 4
    else if c == '伍' then 5 else if c == '陆' then 6 else if c == '柒' then 7 else if c == '捌' then 8
    else if c == '玖' then 9 else 0
  }

  function ReadAll(r: Reading, text: string): Reading
    decreases |text|
  {
    if text == "" then r else ReadAll(ReadChar(r, text[0]), text[1..])
  }

  function Read(text: string): int {
    var r := ReadAll(NOTHING, text);
    var fen: int := r.fen;
    if r.negative then -fen else fen
  }

  // ---- reading what was printed ----

  lemma {:induction false} ReadAppend(r: Reading, a: string, b: string)
    ensures ReadAll(r, a + b) == ReadAll(ReadAll(r, a), b)
    decreases |a|
  {
    hide ReadChar;
    if a == "" {
      assert a + b == b;
    } else {
      assert (a + b)[1..] == a[1..] + b;
      ReadAppend(ReadChar(r, a[0]), a[1..], b);
    }
  }

  lemma ReadOne(r: Reading, c: char)
    ensures ReadAll(r, [c]) == ReadChar(r, c)
  {
    hide ReadChar;
    assert [c][1..] == "";
  }

  lemma ReadDigit(r: Reading, d: Digit)
    requires d > 0
    ensures ReadChar(r, DIGITS[d]) == Reading(r.total, r.section, d, r.fen, r.negative)
  {
  }

  lemma ReadUnit(r: Reading, k: nat)
    requires k < 4
    ensures ReadAll(r, POS_UNITS[k]) ==
      if k == 0 then r else Reading(r.total, r.section + r.digit * Ten(k), 0, r.fen, r.negative)
  {
    hide ReadAll, Ten;
    Tens();
    if k == 0 {
      ReadNone(r);
    } else {
      ReadOne(r, POS_UNITS[k][0]);
      assert POS_UNITS[k] == [POS_UNITS[k][0]];
    }
  }

  lemma ReadNone(r: Reading)
    ensures ReadAll(r, "") == r
  {
  }

  lemma Tens()
    ensures Ten(0) == 1 && Ten(1) == 10 && Ten(2) == 100 && Ten(3) == 1000
    ensures Ten(4) == 10000 && Ten(8) == 100000000 && Ten(12) == 1000000000000
  {
    assert Ten(3) == 1000;
    assert Ten(4) == 10000;
    assert Ten(8) == 100000000;
  }

  lemma ReadWan(r: Reading)
    ensures ReadChar(r, '万') == Reading(r.total + 10000 * (r.section + r.digit), 0, 0, r.fen, r.negative)
  {
  }

  lemma ReadYi(r: Reading)
    ensures ReadChar(r, '亿') ==
      Reading(if r.section + r.digit == 0 then 100000000 * r.total else r.total + 100000000 * (r.section + r.digit),
              0, 0, r.fen, r.negative)
  {
  }

  /** Reading a section unit closes the section; 万亿 is only ever the first unit. */
  lemma ReadSection(r: Reading, s: nat)
    requires s < 4 && r.section + r.digit > 0 && (s == 3 ==> r.total == 0)
    ensures ReadAll(r, SECTION_UNITS[s]) ==
      if s == 0 then r else Reading(r.total + (r.section + r.digit) * Ten(4 * s), 0, 0, r.fen, r.negative)
  {
    hide ReadAll, ReadChar, Ten;
    Tens();
    if s == 0 {
      ReadNone(r);
    } else if s == 3 {
      ReadAppend(r, "万", "亿");
      ReadOne(r, '万');
      ReadWan(r);
      ReadOne(ReadChar(r, '万'), '亿');
      ReadYi(ReadChar(r, '万'));
      assert SECTION_UNITS[3] == "万" + "亿";
    } else if s == 1 {
      ReadOne(r, '万');
      ReadWan(r);
    } else {
      ReadOne(r, '亿');
      ReadYi(r);
    }
  }

  /** The value of the first i digits, each in its place. */
  function Value(ds: seq<Digit>, i: nat): nat
    requires i <= |ds|
  {
    if i == 0 then 0 else Value(ds, i - 1) + ds[i - 1] * Ten(|ds| - i)
  }

  lemma PlaceUp(d: Digit, k: nat)
    ensures d * Ten(k + 1) == 10 * (d * Ten(k))
  {
    var t := Ten(k);
    assert d * (10 * t) == 10 * (d * t);
  }

  lemma {:induction false} ValueAppend(ds: seq<Digit>, d: Digit, i: nat)
    requires i <= |ds|
    ensures Value(ds + [d], i) == 10 * Value(ds, i)
  {
    hide Ten;
    if i > 0 {
      ValueAppend(ds, d, i - 1);
      PlaceUp(ds[i - 1], |ds| - i);
    }
  }

  lemma {:induction false} DigitsValue(n: nat)
    ensures Value(Digits(n), |Digits(n)|) == n
  {
    if n < 10 {
      assert Ten(0) == 1 && Value([n], 0) == 0;
    } else {
      var ds, d := Digits(n / 10), n % 10;
      DigitsValue(n / 10);
      ValueAppend(ds, d, |ds|);
      assert Digits(n) == ds + [d] && (ds + [d])[|ds|] == d && Ten(0) == 1;
    }
  }

  /** The reader within section s, when v is the value printed so far. */
  predicate Mid(r: Reading, hasValue: bool, s: nat, v: nat) {
    && r.digit == 0 && (hasValue <==> r.section > 0)
    && r.total + r.section * Ten(4 * s) == v && (s == 3 ==> r.total == 0)
  }

  /** The reader after digit k of section s, before the section may close. */
  predicate Full(r: Reading, hasValue: bool, k: nat, s: nat, v: nat) {
    && (k > 0 ==> r.digit == 0) && (hasValue <==> r.section + r.digit > 0)
    && r.total + (r.section + r.digit) * Ten(4 * s) == v && (s == 3 ==> r.total == 0)
  }

  lemma {:induction false} TenSum(a: nat, b: nat)
    ensures Ten(a + b) == Ten(a) * Ten(b)
  {
    hide Ten;
    if a == 0 {
      TenNothing();
    } else {
      TenSum(a - 1, b);
      TenNext(a - 1);
      TenNext(a - 1 + b);
      TenTimes(Ten(a - 1), Ten(b));
    }
  }

  lemma TenNothing()
    ensures Ten(0) == 1
  {
  }

  lemma TenNext(a: nat)
    ensures Ten(a + 1) == 10 * Ten(a)
  {
  }

  lemma TenTimes(x: nat, y: nat)
    ensures 10 * (x * y) == (10 * x) * y
  {
  }

  /** d in place k of section s adds d * 10^(4s+k). */
  lemma AddPlace(section: nat, d: nat, k: nat, s: nat)
    ensures (section + d * Ten(k)) * Ten(4 * s) == section * Ten(4 * s) + d * Ten(4 * s + k)
  {
    hide Ten;
    TenSum(k, 4 * s);
    var x, y := Ten(k), Ten(4 * s);
    Distribute(section, d, x, y);
  }

  lemma Distribute(a: nat, d: nat, x: nat, y: nat)
    ensures (a + d * x) * y == a * y + d * (x * y)
  {
  }

  function WithDigit(r: Reading, d: Digit, k: nat): Reading {
    if d == 0 then r
    else if k == 0 then Reading(r.total, r.section, d, r.fen, r.negative)
    else Reading(r.total, r.section + d * Ten(k), 0, r.fen, r.negative)
  }

  /** What reading the characters of one digit does. */
  lemma ReadPut(start: Reading, p: Print, d: Digit, pos: nat)
    ensures ReadAll(start, PutDigit(p, d, pos).out) == WithDigit(ReadAll(start, p.out), d, pos % 4)
  {
    hide ReadAll, ReadChar, Ten;
    if d != 0 {
      var r := ReadAll(start, p.out);
      var head := if p.zeroPending && p.out != "" then p.out + "零" else p.out;
      ReadAppend(start, p.out, "零");
      ReadOne(r, '零');
      ReadZero(r);
      assert ReadAll(start, head) == r;
      ReadAppend(start, head, [DIGITS[d]]);
      ReadOne(r, DIGITS[d]);
      ReadDigit(r, d);
      ReadAppend(start, head + [DIGITS[d]], POS_UNITS[pos % 4]);
      ReadUnit(ReadChar(r, DIGITS[d]), pos % 4);
    }
  }

  lemma ReadZero(r: Reading)
    ensures ReadChar(r, '零') == r
  {
  }

  lemma MidToFull(r: Reading, hasValue: bool, d: Digit, k: nat, s: nat, v: nat)
    requires Mid(r, hasValue, s, v) && d > 0
    ensures Full(WithDigit(r, d, k), true, k, s, v + d * Ten(4 * s + k))
  {
    hide Ten;
    AddPlace(r.section, d, k, s);
    TenPositive(k);
    Positive(d, Ten(k));
    var x := d * Ten(k);
    if k == 0 {
      Tens();
      assert x == d;
    }
  }

  lemma PutStep(start: Reading, p: Print, d: Digit, pos: nat, v: nat)
    requires Mid(ReadAll(start, p.out), p.sectionHasValue, pos / 4, v)
    ensures var q := PutDigit(p, d, pos);
      Full(ReadAll(start, q.out), q.sectionHasValue, pos % 4, pos / 4, v + d * Ten(pos))
  {
    hide ReadAll, ReadChar, Ten, WithDigit, Mid, Full;
    var k, s := pos % 4, pos / 4;
    Place(pos);
    ReadPut(start, p, d, pos);
    var r := ReadAll(start, p.out);
    if d > 0 {
      MidToFull(r, p.sectionHasValue, d, k, s, v);
    } else {
      SameReading(r, k);
      MidIsFull(r, p.sectionHasValue, k, s, v);
      assert 0 * Ten(pos) == 0;
    }
  }

  lemma Place(pos: nat)
    ensures 4 * (pos / 4) + pos % 4 == pos
  {
  }

  lemma MidIsFull(r: Reading, hasValue: bool, k: nat, s: nat, v: nat)
    requires Mid(r, hasValue, s, v)
    ensures Full(r, hasValue, k, s, v)
  {
    hide Ten;
  }

  lemma SameReading(r: Reading, k: nat)
    ensures WithDigit(r, 0, k) == r
  {
  }

  lemma TenPositive(k: nat)
    ensures Ten(k) > 0
  {
  }

  lemma Positive(d: nat, x: nat)
    requires d > 0 && x > 0
    ensures d * x > 0
  {
  }

  /** The reader between digits: p places are still to come. */
  predicate Between(r: Reading, hasValue: bool, p: nat, v: nat) {
    if p == 0 then r.total + r.section + r.digit == v else Mid(r, hasValue, (p - 1) / 4, v)
  }

  /** Integer digits and units touch neither the fen nor the sign. */
  lemma {:induction false} PrintedKeeps(ds: seq<Digit>, i: nat, start: Reading)
    requires i <= |ds| <= MAX_INT_DIGITS
    ensures Keeps(start, Printed(ds, i).out)
  {
    hide ReadAll, ReadChar, Ten, PutDigit, CloseSection, Printed, Keeps;
    if i == 0 {
      PrintedNone(ds);
      KeepsNone(start);
    } else {
      PrintedKeeps(ds, i - 1, start);
      PrintedStep(ds, i - 1);
      PutKeeps(start, Printed(ds, i - 1), ds[i - 1], |ds| - i);
      CloseKeeps(start, PutDigit(Printed(ds, i - 1), ds[i - 1], |ds| - i), |ds| - i);
    }
  }

  predicate Keeps(start: Reading, text: string) {
    ReadAll(start, text).fen == start.fen && ReadAll(start, text).negative == start.negative
  }

  lemma KeepsNone(start: Reading)
    ensures Keeps(start, "")
  {
  }

  lemma PutKeeps(start: Reading, p: Print, d: Digit, pos: nat)
    requires Keeps(start, p.out)
    ensures Keeps(start, PutDigit(p, d, pos).out)
  {
    hide ReadAll, ReadChar, Ten, PutDigit;
    ReadPut(start, p, d, pos);
  }

  lemma CloseKeeps(start: Reading, p: Print, pos: nat)
    requires pos < MAX_INT_DIGITS && Keeps(start, p.out)
    ensures Keeps(start, CloseSection(p, pos).out)
  {
    hide ReadAll, ReadChar, Ten;
    if pos % 4 == 0 && p.sectionHasValue {
      ReadAppend(start, p.out, SECTION_UNITS[pos / 4]);
      SectionKeeps(ReadAll(start, p.out), pos / 4);
    }
  }

  lemma SectionKeeps(r: Reading, s: nat)
    requires s < 4
    ensures ReadAll(r, SECTION_UNITS[s]).fen == r.fen && ReadAll(r, SECTION_UNITS[s]).negative == r.negative
  {
    hide ReadAll, ReadChar;
    if s == 0 {
      ReadNone(r);
    } else if s == 1 {
      ReadOne(r, '万');
      ReadWan(r);
    } else if s == 2 {
      ReadOne(r, '亿');
      ReadYi(r);
    } else {
      ReadAppend(r, "万", "亿");
      ReadOne(r, '万');
      ReadWan(r);
      ReadOne(ReadChar(r, '万'), '亿');
      ReadYi(ReadChar(r, '万'));
      assert SECTION_UNITS[3] == "万" + "亿";
    }
  }

  lemma CloseStep(start: Reading, p: Print, pos: nat, v: nat)
    requires pos < MAX_INT_DIGITS && Full(ReadAll(start, p.out), p.sectionHasValue, pos % 4, pos / 4, v)
    ensures var q := CloseSection(p, pos); Between(ReadAll(start, q.out), q.sectionHasValue, pos, v)
  {
    hide ReadAll, ReadChar, Ten;
    Tens();
    if pos % 4 == 0 && p.sectionHasValue {
      ReadAppend(start, p.out, SECTION_UNITS[pos / 4]);
      ReadSection(ReadAll(start, p.out), pos / 4);
    }
  }

  /** The loop keeps the reader at the value of the digits printed. */
  lemma {:induction false} PrintedReads(ds: seq<Digit>, i: nat, start: Reading)
    requires i <= |ds| <= MAX_INT_DIGITS && start == Reading(0, 0, 0, 0, start.negative)
    ensures var p := Printed(ds, i); Between(ReadAll(start, p.out), p.sectionHasValue, |ds| - i, Value(ds, i))
  {
    hide ReadAll, ReadChar, Ten, Full, Mid, PutDigit, CloseSection;
    if i == 0 {
      PrintedNone(ds);
      ReadNone(start);
      NothingYet(start, |ds|);
    } else {
      PrintedReads(ds, i - 1, start);
      var p, pos, d := Printed(ds, i - 1), |ds| - i, ds[i - 1];
      PutStep(start, p, d, pos, Value(ds, i - 1));
      CloseStep(start, PutDigit(p, d, pos), pos, Value(ds, i));
    }
  }

  lemma NothingYet(start: Reading, n: nat)
    requires start == Reading(0, 0, 0, 0, start.negative)
    ensures Between(start, false, n, 0)
  {
  }

  lemma IntegerReads(n: nat, negative: bool)
    requires |Digits(n)| <= MAX_INT_DIGITS
    ensures ReadAll(Reading(0, 0, 0, 0, negative), Integer(n)) == Reading(0, 0, 0, 100 * n, negative)
  {
    hide ReadAll, ReadChar, Ten, Printed, Digits, Value;
    var start := Reading(0, 0, 0, 0, negative);
    if n == 0 {
      ReadNone(start);
    } else {
      var ds := Digits(n);
      PrintedReads(ds, |ds|, start);
      DigitsValue(n);
      ReadAppend(start, Printed(ds, |ds|).out, "元");
      ReadOne(ReadAll(start, Printed(ds, |ds|).out), '元');
      PrintedKeeps(ds, |ds|, start);
      YuanIs(ReadAll(start, Printed(ds, |ds|).out));
    }
  }

  lemma YuanIs(r: Reading)
    ensures ReadChar(r, '元') == Reading(0, 0, 0, 100 * (r.total + r.section + r.digit), r.negative)
  {
  }

  lemma CentsIs(r: Reading, c: char)
    requires c == '角' || c == '分'
    ensures ReadChar(r, c) == Reading(r.total, r.section, 0, r.fen + (if c == '角' then 10 else 1) * r.digit, r.negative)
  {
  }

  lemma DoneIs(r: Reading)
    ensures ReadChar(r, '整') == r
  {
  }

  lemma AmountReads(r: Reading, d: Digit, c: char)
    requires d > 0 && (c == '角' || c == '分')
    ensures ReadAll(r, [DIGITS[d], c]) == Reading(r.total, r.section, 0, r.fen + (if c == '角' then 10 else 1) * d, r.negative)
  {
    hide ReadAll, ReadChar;
    assert [DIGITS[d], c] == [DIGITS[d]] + [c];
    ReadAppend(r, [DIGITS[d]], [c]);
    ReadOne(r, DIGITS[d]);
    ReadDigit(r, d);
    ReadOne(ReadChar(r, DIGITS[d]), c);
    CentsIs(ReadChar(r, DIGITS[d]), c);
  }

  lemma FractionReads(r: Reading, jiao: Digit, fen: Digit, intNonZero: bool)
    requires r == Reading(0, 0, 0, r.fen, r.negative) && (!intNonZero ==> r.fen == 0)
    ensures var t := ReadAll(r, Fraction(jiao, fen, intNonZero));
      t.fen == r.fen + 10 * jiao + fen && t.negative == r.negative
  {
    hide ReadAll, ReadChar;
    if jiao == 0 && fen == 0 {
      ReadOne(r, '整');
      DoneIs(r);
      if !intNonZero {
        assert "零元整" == "零" + ("元" + "整");
        ReadAppend(r, "零", "元" + "整");
        ReadOne(r, '零');
        ReadZero(r);
        ReadAppend(r, "元", "整");
        ReadOne(r, '元');
        YuanIs(r);
      }
    } else {
      var a := if jiao > 0 then [DIGITS[jiao], '角'] else "";
      var z := if jiao == 0 && intNonZero then "零" else "";
      var b := if fen > 0 then z + [DIGITS[fen], '分'] else "";
      assert Fraction(jiao, fen, intNonZero) == a + b;
      ReadAppend(r, a, b);
      ReadNone(r);
      if jiao > 0 {
        AmountReads(r, jiao, '角');
      }
      var r1 := ReadAll(r, a);
      assert r1 == Reading(0, 0, 0, r.fen + 10 * jiao, r.negative);
      ReadNone(r1);
      if fen > 0 {
        ReadAppend(r1, z, [DIGITS[fen], '分']);
        ReadOne(r1, '零');
        ReadZero(r1);
        AmountReads(r1, fen, '分');
      }
    }
  }

  /** Every amount with at most 16 integer digits, of either sign, reads back as itself. */
  lemma RoundTrip(fen: int)
    requires |Digits(Abs(fen) / 100)| <= MAX_INT_DIGITS
    ensures Read(Text(fen)) == fen
  {
    hide ReadAll, ReadChar, Digits, Integer, Fraction;
    var n, sign := Abs(fen) / 100, if fen < 0 then "负" else "";
    var start := Reading(0, 0, 0, 0, fen < 0);
    ReadNone(NOTHING);
    ReadOne(NOTHING, '负');
    MinusIs();
    var jiao, f := Abs(fen) % 100 / 10, Abs(fen) % 10;
    ReadAppend(NOTHING, sign, Integer(n) + Fraction(jiao, f, n != 0));
    ReadAppend(start, Integer(n), Fraction(jiao, f, n != 0));
    IntegerReads(n, fen < 0);
    FractionReads(Reading(0, 0, 0, 100 * n, fen < 0), jiao, f, n != 0);
    assert 100 * n + 10 * jiao + f == Abs(fen);
  }

  lemma MinusIs()
    ensures ReadChar(NOTHING, '负') == Reading(0, 0, 0, 0, true)
  {
  }

  /** The printer gives up exactly from ten quadrillion yuan on, and never prints nothing else. */
  lemma {:induction false} DigitCount(n: nat, k: nat)
    requires k > 0
    ensures |Digits(n)| <= k <==> n < Ten(k)
  {
    if k == 1 {
      assert Ten(1) == 10;
    } else if n >= 10 {
      DigitCount(n / 10, k - 1);
    } else {
      TenPositive(k - 1);
    }
  }

  /** No two amounts within range share a text, and only those out of range have none. */
  lemma TextsDiffer(a: int, b: int)
    ensures Text(a) == "" <==> Abs(a) / 100 >= Ten(MAX_INT_DIGITS)
    ensures Text(a) == Text(b) != "" ==> a == b
  {
    hide Read, Digits, Integer, Ten, Printed;
    DigitCount(Abs(a) / 100, MAX_INT_DIGITS);
    DigitCount(Abs(b) / 100, MAX_INT_DIGITS);
    if |Digits(Abs(a) / 100)| <= MAX_INT_DIGITS && |Digits(Abs(b) / 100)| <= MAX_INT_DIGITS {
      RoundTrip(a);
      RoundTrip(b);
    }
  }

  // ---- where 零 may stand ----

  /** No 零 before another 零 or before 元, and none at the end. */
  predicate Clean(t: string) {
    && (forall i :: 0 <= i < |t| - 1 && t[i] == '零' ==> t[i + 1] != '零' && t[i + 1] != '元')
    && (t != "" ==> t[|t| - 1] != '零')
  }

  lemma CleanAppend(a: string, b: string)
    requires Clean(a) && Clean(b)
    ensures Clean(a + b)
  {
    var t := a + b;
    forall i | 0 <= i < |t| - 1 && t[i] == '零' ensures t[i + 1] != '零' && t[i + 1] != '元' {
      if i < |a| {
        assert a[i] == '零';
        assert i < |a| - 1;
        assert t[i + 1] == a[i + 1];
      } else {
        assert b[i - |a|] == '零' && t[i + 1] == b[i - |a| + 1];
      }
    }
  }

  lemma {:induction false} PrintedClean(ds: seq<Digit>, i: nat)
    requires i <= |ds| <= MAX_INT_DIGITS
    ensures Clean(Printed(ds, i).out)
  {
    hide Clean, PutDigit, CloseSection, Printed;
    if i == 0 {
      PrintedNone(ds);
      CleanPieces();
    } else {
      PrintedClean(ds, i - 1);
      PrintedStep(ds, i - 1);
      PutClean(Printed(ds, i - 1), ds[i - 1], |ds| - i);
      CloseClean(PutDigit(Printed(ds, i - 1), ds[i - 1], |ds| - i), |ds| - i);
    }
  }

  lemma PutClean(p: Print, d: Digit, pos: nat)
    requires Clean(p.out)
    ensures Clean(PutDigit(p, d, pos).out)
  {
    hide Clean;
    if d > 0 {
      var z := if p.zeroPending && p.out != "" then "零" else "";
      var unit := POS_UNITS[pos % 4];
      CleanUnit(pos % 4);
      CleanDigit(z, d);
      CleanAppend(p.out, z + [DIGITS[d]]);
      CleanAppend(p.out + (z + [DIGITS[d]]), unit);
      assert p.out + (z + [DIGITS[d]]) == (if p.zeroPending && p.out != "" then p.out + "零" else p.out) + [DIGITS[d]];
    }
  }

  lemma CleanUnit(k: nat)
    requires k < 4
    ensures Clean(POS_UNITS[k]) && Clean(SECTION_UNITS[k])
  {
    CleanPieces();
  }

  lemma CloseClean(p: Print, pos: nat)
    requires pos < MAX_INT_DIGITS && Clean(p.out)
    ensures Clean(CloseSection(p, pos).out)
  {
    hide Clean;
    if pos % 4 == 0 {
      CleanUnit(pos / 4);
      CleanAppend(p.out, SECTION_UNITS[pos / 4]);
    }
  }

  lemma CleanPieces()
    ensures Clean("") && forall k :: 0 <= k < 4 ==> Clean(POS_UNITS[k]) && Clean(SECTION_UNITS[k])
  {
  }

  lemma CleanDigit(z: string, d: Digit)
    requires d > 0 && (z == "" || z == "零")
    ensures Clean(z + [DIGITS[d]])
  {
  }

  lemma CleanFraction(jiao: Digit, fen: Digit, intNonZero: bool)
    requires intNonZero || jiao > 0 || fen > 0
    ensures Clean(Fraction(jiao, fen, intNonZero))
  {
    hide Clean;
    CleanPieces();
    CleanEnds();
    var j := if jiao > 0 then [DIGITS[jiao], '角'] else "";
    var z := if jiao == 0 && intNonZero then "零" else "";
    var f := if fen > 0 then z + [DIGITS[fen], '分'] else "";
    if jiao > 0 {
      CleanPlace("", jiao, '角');
      assert "" + [DIGITS[jiao], '角'] == j;
    }
    if fen > 0 {
      CleanPlace(z, fen, '分');
    }
    CleanAppend(j, f);
  }

  lemma CleanEnds()
    ensures Clean("整")
  {
  }

  lemma CleanPlace(z: string, d: Digit, unit: char)
    requires d > 0 && (z == "" || z == "零") && unit != '零' && unit != '元'
    ensures Clean(z + [DIGITS[d], unit])
  {
    hide Clean;
    CleanDigit(z, d);
    CleanSign(unit);
    CleanAppend(z + [DIGITS[d]], [unit]);
    assert z + [DIGITS[d], unit] == z + [DIGITS[d]] + [unit];
  }

  lemma CleanSign(unit: char)
    requires unit != '零'
    ensures Clean([unit])
  {
  }

  /** 零 never stands before another 零, and before 元 only in 零元整. */
  lemma ZerosAreTidy(fen: int)
    ensures fen == 0 ==> Text(fen) == "零元整"
    ensures fen != 0 ==> Clean(Text(fen))
  {
    hide Clean, Printed, Digits, Fraction;
    CleanPieces();
    if fen == 0 {
      ZeroText();
    } else {
      var n, jiao, f := Abs(fen) / 100, Abs(fen) % 100 / 10, Abs(fen) % 10;
      if |Digits(n)| <= MAX_INT_DIGITS {
        CleanFraction(jiao, f, n != 0);
        CleanSigns();
        if n != 0 {
          PrintedClean(Digits(n), |Digits(n)|);
          CleanAppend(Printed(Digits(n), |Digits(n)|).out, "元");
        }
        CleanAppend(Integer(n), Fraction(jiao, f, n != 0));
        CleanAppend(if fen < 0 then "负" else "", Integer(n) + Fraction(jiao, f, n != 0));
      }
    }
  }

  lemma CleanSigns()
    ensures Clean("负") && Clean("元")
  {
  }

  lemma ZeroText()
    ensures Text(0) == "零元整"
  {
  }
}
