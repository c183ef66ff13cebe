/**
 * The display logic of the printable shipping bill
 * (front/src/dashboard/pages/PrintShippingBill.jsx): what the bill shows for
 * a shipment record, before locale formatting turns numbers into Persian
 * numerals. The component renders nothing while closed or without data;
 * otherwise it shows the bill number, both parties with Persian-digit phone
 * numbers and "-" for missing fields, the goods figures with missing ones as
 * 0, the pack list in one table or, beyond seven items, in two tables
 * numbered continuously, and the totals with the remainder red when positive.
 * `Math.random().toString(36)` is a parameter; `toLocaleString("fa-IR")` and
 * the Jalali date are not part of this model.
 */
module ShippingBill {
  import opened Wrappers
  import opened Decimals

  /** The digits the phone numbers are rewritten into, indexed by their value. */
  const PersianDigits: string := "۰۱۲۳۴۵۶۷۸۹"

  /** Arabic-script (Persian) digit, U+06F0 to U+06F9. */
  predicate IsPersianDigit(c: char) {
    0x06F0 <= c as int <= 0x06F9
  }

  /** The Persian digit of value `d`. */
  function PersianDigit(d: int): (c: char)
    requires 0 <= d < 10
    ensures IsPersianDigit(c) && c as int - 0x06F0 == d
  {
    PersianDigits[d]
  }

  /** One character of `replace(/\d/g, d => "۰۱۲۳۴۵۶۷۸۹"[d])`. */
  function ToPersianDigit(c: char): char {
    if IsDigit(c) then PersianDigit(c as int - '0' as int) else c
  }

  /** The inverse rewriting, Persian digits back to ASCII. */
  function FromPersianDigit(c: char): char {
    if IsPersianDigit(c) then DigitChar(c as int - 0x06F0) else c
  }

  /**
   * Every ASCII digit replaced by the Persian digit of the same value, every
   * other character kept, the length unchanged.
   */
  function ToPersianDigits(s: string): (r: string)
    ensures |r| == |s|
    ensures forall i :: 0 <= i < |s| && IsDigit(s[i]) ==> r[i] == PersianDigit(s[i] as int - '0' as int)
    ensures forall i :: 0 <= i < |s| && !IsDigit(s[i]) ==> r[i] == s[i]
  {
    seq(|s|, i requires 0 <= i < |s| => ToPersianDigit(s[i]))
  }

  /** Persian digits back to ASCII. */
  function FromPersianDigits(s: string): (r: string)
    ensures |r| == |s|
    ensures forall i :: 0 <= i < |s| && IsPersianDigit(s[i]) ==> IsDigit(r[i]) && r[i] as int - '0' as int == s[i] as int - 0x06F0
    ensures forall i :: 0 <= i < |s| && !IsPersianDigit(s[i]) ==> r[i] == s[i]
  {
    seq(|s|, i requires 0 <= i < |s| => FromPersianDigit(s[i]))
  }

  /** No ASCII digit is left after the rewriting, and rewriting again changes nothing. */
  lemma NoAsciiDigitsLeft(s: string)
    ensures forall i :: 0 <= i < |s| ==> !IsDigit(ToPersianDigits(s)[i])
    ensures ToPersianDigits(ToPersianDigits(s)) == ToPersianDigits(s)
  {
  }

  /** For text without Persian digits, reading the digits back gives the original. */
  lemma PersianDigitsRoundTrip(s: string)
    requires forall i :: 0 <= i < |s| ==> !IsPersianDigit(s[i])
    ensures FromPersianDigits(ToPersianDigits(s)) == s
  {
    var r := FromPersianDigits(ToPersianDigits(s));
    forall i | 0 <= i < |s| ensures r[i] == s[i] {
      if IsDigit(s[i]) {
        assert ToPersianDigits(s)[i] == PersianDigit(s[i] as int - '0' as int);
      }
    }
  }

  /** `phoneNumber?.replace(...) || "-"`: the rewritten number, or "-" when it is missing or empty. */
  function PhoneShown(phone: Option<string>): (r: string)
    ensures phone.None? || phone.value == "" ==> r == "-"
    ensures phone.Some? && phone.value != "" ==> r == ToPersianDigits(phone.value) && r != ""
  {
    match phone
    case None => "-"
    case Some(p) =>
      var t := ToPersianDigits(p);
      if t == "" then "-" else t
  }

  /** `field || "-"` for a text field. */
  function TextOrDash(field: Option<string>): (r: string)
    ensures field.None? || field.value == "" ==> r == "-"
    ensures field.Some? && field.value != "" ==> r == field.value
  {
    if field.Some? && field.value != "" then field.value else "-"
  }

  /** `Number(x || 0)` for a numeric field that may be missing. */
  function NumberOrZero(x: Option<int>): (n: int)
    ensures x.None? ==> n == 0
    ensures x.Some? ==> n == x.value
  {
    x.GetOr(0)
  }

  /** A pack list entry. */
  datatype PackItem = PackItem(description: string, qty: Option<int>, weight: Option<int>, value: Option<int>)

  /** The value cell of a pack row: "$n" in the split tables, "n دالر" in the single table. */
  datatype ValueCell = SignFirst(amount: int) | WordAfter(amount: int)

  /** A shown pack row: its number, the item, the three figures, and whether the row is striped grey. */
  datatype PackRow = PackRow(number: nat, item: PackItem, qty: int, weight: int, value: ValueCell, shaded: bool)

  /** The pack list as shown: one table, or the first seven items and the rest side by side. */
  datatype Tables = Single(rows: seq<PackRow>) | Split(first: seq<PackRow>, second: seq<PackRow>)

  /** The row for `item` at position `index` of a table whose numbering starts at `start`. */
  function RowAt(item: PackItem, index: nat, start: nat, split: bool): PackRow {
    var amount := NumberOrZero(item.value);
    PackRow(index + start, item, NumberOrZero(item.qty), NumberOrZero(item.weight),
            if split then SignFirst(amount) else WordAfter(amount), index % 2 == 1)
  }

  /** `items.map((item, index) => ...)` for one table. */
  function TableRows(items: seq<PackItem>, start: nat, split: bool): (rows: seq<PackRow>)
    ensures |rows| == |items|
    ensures forall k :: 0 <= k < |items| ==> rows[k] == RowAt(items[k], k, start, split)
  {
    seq(|items|, k requires 0 <= k < |items| => RowAt(items[k], k, start, split))
  }

  /** All shown rows, first table before second. */
  function AllRows(t: Tables): seq<PackRow> {
    match t
    case Single(rows) => rows
    case Split(first, second) => first + second
  }

  /** The items of a list of rows. */
  function ItemsOf(rows: seq<PackRow>): (items: seq<PackItem>)
    ensures |items| == |rows|
    ensures forall k :: 0 <= k < |rows| ==> items[k] == rows[k].item
  {
    seq(|rows|, k requires 0 <= k < |rows| => rows[k].item)
  }

  /** The pack-list tables for a list that is present. */
  function TablesOf(items: seq<PackItem>): (t: Tables)
    ensures t.Split? <==> |items| > 7
    ensures t.Split? ==> |t.first| == 7 && |t.second| == |items| - 7
  {
    if |items| > 7 then Split(TableRows(items[..7], 1, true), TableRows(items[7..], 8, true))
    else Single(TableRows(items, 1, false))
  }

  /**
   * The pack list as written: `data.packList && data.packList.length > 7`
   * guards the split, but the single-table branch calls `data.packList.map`
   * even when there is no pack list, which throws (`None`).
   */
  function PackTablesAsWritten(packList: Option<seq<PackItem>>): (t: Option<Tables>)
    ensures t.None? <==> packList.None?
    ensures packList.Some? ==> t == Some(TablesOf(packList.value))
  {
    if packList.Some? && |packList.value| > 7 then Some(TablesOf(packList.value))
    else match packList
      case None => None
      case Some(items) => Some(TablesOf(items))
  }

  /** The pack list as intended: a missing list is shown as an empty table. */
  function PackTables(packList: Option<seq<PackItem>>): (t: Tables)
    ensures packList.None? ==> t == Single([])
    ensures packList.Some? ==> t == TablesOf(packList.value)
  {
    TablesOf(packList.GetOr([]))
  }

  /** Without a pack list the bill as written does not render at all, where an empty table is intended. */
  lemma MissingPackListThrows()
    ensures PackTablesAsWritten(None).None?
    ensures PackTables(None) == Single([])
  {
  }

  /**
   * Whatever the layout, the rows list every item once, in order, numbered
   * 1, 2, 3, ... continuously across the two tables, with missing figures
   * shown as 0 and the value labelled "$" exactly when the list is split.
   */
  lemma {:induction false} PackRowsListEveryItem(items: seq<PackItem>)
    ensures var all := AllRows(TablesOf(items));
            && ItemsOf(all) == items
            && (forall k :: 0 <= k < |all| ==> all[k].number == k + 1)
            && (forall k :: 0 <= k < |all| ==>
                  all[k].qty == NumberOrZero(items[k].qty) && all[k].weight == NumberOrZero(items[k].weight)
                  && all[k].value.amount == NumberOrZero(items[k].value)
                  && (all[k].value.SignFirst? <==> |items| > 7))
  {
    var all := AllRows(TablesOf(items));
    if |items| > 7 {
      var first := TableRows(items[..7], 1, true);
      var second := TableRows(items[7..], 8, true);
      assert all == first + second;
      forall k | 0 <= k < |all|
        ensures all[k] == RowAt(items[k], if k < 7 then k else k - 7, if k < 7 then 1 else 8, true)
      {
        if k < 7 {
          assert all[k] == first[k];
        } else {
          assert all[k] == second[k - 7];
        }
      }
    }
    assert ItemsOf(all) == items;
  }

  /** In the split layout item 8 opens the second table and its striping starts over. */
  lemma SecondTableStartsAtEight(items: seq<PackItem>)
    requires |items| > 7
    ensures var t := TablesOf(items);
            && t.second[0] == RowAt(items[7], 0, 8, true)
            && t.second[0].number == 8 && !t.second[0].shaded
  {
  }

  /** The remainder's colour. */
  datatype Tone = Red | Green

  /** `data.remain > 0 ? "text-red-600" : "text-green-600"`: red exactly for a positive remainder. */
  function RemainTone(remain: Option<int>): (t: Tone)
    ensures t == Red <==> remain.Some? && remain.value > 0
  {
    if remain.Some? && remain.value > 0 then Red else Green
  }

  /** `Math.random().toString(36)`: "0" or "0." followed by base-36 digits. */
  predicate RandomText(t: string) {
    t == "0" || (|t| >= 2 && t[..2] == "0." && forall i :: 2 <= i < |t| ==> IsDigit(t[i]) || 'a' <= t[i] <= 'z')
  }

  /** ASCII upper-casing, which is what `toUpperCase` does to base-36 digits. */
  function Upper(c: char): (u: char)
    ensures 'a' <= c <= 'z' ==> 'A' <= u <= 'Z' && u as int - 'A' as int == c as int - 'a' as int
    ensures !('a' <= c <= 'z') ==> u == c
  {
    if 'a' <= c <= 'z' then (c as int - 'a' as int + 'A' as int) as char else c
  }

  /** `.substr(2, 6).toUpperCase()`: up to six characters after "0.", upper-cased. */
  function RandomCode(text: string): (code: string)
    requires RandomText(text)
    ensures |code| <= 6
    ensures forall i :: 0 <= i < |code| ==> IsDigit(code[i]) || 'A' <= code[i] <= 'Z'
    ensures |text| >= 8 ==> |code| == 6
    ensures |text| >= 2 ==> |code| == (if |text| < 8 then |text| - 2 else 6)
    ensures forall i :: 0 <= i < |code| ==> i + 2 < |text| && code[i] == Upper(text[i + 2])
  {
    var start := if |text| < 2 then |text| else 2;
    var end := if |text| < 8 then |text| else 8;
    var piece := text[start..end];
    seq(|piece|, i requires 0 <= i < |piece| => Upper(piece[i]))
  }

  /** `data.id ? `${data.id}` : code`: the id's digits when the id is truthy, otherwise the random code. */
  function BillNumber(id: Option<nat>, text: string): (b: string)
    requires RandomText(text)
    ensures id.Some? && id.value != 0 ==> b == Decimal(id.value)
    ensures id.None? || id.value == 0 ==> b == RandomCode(text)
    ensures forall i :: 0 <= i < |b| ==> IsDigit(b[i]) || 'A' <= b[i] <= 'Z'
  {
    if id.Some? && id.value != 0 then Decimal(id.value) else RandomCode(text)
  }

  predicate AllDigits(s: string) {
    forall i :: 0 <= i < |s| ==> IsDigit(s[i])
  }

  /** Digits and capital letters, the characters a bill number is made of. */
  predicate CodeChars(s: string) {
    forall i :: 0 <= i < |s| ==> IsDigit(s[i]) || 'A' <= s[i] <= 'Z'
  }

  /** What `Number(...)` gives for a string: a finite value, `Infinity`, or NaN. */
  datatype JsNumber = Finite(value: nat) | Infinite | NaN

  /**
   * The least value a double rounds to `Infinity`: 2^1024 - 2^970, halfway
   * between the largest finite double, (2^53 - 1) * 2^971, and 2^1024. In
   * hexadecimal it is FFFFFFFFFFFFFC followed by 242 zeros.
   */
  const DoubleOverflow: nat := 0xFFFFFFFFFFFFFC00000000000000000000000000000000000000000000000000000000000000000000000000000000000000000000000000000000000000000000000000000000000000000000000000000000000000000000000000000000000000000000000000000000000000000000000000000000000000000000000000

  /** 2^53: every integer below it is a double. */
  const SafeLimit: nat := 0x20_0000_0000_0000

  /** The double for an exact value: the value itself below `DoubleOverflow`, `Infinity` from there on. */
  function ToDouble(v: nat): (n: JsNumber)
    ensures n.Infinite? <==> v >= DoubleOverflow
    ensures !n.NaN? && (n.Finite? ==> n.value == v)
  {
    if v < DoubleOverflow then Finite(v) else Infinite
  }

  /** Every integer below 2^53 is a finite double. */
  lemma SafeIntegerIsFinite(v: nat)
    requires v < SafeLimit
    ensures ToDouble(v) == Finite(v)
  {
  }

  /** The base a "0X", "0B" or "0O" prefix selects, 0 for any other letter. */
  function PrefixBase(c: char): nat {
    if c == 'X' then 16 else if c == 'B' then 2 else if c == 'O' then 8 else 0
  }

  /** A leading "0X", "0B" or "0O": a hexadecimal, binary or octal integer literal. */
  predicate HasRadixPrefix(s: string) {
    |s| >= 2 && s[0] == '0' && PrefixBase(s[1]) != 0
  }

  /** A digit or capital letter as a digit of base 36: "0" to "9", then "A" = 10 to "Z" = 35. */
  function DigitValue(c: char): (d: nat)
    requires IsDigit(c) || 'A' <= c <= 'Z'
    ensures d < 36
  {
    if IsDigit(c) then c as int - '0' as int else c as int - 'A' as int + 10
  }

  /** Every character of `s` is a digit of base `b`. */
  predicate DigitsOfBase(s: string, b: nat)
    requires CodeChars(s)
  {
    forall i :: 0 <= i < |s| ==> DigitValue(s[i]) < b
  }

  /** The number the digits of `s` denote in base `b`, most significant first. */
  function RadixValue(s: string, b: nat): nat
    requires CodeChars(s)
  {
    if s == [] then 0
    else
      assert IsDigit(s[|s| - 1]) || 'A' <= s[|s| - 1] <= 'Z';
      RadixValue(s[..|s| - 1], b) * b + DigitValue(s[|s| - 1])
  }

  /** An "E" at `k` with decimal digits on both sides: exponent notation. */
  predicate ExponentForm(s: string, k: int) {
    0 < k < |s| - 1 && s[k] == 'E' && forall i :: 0 <= i < |s| && i != k ==> IsDigit(s[i])
  }

  /** The only "E" an exponent form can have is the first. */
  lemma ExponentFormIsFirstE(s: string)
    ensures forall k :: ExponentForm(s, k) ==> ExponentAt(s) == Some(k)
  {
    forall k | ExponentForm(s, k) ensures ExponentAt(s) == Some(k) {
      assert s[k] == 'E';
    }
  }

  /** A radix prefix rules out exponent notation. */
  lemma PrefixRulesOutExponent(s: string)
    requires HasRadixPrefix(s)
    ensures forall k :: !ExponentForm(s, k)
  {
    assert !IsDigit(s[1]) && s[1] != 'E';
  }

  /** A letter other than "E" rules out exponent notation. */
  lemma LetterRulesOutExponent(s: string, i: int)
    requires 0 <= i < |s| && 'A' <= s[i] <= 'Z' && s[i] != 'E'
    ensures forall k :: !ExponentForm(s, k)
  {
    assert !IsDigit(s[i]);
  }

  /**
   * The exact value of `s` read as a numeric literal of StringToNumber:
   * decimal digits ("" being 0); a "0X", "0B" or "0O" prefix followed by
   * hexadecimal, binary or octal digits; or decimal digits, one "E" and
   * decimal digits. `None` when `s` is none of these.
   */
  function LiteralValue(s: string): Option<nat>
    requires CodeChars(s)
  {
    if AllDigits(s) then Some(DecimalValue(s))
    else if HasRadixPrefix(s) then
      var b := PrefixBase(s[1]);
      if |s| > 2 && DigitsOfBase(s[2..], b) then Some(RadixValue(s[2..], b)) else None
    else
      match ExponentAt(s)
      case Some(k) =>
        if ExponentForm(s, k) then Some(DecimalValue(s[..k]) * Pow10(DecimalValue(s[k + 1..]))) else None
      case None => None
  }

  /** The exponent form, wherever its "E" is, gives mantissa * 10^exponent. */
  lemma ExponentLiteral(s: string)
    requires CodeChars(s)
    ensures forall k :: ExponentForm(s, k) ==> LiteralValue(s) == Some(DecimalValue(s[..k]) * Pow10(DecimalValue(s[k + 1..])))
  {
    ExponentFormIsFirstE(s);
    if HasRadixPrefix(s) {
      PrefixRulesOutExponent(s);
    }
    forall k | ExponentForm(s, k)
      ensures LiteralValue(s) == Some(DecimalValue(s[..k]) * Pow10(DecimalValue(s[k + 1..])))
    {
      assert !IsDigit(s[k]);
    }
  }

  /** A letter other than "E" outside a radix literal is not part of any literal. */
  lemma StrayLetterIsNoLiteral(s: string, i: int)
    requires CodeChars(s) && !HasRadixPrefix(s)
    requires 0 <= i < |s| && 'A' <= s[i] <= 'Z' && s[i] != 'E'
    ensures LiteralValue(s).None?
  {
    LetterRulesOutExponent(s, i);
    assert !IsDigit(s[i]);
    match ExponentAt(s)
    case Some(k) => assert !ExponentForm(s, k);
    case None =>
  }

  /**
   * `Number(s || 0)` for a string of digits and capital letters: the double
   * for `LiteralValue(s)`, which is `Infinity` from `DoubleOverflow` on,
   * and NaN when `s` is no numeric literal.
   */
  function NumberOfCode(s: string): (n: JsNumber)
    requires CodeChars(s)
    ensures AllDigits(s) ==> n == ToDouble(DecimalValue(s))
    ensures HasRadixPrefix(s) ==> (n.NaN? <==> |s| == 2 || !DigitsOfBase(s[2..], PrefixBase(s[1])))
    ensures HasRadixPrefix(s) && |s| > 2 && DigitsOfBase(s[2..], PrefixBase(s[1])) ==>
              n == ToDouble(RadixValue(s[2..], PrefixBase(s[1])))
    ensures forall k :: ExponentForm(s, k) ==> n == ToDouble(DecimalValue(s[..k]) * Pow10(DecimalValue(s[k + 1..])))
    ensures !AllDigits(s) && !HasRadixPrefix(s) && (forall k :: !ExponentForm(s, k)) ==> n.NaN?
    ensures forall i :: !HasRadixPrefix(s) && 0 <= i < |s| && 'A' <= s[i] <= 'Z' && s[i] != 'E' ==> n.NaN?
  {
    ExponentLiteral(s);
    forall i | !HasRadixPrefix(s) && 0 <= i < |s| && 'A' <= s[i] <= 'Z' && s[i] != 'E' {
      StrayLetterIsNoLiteral(s, i);
    }
    match LiteralValue(s)
    case Some(v) => ToDouble(v)
    case None => NaN
  }

  /** The position of the first "E". */
  function ExponentAt(s: string): (k: Option<nat>)
    ensures k.Some? ==> k.value < |s| && s[k.value] == 'E'
    ensures k.Some? ==> forall i :: 0 <= i < k.value ==> s[i] != 'E'
    ensures k.None? ==> forall i :: 0 <= i < |s| ==> s[i] != 'E'
  {
    if s == [] then None
    else if s[0] == 'E' then Some(0)
    else match ExponentAt(s[1..])
      case None => None
      case Some(j) => Some(j + 1)
  }

  /**
   * The bill number as written: passed through `formatNumber`, that is
   * `Number(...)`. An id keeps its value; a random code is read as a numeric
   * literal, so a code that is not one turns into NaN instead of the code.
   */
  function BillNumberShownAsWritten(id: Option<nat>, text: string): (n: JsNumber)
    requires RandomText(text)
    ensures id.Some? && id.value != 0 ==> n == ToDouble(id.value)
    ensures id.Some? && 0 < id.value < SafeLimit ==> n == Finite(id.value)
    ensures id.None? || id.value == 0 ==> n == NumberOfCode(RandomCode(text))
  {
    if id.Some? && id.value != 0 then
      DecimalRoundTrip(id.value);
      NumberOfCode(BillNumber(id, text))
    else NumberOfCode(BillNumber(id, text))
  }

  /** The bill number as intended: the bill number's own characters, digits in Persian. */
  function BillNumberShown(id: Option<nat>, text: string): (shown: string)
    requires RandomText(text)
    ensures |shown| == |BillNumber(id, text)|
    ensures FromPersianDigits(shown) == BillNumber(id, text)
  {
    var b := BillNumber(id, text);
    PersianDigitsRoundTrip(b);
    ToPersianDigits(b)
  }

  /** A bill without an id whose code has letters is numbered NaN as written, and by its code as intended. */
  lemma RandomBillNumberIsLost()
    ensures RandomText("0.4fzyo82mvyr")
    ensures RandomCode("0.4fzyo82mvyr") == "4FZYO8"
    ensures BillNumberShownAsWritten(None, "0.4fzyo82mvyr").NaN?
    ensures FromPersianDigits(BillNumberShown(None, "0.4fzyo82mvyr")) == "4FZYO8"
  {
    var text := "0.4fzyo82mvyr";
    var code := RandomCode(text);
    assert code[0] == Upper(text[2]) == '4';
    assert code[1] == Upper(text[3]) == 'F';
    assert code[2] == Upper(text[4]) == 'Z';
    assert code[3] == Upper(text[5]) == 'Y';
    assert code[4] == Upper(text[6]) == 'O';
    assert code[5] == Upper(text[7]) == '8';
    assert code == "4FZYO8";
  }

  /** A code that opens with "0X" is read as hexadecimal as written: "0X1F2A" is shown as 7978, not as the code. */
  lemma HexBillNumberIsRead()
    ensures RandomText("0.0x1f2a9k")
    ensures RandomCode("0.0x1f2a9k") == "0X1F2A"
    ensures BillNumberShownAsWritten(None, "0.0x1f2a9k") == Finite(7978)
  {
    var text := "0.0x1f2a9k";
    var code := RandomCode(text);
    assert code[0] == Upper(text[2]) == '0';
    assert code[1] == Upper(text[3]) == 'X';
    assert code[2] == Upper(text[4]) == '1';
    assert code[3] == Upper(text[5]) == 'F';
    assert code[4] == Upper(text[6]) == '2';
    assert code[5] == Upper(text[7]) == 'A';
    assert code == "0X1F2A";
    HexCodeValue();
  }

  /** `Number("0X1F2A")` is 7978. */
  lemma HexCodeValue()
    ensures NumberOfCode("0X1F2A") == Finite(7978)
  {
    var code := "0X1F2A";
    assert code[2..] == "1F2A";
    HexDigitsValue();
    assert HasRadixPrefix(code);
  }

  /** "1F2A" read as hexadecimal is 7978, a finite double. */
  lemma HexDigitsValue()
    ensures DigitsOfBase("1F2A", 16) && ToDouble(RadixValue("1F2A", 16)) == Finite(7978)
  {
    var d := "1F2A";
    assert RadixValue(d[..1], 16) == 1;
    assert RadixValue(d[..2], 16) == 31 by { assert d[..2][..1] == d[..1]; }
    assert RadixValue(d[..3], 16) == 498 by { assert d[..3][..2] == d[..2]; }
    assert RadixValue(d, 16) == 7978 by { assert d[..3] == d[..|d| - 1]; }
    SafeIntegerIsFinite(7978);
  }


  /** A party of the shipment, as stored. */
  datatype Party = Party(name: string, phoneNumber: Option<string>, address: string, email: Option<string>, country: Option<string>)

  /** The shipment record the bill is printed from. */
  datatype BillData = BillData(
    id: Option<nat>,
    sender: Party,
    receiver: Party,
    totalWeight: Option<int>,
    piece: Option<int>,
    perKgCash: Option<int>,
    value: Option<int>,
    packList: Option<seq<PackItem>>,
    totalCash: Option<int>,
    received: Option<int>,
    remain: Option<int>)

  /** A party as shown: name, phone, address and e-mail. */
  datatype PartyView = PartyView(name: string, phone: string, address: string, email: string)

  /** What the bill shows. */
  datatype Bill = Bill(
    number: string,
    sender: PartyView,
    receiver: PartyView,
    receiverCountry: string,
    weight: int,
    pieces: int,
    perKg: int,
    goodsValue: int,
    tables: Tables,
    totalCash: int,
    received: int,
    remain: int,
    remainTone: Tone)

  function ViewOf(p: Party): (v: PartyView)
    ensures v.name == p.name && v.address == p.address
    ensures v.phone == PhoneShown(p.phoneNumber) && v.email == TextOrDash(p.email)
  {
    PartyView(p.name, PhoneShown(p.phoneNumber), p.address, TextOrDash(p.email))
  }

  /**
   * `PrintShippingBill({ isOpen, onClose, data })`: nothing unless open and
   * given data; otherwise the bill for `data`, with the intended pack tables
   * and bill number.
   */
  function Render(isOpen: bool, data: Option<BillData>, text: string): (r: Option<Bill>)
    requires RandomText(text)
    ensures r.None? <==> !isOpen || data.None?
    ensures r.Some? ==> r.value.tables == PackTables(data.value.packList)
    ensures r.Some? ==> r.value.number == BillNumberShown(data.value.id, text)
    ensures r.Some? ==> r.value.received == NumberOrZero(data.value.received)
    ensures r.Some? ==> (r.value.remainTone == Red <==> data.value.remain.Some? && data.value.remain.value > 0)
    ensures r.Some? ==> r.value.sender == ViewOf(data.value.sender) && r.value.receiver == ViewOf(data.value.receiver)
    ensures r.Some? ==> r.value.receiverCountry == TextOrDash(data.value.receiver.country)
    ensures r.Some? ==> r.value.weight == NumberOrZero(data.value.totalWeight)
    ensures r.Some? ==> r.value.pieces == NumberOrZero(data.value.piece)
    ensures r.Some? ==> r.value.perKg == NumberOrZero(data.value.perKgCash)
    ensures r.Some? ==> r.value.goodsValue == NumberOrZero(data.value.value)
    ensures r.Some? ==> r.value.totalCash == NumberOrZero(data.value.totalCash)
    ensures r.Some? ==> r.value.remain == NumberOrZero(data.value.remain)
  {
    if !isOpen || data.None? then None
    else
      var d := data.value;
      Some(Bill(
        BillNumberShown(d.id, text),
        ViewOf(d.sender),
        ViewOf(d.receiver),
        TextOrDash(d.receiver.country),
        NumberOrZero(d.totalWeight),
        NumberOrZero(d.piece),
        NumberOrZero(d.perKgCash),
        NumberOrZero(d.value),
        PackTables(d.packList),
        NumberOrZero(d.totalCash),
        NumberOrZero(d.received),
        NumberOrZero(d.remain),
        RemainTone(d.remain)))
  }
}
