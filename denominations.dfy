/**
 * The coin denominations the machine accepts (app/Enums/CurrencyDenomination.php).
 * The enum is backed by decimal strings such as "0.05"; the model works in integer
 * cents, and proves that the cent value of each case is exactly the value its tag spells.
 */
module Denominations {
  import opened Options

  datatype Denomination = PointFive | PointTen | PointTwenty | PointFifty | One

  /** The string that backs each enum case. */
  function Tag(d: Denomination): string {
    match d
    case PointFive => "0.05"
    case PointTen => "0.10"
    case PointTwenty => "0.20"
    case PointFifty => "0.50"
    case One => "1.00"
  }

  /** The cases in declaration order. */
  function Cases(): seq<Denomination> {
    [PointFive, PointTen, PointTwenty, PointFifty, One]
  }

  function DigitValue(c: char): Option<nat> {
    if '0' <= c <= '9' then Some(c as int - '0' as int) else None
  }

  /** A non-empty run of decimal digits read as a natural number. */
  function ParseNat(s: string): Option<nat>
    decreases |s|
  {
    if s == [] then None
    else
      var last := DigitValue(s[|s| - 1]);
      if last.None? then None
      else if |s| == 1 then last
      else
        var prefix := ParseNat(s[..|s| - 1]);
        if prefix.None? then None else Some(prefix.value * 10 + last.value)
  }

  /** A decimal string "<digits>.<two digits>" read as a number of cents. */
  function ParseCents(s: string): Option<nat> {
    if |s| < 4 || s[|s| - 3] != '.' then None
    else
      var units := ParseNat(s[..|s| - 3]);
      var hundredths := ParseNat(s[|s| - 2..]);
      if units.None? || hundredths.None? then None
      else Some(units.value * 100 + hundredths.value)
  }

  /** floatValue() in cents. */
  function Cents(d: Denomination): (c: int)
    ensures c > 0
  {
    match d
    case PointFive => 5
    case PointTen => 10
    case PointTwenty => 20
    case PointFifty => 50
    case One => 100
  }

  /** The cent value of each case is exactly the number its tag spells. */
  lemma CentsMatchTag(d: Denomination)
    ensures ParseCents(Tag(d)) == Some(Cents(d))
  {
    var tag := Tag(d);
    assert tag[..|tag| - 3] == "0" || tag[..|tag| - 3] == "1";
    assert ParseNat("0") == Some(0) && ParseNat("1") == Some(1);
    match d
    case PointFive => assert tag[2..] == "05" && ParseNat("05") == Some(5);
    case PointTen => assert tag[2..] == "10" && ParseNat("10") == Some(10);
    case PointTwenty => assert tag[2..] == "20" && ParseNat("20") == Some(20);
    case PointFifty => assert tag[2..] == "50" && ParseNat("50") == Some(50);
    case One => assert tag[2..] == "00" && ParseNat("00") == Some(0);
  }

  /** values(): the cent value of every case, in case order (see ValuesFollowCases). */
  function Values(): seq<int> {
    [5, 10, 20, 50, 100]
  }

  /** The values largest first, the order in which change is made (see DescendingReversesValues). */
  function Descending(): seq<int> {
    [100, 50, 20, 10, 5]
  }

  /** values() lists the cent value of each case, position by position. */
  lemma ValuesFollowCases()
    ensures |Values()| == |Cases()|
    ensures forall i :: 0 <= i < |Cases()| ==> Values()[i] == Cents(Cases()[i])
  {
  }

  /** The change order is values() read backwards. */
  lemma DescendingReversesValues()
    ensures |Descending()| == |Values()|
    ensures forall i :: 0 <= i < |Values()| ==> Descending()[i] == Values()[|Values()| - 1 - i]
  {
  }

  predicate StrictlyAscending(s: seq<int>) {
    forall i, j :: 0 <= i < j < |s| ==> s[i] < s[j]
  }

  predicate StrictlyDescending(s: seq<int>) {
    forall i, j :: 0 <= i < j < |s| ==> s[i] > s[j]
  }

  /** values() is strictly ascending and the change order strictly descending. */
  lemma ValuesOrdered()
    ensures StrictlyAscending(Values()) && StrictlyDescending(Descending())
  {
  }

  /** Every denomination is positive and a multiple of the smallest one. */
  lemma SmallestDividesAll()
    ensures forall i :: 0 <= i < |Values()| ==> Values()[i] > 0 && Values()[i] % Values()[0] == 0
  {
  }
}
