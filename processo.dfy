/** The process-number generator of the current Protocolo create handler:
    `processo` is `month/counter/yy`, and the counter restarts at 1 when the
    newest row's year field is smaller than the current two-digit year. */
module Processo {
  import opened Js
  import opened Schema

  /** `${year}`.slice(2): the last two digits of a four-digit year. */
  function YearSuffix(year: nat): string {
    var s := NatToString(year);
    if |s| >= 2 then s[2..] else ""
  }

  /** `${mes}/${num_processo}/${ano}` */
  function FormatProcesso(month: nat, num: int, yy: string): string {
    NatToString(month) + "/" + IntToString(num) + "/" + yy
  }

  /** `+processo.split("/")[2]`; a missing third field is `undefined`, which is NaN. */
  function StoredYear(processo: string): JsNumber {
    var fields := Split(processo, '/');
    if |fields| > 2 then ParseNumber(fields[2]) else NaN
  }

  /** The counter for the next row, given the newest row and the current year. */
  function NextNumProcesso(last: Option<ProtocoloRow>, year: nat): (n: int)
    ensures last.None? ==> n == 1
    ensures n == 1 || (last.Some? && n == last.value.num_processo + 1)
  {
    match last
    case None => 1
    case Some(row) =>
      if Less(StoredYear(row.processo), ParseNumber(YearSuffix(year))) then 1
      else row.num_processo + 1
  }

  lemma YearSuffixDigits(year: nat)
    ensures AllDigits(YearSuffix(year)) && '/' !in YearSuffix(year)
  {}

  /** A four-digit year's suffix is its last two digits, and reads back as `year % 100`. */
  lemma YearSuffixValue(year: nat)
    requires 1000 <= year <= 9999
    ensures YearSuffix(year) == [DigitChar(year / 10 % 10), DigitChar(year % 10)]
    ensures ParseNumber(YearSuffix(year)) == Finite(year % 100)
  {
    YearSuffixOfFourDigits(year);
    TwoDigitsValue(year / 10 % 10, year % 10);
    TwoLastDigits(year);
  }

  lemma YearSuffixOfFourDigits(year: nat)
    requires 1000 <= year <= 9999
    ensures YearSuffix(year) == [DigitChar(year / 10 % 10), DigitChar(year % 10)]
  {
    var hi := NatToString(year / 100);
    assert hi == NatToString(year / 1000) + [DigitChar(year / 100 % 10)];
    assert |hi| == 2;
    assert NatToString(year / 10) == hi + [DigitChar(year / 10 % 10)];
    assert NatToString(year) == hi + [DigitChar(year / 10 % 10)] + [DigitChar(year % 10)];
  }

  /** Two decimal digits read back as their value. */
  lemma TwoDigitsValue(a: nat, b: nat)
    requires a < 10 && b < 10
    ensures ParseNumber([DigitChar(a), DigitChar(b)]) == Finite(a * 10 + b)
  {
    var yy := [DigitChar(a), DigitChar(b)];
    TrimNoPadding(yy);
    assert yy[..1] == [DigitChar(a)] && yy[..1][..0] == [];
    assert DigitsValue(yy[..1]) == a;
  }

  lemma TwoLastDigits(n: nat)
    ensures (n / 10 % 10) * 10 + n % 10 == n % 100
  {
    var q, r := n / 100, n % 100;
    assert n == 100 * q + r;
    assert n / 10 == 10 * q + r / 10;
    assert n / 10 % 10 == r / 10;
    assert n % 10 == r % 10;
  }

  /** `processo` splits on "/" into exactly the month, the counter and the year suffix. */
  lemma ProcessoFields(month: nat, num: int, yy: string)
    requires '/' !in yy
    ensures Split(FormatProcesso(month, num, yy), '/') == [NatToString(month), IntToString(num), yy]
  {
    var m, c := NatToString(month), IntToString(num);
    assert FormatProcesso(month, num, yy) == m + ['/'] + (c + ['/'] + yy);
    SplitField(m, '/', c + ['/'] + yy);
    SplitField(c, '/', yy);
    SplitWithoutSeparator(yy, '/');
  }

  /** Round trip: the year field read back out of a generated `processo` is `yy`,
      and every field reads back as the number written into it. */
  lemma ProcessoRoundTrip(month: nat, num: int, year: nat)
    requires 1000 <= year <= 9999
    ensures |Split(FormatProcesso(month, num, YearSuffix(year)), '/')| == 3
    ensures Split(FormatProcesso(month, num, YearSuffix(year)), '/')[2] == YearSuffix(year)
    ensures ParseNumber(Split(FormatProcesso(month, num, YearSuffix(year)), '/')[0]) == Finite(month)
    ensures ParseNumber(Split(FormatProcesso(month, num, YearSuffix(year)), '/')[1]) == Finite(num)
    ensures StoredYear(FormatProcesso(month, num, YearSuffix(year))) == Finite(year % 100)
  {
    YearSuffixDigits(year);
    ProcessoFields(month, num, YearSuffix(year));
    ParseNatRoundTrip(month);
    ParseIntRoundTrip(num);
    YearSuffixValue(year);
  }

  /** Once the newest row's year field is known to read as `stored`, the
      counter restarts exactly when `stored` is below the current two-digit year. */
  lemma NextFromStoredYear(row: ProtocoloRow, year: nat, stored: int)
    requires 1000 <= year <= 9999
    requires StoredYear(row.processo) == Finite(stored)
    ensures NextNumProcesso(Some(row), year) == if stored < year % 100 then 1 else row.num_processo + 1
  {
    YearSuffixValue(year);
  }

  /** For a four-digit year, whatever the newest row's `processo` holds, the
      counter restarts exactly when its year field reads as a number below
      the current two-digit year; a year field that is missing or not a
      number (NaN) keeps the count going. */
  lemma NextNumProcessoRule(row: ProtocoloRow, year: nat)
    requires 1000 <= year <= 9999
    ensures NextNumProcesso(Some(row), year) ==
      if Less(StoredYear(row.processo), Finite(year % 100)) then 1 else row.num_processo + 1
    ensures StoredYear(row.processo) == NaN ==> NextNumProcesso(Some(row), year) == row.num_processo + 1
  {
    YearSuffixValue(year);
  }

  /** Within one year the counter goes up by one from the newest row's. */
  lemma CounterIncrementsWithinYear(row: ProtocoloRow, month: nat, year: nat)
    requires 1000 <= year <= 9999
    requires row.processo == FormatProcesso(month, row.num_processo, YearSuffix(year))
    ensures NextNumProcesso(Some(row), year) == row.num_processo + 1
  {
    ProcessoRoundTrip(month, row.num_processo, year);
    NextFromStoredYear(row, year, year % 100);
  }

  /** A newest row from an earlier year (same century) restarts the counter. */
  lemma CounterRestartsInLaterYear(row: ProtocoloRow, month: nat, earlier: nat, year: nat)
    requires 1000 <= earlier <= 9999 && 1000 <= year <= 9999
    requires earlier % 100 < year % 100
    requires row.processo == FormatProcesso(month, row.num_processo, YearSuffix(earlier))
    ensures NextNumProcesso(Some(row), year) == 1
  {
    ProcessoRoundTrip(month, row.num_processo, earlier);
    NextFromStoredYear(row, year, earlier % 100);
  }

  /** A row stored under a later year than the current one does not restart
      the counter: the comparison is `<`, not `!=`. */
  lemma CounterContinuesAfterLaterStoredYear(row: ProtocoloRow, month: nat, later: nat, year: nat)
    requires 1000 <= later <= 9999 && 1000 <= year <= 9999
    requires year % 100 <= later % 100
    requires row.processo == FormatProcesso(month, row.num_processo, YearSuffix(later))
    ensures NextNumProcesso(Some(row), year) == row.num_processo + 1
  {
    ProcessoRoundTrip(month, row.num_processo, later);
    NextFromStoredYear(row, year, later % 100);
  }

  /** A December row followed by a January request of the next year gives 1. */
  lemma DecemberThenJanuary(row: ProtocoloRow, year: nat)
    requires 1000 <= year && year + 1 <= 9999 && (year + 1) % 100 != 0
    requires row.processo == FormatProcesso(12, row.num_processo, YearSuffix(year))
    ensures NextNumProcesso(Some(row), year + 1) == 1
  {
    CounterRestartsInLaterYear(row, 12, year, year + 1);
  }

  /** From 2099 to 2100 the two-digit year goes from 99 to 00, which is not
      smaller, so the counter keeps counting instead of restarting. */
  lemma CenturyRolloverKeepsCounting(row: ProtocoloRow)
    requires row.processo == FormatProcesso(12, row.num_processo, YearSuffix(2099))
    ensures NextNumProcesso(Some(row), 2100) == row.num_processo + 1
  {
    CounterContinuesAfterLaterStoredYear(row, 12, 2099, 2100);
  }

  /** A `processo` with fewer than three "/"-separated fields has no year
      field; it reads as NaN, which never compares smaller, so the counter
      continues from that row. */
  lemma MissingYearFieldKeepsCounting(row: ProtocoloRow, year: nat)
    requires |Split(row.processo, '/')| < 3
    ensures StoredYear(row.processo) == NaN
    ensures NextNumProcesso(Some(row), year) == row.num_processo + 1
  {}

  /** In particular a `processo` with no "/" at all keeps the count going. */
  lemma ProcessoWithoutSeparatorKeepsCounting(row: ProtocoloRow, year: nat)
    requires '/' !in row.processo
    ensures NextNumProcesso(Some(row), year) == row.num_processo + 1
  {
    SplitWithoutSeparator(row.processo, '/');
    MissingYearFieldKeepsCounting(row, year);
  }
}
