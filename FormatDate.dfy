/** `formatDate` (src/utils/formatDate.ts): a local date-time rendered as
    `YYYY/MM/DD hh:mm:ss` on a 24-hour clock. */
module FormatDate {
  import opened Decimal

  /** The fields `formatDate` reads from a JavaScript `Date`; `monthIndex` is
      `getMonth()`, counted from 0. */
  datatype DateTime = DateTime(year: int, monthIndex: nat, day: nat, hour: nat, minute: nat, second: nat)

  predicate ValidDateTime(d: DateTime) {
    d.monthIndex < 12 && 1 <= d.day <= 31 && d.hour < 24 && d.minute < 60 && d.second < 60
  }

  /** The inner `pad`: the decimal string of `n`, left-padded with '0' to two characters. */
  function Pad(n: nat): (r: string)
    ensures AllDigits(r)
    ensures |r| == if n < 10 then 2 else |NatToString(n)|
    ensures n >= 10 ==> r == NatToString(n)
    ensures n < 100 ==> |r| == 2 && DecimalValue(r) == n
  {
    PadFacts(n);
    ZeroPad(n, 2)
  }

  lemma PadFacts(n: nat)
    ensures |ZeroPad(n, 2)| == if n < 10 then 2 else |NatToString(n)|
    ensures n < 100 ==> |ZeroPad(n, 2)| == 2
    ensures DecimalValue(ZeroPad(n, 2)) == n
  {
    NatToStringLength(n, 1);
    assert Pow10(1) == 10;
    if n < 100 {
      assert Pow10(2) == 100;
      ZeroPadWidth(n, 2);
    }
    ZeroPadValue(n, 2);
  }

  function FormatDate(d: DateTime): string
  {
    IntToString(d.year) + "/" + Pad(d.monthIndex + 1) + "/" + Pad(d.day) + " "
      + Pad(d.hour) + ":" + Pad(d.minute) + ":" + Pad(d.second)
  }

  /** For a four-digit year and in-range fields the rendering is nineteen characters
      in the layout `YYYY/MM/DD hh:mm:ss`, and every field reads back to the value it
      encodes; the month field is `getMonth() + 1`, so it lies in 01..12. */
  lemma FormatDateLayout(d: DateTime)
    requires ValidDateTime(d) && 1000 <= d.year <= 9999
    ensures var r := FormatDate(d);
      && |r| == 19
      && r[4] == '/' && r[7] == '/' && r[10] == ' ' && r[13] == ':' && r[16] == ':'
      && AllDigits(r[0..4]) && DecimalValue(r[0..4]) == d.year
      && AllDigits(r[5..7]) && DecimalValue(r[5..7]) == d.monthIndex + 1
      && 1 <= DecimalValue(r[5..7]) <= 12
      && AllDigits(r[8..10]) && DecimalValue(r[8..10]) == d.day
      && AllDigits(r[11..13]) && DecimalValue(r[11..13]) == d.hour
      && AllDigits(r[14..16]) && DecimalValue(r[14..16]) == d.minute
      && AllDigits(r[17..19]) && DecimalValue(r[17..19]) == d.second
  {
    var y, mo, dd := IntToString(d.year), Pad(d.monthIndex + 1), Pad(d.day);
    var hh, mi, ss := Pad(d.hour), Pad(d.minute), Pad(d.second);
    YearField(d.year);
    assert FormatDate(d) == y + "/" + mo + "/" + dd + " " + hh + ":" + mi + ":" + ss;
    SlotsOfLayout(y, mo, dd, hh, mi, ss);
  }

  /** A four-digit year is rendered as four digits that read back to it. */
  lemma YearField(year: int)
    requires 1000 <= year <= 9999
    ensures |IntToString(year)| == 4 && AllDigits(IntToString(year)) && DecimalValue(IntToString(year)) == year
  {
    NatToStringLength(year, 4);
    NatToStringLength(year, 3);
    assert Pow10(3) == 1000 && Pow10(4) == 10000;
    NatToStringValue(year);
  }

  /** Where each field sits in `y/mo/dd hh:mi:ss` when the fields have their fixed widths. */
  lemma SlotsOfLayout(y: string, mo: string, dd: string, hh: string, mi: string, ss: string)
    requires |y| == 4 && |mo| == 2 && |dd| == 2 && |hh| == 2 && |mi| == 2 && |ss| == 2
    ensures var r := y + "/" + mo + "/" + dd + " " + hh + ":" + mi + ":" + ss;
      && |r| == 19
      && r[4] == '/' && r[7] == '/' && r[10] == ' ' && r[13] == ':' && r[16] == ':'
      && r[0..4] == y && r[5..7] == mo && r[8..10] == dd
      && r[11..13] == hh && r[14..16] == mi && r[17..19] == ss
  {
    var r := y + "/" + mo + "/" + dd + " " + hh + ":" + mi + ":" + ss;
    assert r[5..7] == mo by { assert r[5] == mo[0] && r[6] == mo[1]; }
    assert r[8..10] == dd by { assert r[8] == dd[0] && r[9] == dd[1]; }
    assert r[11..13] == hh by { assert r[11] == hh[0] && r[12] == hh[1]; }
    assert r[14..16] == mi by { assert r[14] == mi[0] && r[15] == mi[1]; }
    assert r[17..19] == ss by { assert r[17] == ss[0] && r[18] == ss[1]; }
  }
}
