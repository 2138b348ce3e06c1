/** The server's timestamps (the `data_hora` columns, filled by the
    database clock) and the day/month/year text the server sends them as
    (PHP's `format('d/m/Y H:i:s')`, backend/api.php:113 and :139), which the
    dashboard splits apart again. */
module Stamps {
  import opened Text

  datatype Stamp = Stamp(year: nat, month: nat, day: nat, hour: nat, minute: nat, second: nat)

  /** A calendar time with a four-digit year. */
  predicate ValidStamp(t: Stamp) {
    t.year < 10000 && 1 <= t.month <= 12 && 1 <= t.day <= 31
    && t.hour < 24 && t.minute < 60 && t.second < 60
  }

  /** Field-by-field order: year, then month, day, hour, minute, second. */
  predicate Earlier(a: Stamp, b: Stamp) {
    if a.year != b.year then a.year < b.year
    else if a.month != b.month then a.month < b.month
    else if a.day != b.day then a.day < b.day
    else if a.hour != b.hour then a.hour < b.hour
    else if a.minute != b.minute then a.minute < b.minute
    else a.second < b.second
  }

  /** One number per stamp, by which the database orders `data_hora`. */
  function StampKey(t: Stamp): nat {
    Shift(Shift(Shift(DayKey(t), t.hour), t.minute), t.second)
  }

  /** The date part of the key. */
  function DayKey(t: Stamp): nat {
    Shift(Shift(t.year, t.month), t.day)
  }

  /** Two more decimal digits `u` after `x`. */
  function Shift(x: nat, u: nat): nat { x * 100 + u }

  lemma KeyStep(x: nat, u: nat, y: nat, v: nat)
    requires u < 100 && v < 100
    ensures Shift(x, u) < Shift(y, v) <==> x < y || (x == y && u < v)
    ensures Shift(x, u) == Shift(y, v) <==> x == y && u == v
  {
    if x < y {
      assert x * 100 + 100 <= y * 100;
    } else if y < x {
      assert y * 100 + 100 <= x * 100;
    }
  }

  /** On valid stamps the key order is the calendar order, so sorting rows
      by key sorts them by time. */
  lemma StampKeyOrder(a: Stamp, b: Stamp)
    requires ValidStamp(a) && ValidStamp(b)
    ensures StampKey(a) < StampKey(b) <==> Earlier(a, b)
    ensures StampKey(a) == StampKey(b) <==> a == b
  {
    DayKeyOrder(a, b);
    TimeStepsOrder(DayKey(a), a.hour, a.minute, a.second, DayKey(b), b.hour, b.minute, b.second);
  }

  /** Three two-digit fields appended to two keys compare field by field. */
  lemma TimeStepsOrder(x: nat, h: nat, mi: nat, se: nat, y: nat, h': nat, mi': nat, se': nat)
    requires h < 100 && mi < 100 && se < 100 && h' < 100 && mi' < 100 && se' < 100
    ensures Shift(Shift(Shift(x, h), mi), se) < Shift(Shift(Shift(y, h'), mi'), se') <==>
      x < y || (x == y && (h < h' || (h == h' && (mi < mi' || (mi == mi' && se < se')))))
    ensures Shift(Shift(Shift(x, h), mi), se) == Shift(Shift(Shift(y, h'), mi'), se') <==>
      x == y && h == h' && mi == mi' && se == se'
  {
    KeyStep(x, h, y, h');
    KeyStep(Shift(x, h), mi, Shift(y, h'), mi');
    KeyStep(Shift(Shift(x, h), mi), se, Shift(Shift(y, h'), mi'), se');
  }

  /** The date keys order stamps by calendar day. */
  lemma DayKeyOrder(a: Stamp, b: Stamp)
    requires ValidStamp(a) && ValidStamp(b)
    ensures DayKey(a) < DayKey(b) <==>
      a.year < b.year || (a.year == b.year && (a.month < b.month || (a.month == b.month && a.day < b.day)))
    ensures DayKey(a) == DayKey(b) <==> a.year == b.year && a.month == b.month && a.day == b.day
  {
    KeyStep(a.year, a.month, b.year, b.month);
    KeyStep(Shift(a.year, a.month), a.day, Shift(b.year, b.month), b.day);
  }

  /** `format('d/m/Y H:i:s')`: two-digit day, month, hour, minute and second
      and a four-digit year. */
  function FormatDmyHis(t: Stamp): (r: string)
    ensures |r| == 19
  {
    DateTimeText(Padded(t.day, 2), Padded(t.month, 2), Padded(t.year, 4),
                 Padded(t.hour, 2), Padded(t.minute, 2), Padded(t.second, 2))
  }

  /** "D/M/Y H:M:S" from its six fields. */
  function DateTimeText(d: string, mo: string, y: string, h: string, mi: string, se: string): (r: string)
    ensures |r| == |d| + |mo| + |y| + |h| + |mi| + |se| + 5
  {
    d + "/" + mo + "/" + y + " " + h + ":" + mi + ":" + se
  }

  lemma DigitsHaveNo(s: string, c: char)
    requires IsAllDigits(s) && !IsDigit(c)
    ensures c !in s
  {
  }
}
