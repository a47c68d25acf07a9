/**
 * Calendar timestamps and the two text forms the core writes:
 * `strftime("%Y-%m-%d %H:%M:%S")` (the scalping state file) and
 * `isoformat()` without microseconds (news items).
 */
module Clock {
  import opened Base
  import Decimal

  datatype Date = Date(year: nat, month: nat, day: nat)

  datatype DateTime = DateTime(year: nat, month: nat, day: nat, hour: nat, minute: nat, second: nat) {
    /** The ranges Python's `datetime` constructor accepts (day-of-month limits aside). */
    predicate Valid() {
      1 <= year <= 9999 && 1 <= month <= 12 && 1 <= day <= 31
      && hour < 24 && minute < 60 && second < 60
    }

    function DateOf(): Date { Date(year, month, day) }
  }

  predicate ValidDate(d: Date) {
    1 <= d.year <= 9999 && 1 <= d.month <= 12 && 1 <= d.day <= 31
  }

  function Pow10(w: nat): (p: nat)
    ensures p >= 1
  {
    if w == 0 then 1 else 10 * Pow10(w - 1)
  }

  /** The last `w` decimal digits of `n`, zero-padded to width `w` (`%02d`, `%04d`). */
  function Pad(n: nat, w: nat): (s: string)
    ensures |s| == w
    ensures forall i :: 0 <= i < |s| ==> '0' <= s[i] <= '9'
  {
    if w == 0 then "" else Pad(n / 10, w - 1) + [Decimal.DigitChar(n % 10)]
  }

  /** `strftime("%Y-%m-%d")`. */
  function DateString(d: Date): (s: string)
    ensures |s| == 10
  {
    Pad(d.year, 4) + "-" + Pad(d.month, 2) + "-" + Pad(d.day, 2)
  }

  function ClockString(dt: DateTime): (s: string)
    ensures |s| == 8
  {
    Pad(dt.hour, 2) + ":" + Pad(dt.minute, 2) + ":" + Pad(dt.second, 2)
  }

  /** `strftime("%Y-%m-%d %H:%M:%S")`. */
  function Timestamp(dt: DateTime): (s: string)
    ensures |s| == 19
    ensures DateString(dt.DateOf()) <= s
  {
    DateString(dt.DateOf()) + " " + ClockString(dt)
  }

  /** `isoformat()` of a datetime whose microsecond is zero. */
  function IsoString(dt: DateTime): (s: string)
    ensures |s| == 19 && s[10] == 'T'
    ensures s[..10] == Timestamp(dt)[..10] && s[11..] == Timestamp(dt)[11..]
  {
    DateString(dt.DateOf()) + "T" + ClockString(dt)
  }

  /** Zero-padded text of a number below `10^w` reads back as that number. */
  lemma {:induction false} PadValue(n: nat, w: nat)
    requires w >= 1 && n < Pow10(w)
    ensures Decimal.ParseNat(Pad(n, w)) == Some(n)
    decreases w
  {
    DropLastDigit(n, w);
    if w > 1 {
      PadValue(n / 10, w - 1);
      Decimal.ParseNatSnoc(Pad(n / 10, w - 1), n % 10);
    } else {
      assert Pad(n, w) == [Decimal.DigitChar(n)];
    }
  }

  /** Dropping the last digit of a number below `10^w` leaves one below `10^(w-1)`. */
  lemma DropLastDigit(n: nat, w: nat)
    requires w >= 1 && n < Pow10(w)
    ensures n == (n / 10) * 10 + n % 10
    ensures n / 10 < Pow10(w - 1)
    ensures w == 1 ==> n < 10
  {
    assert Pow10(w) == 10 * Pow10(w - 1);
  }

  lemma PadInjective(a: nat, b: nat, w: nat)
    requires 1 <= w && a < Pow10(w) && b < Pow10(w)
    requires Pad(a, w) == Pad(b, w)
    ensures a == b
  {
    PadValue(a, w);
    PadValue(b, w);
  }

  /** Distinct valid dates have distinct `%Y-%m-%d` text. */
  lemma DateStringInjective(d1: Date, d2: Date)
    requires ValidDate(d1) && ValidDate(d2)
    requires DateString(d1) == DateString(d2)
    ensures d1 == d2
  {
    var s1, s2 := DateString(d1), DateString(d2);
    assert Pow10(2) == 100 && Pow10(4) == 10000;
    assert s1[..4] == Pad(d1.year, 4) && s2[..4] == Pad(d2.year, 4);
    assert s1[5..7] == Pad(d1.month, 2) && s2[5..7] == Pad(d2.month, 2);
    assert s1[8..] == Pad(d1.day, 2) && s2[8..] == Pad(d2.day, 2);
    PadInjective(d1.year, d2.year, 4);
    PadInjective(d1.month, d2.month, 2);
    PadInjective(d1.day, d2.day, 2);
  }

  /**
   * A timestamp starts with the `%Y-%m-%d` text of a date exactly when it
   * was taken on that date: the test the scalping state file is reloaded by.
   */
  lemma TimestampOnDate(dt: DateTime, d: Date)
    requires dt.Valid() && ValidDate(d)
    ensures DateString(d) <= Timestamp(dt) <==> dt.DateOf() == d
  {
    if DateString(d) <= Timestamp(dt) {
      assert Timestamp(dt)[..10] == DateString(dt.DateOf());
      assert Timestamp(dt)[..10] == DateString(d);
      DateStringInjective(d, dt.DateOf());
    }
  }
}
