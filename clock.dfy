/**
 * Naive local date-times to the second and the fixed-width renderings the program uses:
 * report file stamps `%Y-%m-%d_%H-%M-%S`, titles `%Y-%m-%d %H:%M:%S`, clock readings
 * `%H:%M:%S` and `isoformat()`.
 */
module Clock {
  import Text
  import Sorting

  datatype DateTime = DateTime(year: int, month: int, day: int, hour: int, minute: int, second: int)

  /** Four-digit years only: `%Y` does not pad earlier years to four digits. */
  predicate Valid(t: DateTime)
  {
    1000 <= t.year <= 9999 && 1 <= t.month <= 12 && 1 <= t.day <= 31
    && 0 <= t.hour < 24 && 0 <= t.minute < 60 && 0 <= t.second < 60
  }

  function Pow10(w: nat): (p: nat)
    ensures p >= 1
  {
    if w == 0 then 1 else 10 * Pow10(w - 1)
  }

  /** `n` in exactly `width` decimal digits, zero-padded on the left. */
  function Pad(n: nat, width: nat): (s: string)
    requires n < Pow10(width)
    ensures |s| == width && Text.AllDigits(s)
    ensures Text.DigitsValue(s) == n
  {
    if width == 0 then ""
    else
      var s := Pad(n / 10, width - 1) + [Text.DigitChar(n % 10)];
      assert s[..|s| - 1] == Pad(n / 10, width - 1);
      s
  }

  /**
   * `%Y-%m-%d<mid>%H<sep>%M<sep>%S`: every stamp the program writes has this shape,
   * with fields of fixed width.
   */
  function Stamp(t: DateTime, mid: char, sep: char): (s: string)
    requires Valid(t)
    ensures |s| == 19
  {
    Pad(t.year, 4) + ("-" + (Pad(t.month, 2) + ("-" + (Pad(t.day, 2) + ([mid] +
      (Pad(t.hour, 2) + ([sep] + (Pad(t.minute, 2) + ([sep] + Pad(t.second, 2))))))))))
  }

  /** `%Y-%m-%d_%H-%M-%S`: the stem of a report file name. */
  function FileStamp(t: DateTime): string
    requires Valid(t)
  {
    Stamp(t, '_', '-')
  }

  /** `%Y-%m-%d %H:%M:%S`: the time in a report title. */
  function TitleStamp(t: DateTime): string
    requires Valid(t)
  {
    Stamp(t, ' ', ':')
  }

  /** `isoformat()` of a time with no fractional second. */
  function IsoSeconds(t: DateTime): string
    requires Valid(t)
  {
    Stamp(t, 'T', ':')
  }

  function DatePart(t: DateTime): string
    requires Valid(t)
  {
    Pad(t.year, 4) + "-" + Pad(t.month, 2) + "-" + Pad(t.day, 2)
  }

  function TimePart(t: DateTime, sep: char): string
    requires Valid(t)
  {
    Pad(t.hour, 2) + [sep] + Pad(t.minute, 2) + [sep] + Pad(t.second, 2)
  }

  lemma StampParts(t: DateTime, mid: char, sep: char)
    requires Valid(t)
    ensures Stamp(t, mid, sep) == DatePart(t) + [mid] + TimePart(t, sep)
  {
  }

  /** `%H:%M:%S` of a second of the day. */
  function ClockReading(secondOfDay: nat): (s: string)
    requires secondOfDay < 86400
    ensures |s| == 8 && s[2] == ':' && s[5] == ':'
  {
    Pad(secondOfDay / 3600, 2) + ":" + Pad(secondOfDay / 60 % 60, 2) + ":" + Pad(secondOfDay % 60, 2)
  }

  /** Chronological order of valid date-times, field by field. */
  predicate Earlier(a: DateTime, b: DateTime)
  {
    a.year < b.year || (a.year == b.year && (
    a.month < b.month || (a.month == b.month && (
    a.day < b.day || (a.day == b.day && (
    a.hour < b.hour || (a.hour == b.hour && (
    a.minute < b.minute || (a.minute == b.minute && a.second < b.second)))))))))
  }

  /**
   * File stamps sort as their times do, so a newest-first listing by name is a
   * newest-first listing by time.
   */
  lemma StampOrder(t1: DateTime, t2: DateTime, mid: char, sep: char)
    requires Valid(t1) && Valid(t2)
    ensures Sorting.Less(Stamp(t1, mid, sep), Stamp(t2, mid, sep)) <==> Earlier(t1, t2)
  {
    var h1, h2 := TimeOfDay(t1, sep), TimeOfDay(t2, sep);
    var d1, d2 := Pad(t1.day, 2) + ([mid] + h1), Pad(t2.day, 2) + ([mid] + h2);
    var m1, m2 := Pad(t1.month, 2) + ("-" + d1), Pad(t2.month, 2) + ("-" + d2);
    assert Stamp(t1, mid, sep) == Pad(t1.year, 4) + ("-" + m1);
    assert Stamp(t2, mid, sep) == Pad(t2.year, 4) + ("-" + m2);
    PadFieldOrder(t1.year, t2.year, 4, "-" + m1, "-" + m2);
    LessAppend("-", m1, m2);
    PadFieldOrder(t1.month, t2.month, 2, "-" + d1, "-" + d2);
    LessAppend("-", d1, d2);
    PadFieldOrder(t1.day, t2.day, 2, [mid] + h1, [mid] + h2);
    LessAppend([mid], h1, h2);
    TimeOfDayOrder(t1, t2, sep);
  }

  /** The `%H-%M-%S` tail of a stamp. */
  function TimeOfDay(t: DateTime, sep: char): string
    requires Valid(t)
  {
    Pad(t.hour, 2) + ([sep] + (Pad(t.minute, 2) + ([sep] + Pad(t.second, 2))))
  }

  /** The time-of-day tails of two stamps compare as the times of day do. */
  lemma TimeOfDayOrder(t1: DateTime, t2: DateTime, sep: char)
    requires Valid(t1) && Valid(t2)
    ensures Sorting.Less(TimeOfDay(t1, sep), TimeOfDay(t2, sep))
      <==> t1.hour < t2.hour || (t1.hour == t2.hour && (
           t1.minute < t2.minute || (t1.minute == t2.minute && t1.second < t2.second)))
  {
    var s1, s2 := [sep] + Pad(t1.second, 2), [sep] + Pad(t2.second, 2);
    var n1, n2 := Pad(t1.minute, 2) + s1, Pad(t2.minute, 2) + s2;
    PadFieldOrder(t1.hour, t2.hour, 2, [sep] + n1, [sep] + n2);
    LessAppend([sep], n1, n2);
    PadFieldOrder(t1.minute, t2.minute, 2, s1, s2);
    LessAppend([sep], Pad(t1.second, 2), Pad(t2.second, 2));
    PadOrder(t1.second, t2.second, 2);
  }

  /** A fixed-width field decides the order unless equal, when what follows decides it. */
  lemma PadFieldOrder(m: nat, n: nat, width: nat, x: string, y: string)
    requires m < Pow10(width) && n < Pow10(width)
    ensures Sorting.Less(Pad(m, width) + x, Pad(n, width) + y) <==> m < n || (m == n && Sorting.Less(x, y))
  {
    PadOrder(m, n, width);
    if m == n {
      LessAppend(Pad(m, width), x, y);
    } else {
      assert Pad(m, width) != Pad(n, width);
      LessPrefixDecides(Pad(m, width), Pad(n, width), x, y);
    }
  }

  /** Fixed-width numbers compare as strings the way they compare as numbers. */
  lemma {:induction false} PadOrder(a: nat, b: nat, width: nat)
    requires a < Pow10(width) && b < Pow10(width)
    ensures Sorting.Less(Pad(a, width), Pad(b, width)) <==> a < b
    decreases width
  {
    if width > 0 {
      var pa, pb := Pad(a, width), Pad(b, width);
      PadOrder(a / 10, b / 10, width - 1);
      PadHead(a, width);
      PadHead(b, width);
      if a / 10 == b / 10 {
        LessAppend(Pad(a / 10, width - 1), [Text.DigitChar(a % 10)], [Text.DigitChar(b % 10)]);
        assert Sorting.Less([Text.DigitChar(a % 10)], [Text.DigitChar(b % 10)]) <==> a % 10 < b % 10;
      } else {
        LessPrefixDecides(Pad(a / 10, width - 1), Pad(b / 10, width - 1), [Text.DigitChar(a % 10)], [Text.DigitChar(b % 10)]);
      }
    }
  }

  lemma PadHead(n: nat, width: nat)
    requires width > 0 && n < Pow10(width)
    ensures n / 10 < Pow10(width - 1)
    ensures Pad(n, width) == Pad(n / 10, width - 1) + [Text.DigitChar(n % 10)]
  {
  }

  /** With a common prefix, the order is decided by what follows it. */
  lemma {:induction false} LessAppend(p: string, a: string, b: string)
    ensures Sorting.Less(p + a, p + b) <==> Sorting.Less(a, b)
    decreases |p|
  {
    if p != [] {
      assert (p + a)[0] == p[0] == (p + b)[0];
      assert (p + a)[1..] == p[1..] + a && (p + b)[1..] == p[1..] + b;
      LessAppend(p[1..], a, b);
    } else {
      assert p + a == a && p + b == b;
    }
  }

  /** Between two different strings of equal length, what follows them does not matter. */
  lemma {:induction false} LessPrefixDecides(a: string, b: string, x: string, y: string)
    requires |a| == |b| && a != b
    ensures Sorting.Less(a + x, b + y) <==> Sorting.Less(a, b)
    decreases |a|
  {
    assert a[0] == (a + x)[0] && b[0] == (b + y)[0];
    if a[0] == b[0] {
      assert a[1..] != b[1..] by {
        assert a == [a[0]] + a[1..] && b == [b[0]] + b[1..];
      }
      assert (a + x)[1..] == a[1..] + x && (b + y)[1..] == b[1..] + y;
      LessPrefixDecides(a[1..], b[1..], x, y);
    }
  }
}
