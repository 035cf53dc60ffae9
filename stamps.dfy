/** Instants as `timezone.now()` returns them, their order, and the
    `%Y%m%d%H%M%S` rendering used in order and payment numbers. */
module Stamps {
  import opened Common
  import opened Text

  type Year = y: int | 1 <= y <= 9999 witness 1
  type Month = m: int | 1 <= m <= 12 witness 1
  type Day = d: int | 1 <= d <= 31 witness 1
  type Hour = h: int | 0 <= h < 24
  type Minute = m: int | 0 <= m < 60
  type Second = s: int | 0 <= s < 60

  /** A calendar instant with whole-second precision. */
  datatype DateTime = DateTime(year: Year, month: Month, day: Day, hour: Hour, minute: Minute, second: Second)

  function Fields(t: DateTime): seq<int> {
    [t.year, t.month, t.day, t.hour, t.minute, t.second]
  }

  predicate LexLeq(a: seq<int>, b: seq<int>)
    requires |a| == |b|
  {
    a == [] || a[0] < b[0] || (a[0] == b[0] && LexLeq(a[1..], b[1..]))
  }

  /** `a <= b` on Python datetimes: the order of the calendar fields. */
  predicate NotAfter(a: DateTime, b: DateTime) {
    LexLeq(Fields(a), Fields(b))
  }

  /** `t.strftime('%Y%m%d%H%M%S')`. */
  function Stamp(t: DateTime): string {
    Digits(t.year, 4) + Digits(t.month, 2) + Digits(t.day, 2) +
    Digits(t.hour, 2) + Digits(t.minute, 2) + Digits(t.second, 2)
  }

  /** The inverse of `Stamp`: the instant a 14-digit field names, if any. */
  function ParseStamp(s: string): Option<DateTime>
  {
    if |s| != 14 || exists i :: 0 <= i < 14 && !IsDigit(s[i]) then None
    else
      var y, mo, d := ParseDigits(s[0..4]), ParseDigits(s[4..6]), ParseDigits(s[6..8]);
      var h, mi, sec := ParseDigits(s[8..10]), ParseDigits(s[10..12]), ParseDigits(s[12..14]);
      if 1 <= y <= 9999 && 1 <= mo <= 12 && 1 <= d <= 31 && h < 24 && mi < 60 && sec < 60
      then Some(DateTime(y, mo, d, h, mi, sec))
      else None
  }

  /** The rendering is 14 decimal digits and can be read back. */
  lemma StampRoundTrip(t: DateTime)
    ensures |Stamp(t)| == 14
    ensures forall i :: 0 <= i < 14 ==> IsDigit(Stamp(t)[i])
    ensures ParseStamp(Stamp(t)) == Some(t)
  {
    var s := Stamp(t);
    assert s[0..4] == Digits(t.year, 4);
    assert s[4..6] == Digits(t.month, 2);
    assert s[6..8] == Digits(t.day, 2);
    assert s[8..10] == Digits(t.hour, 2);
    assert s[10..12] == Digits(t.minute, 2);
    assert s[12..14] == Digits(t.second, 2);
    ParseDigitsOfDigits(t.year, 4);
    ParseDigitsOfDigits(t.month, 2);
    ParseDigitsOfDigits(t.day, 2);
    ParseDigitsOfDigits(t.hour, 2);
    ParseDigitsOfDigits(t.minute, 2);
    ParseDigitsOfDigits(t.second, 2);
  }

  /** Distinct instants give distinct stamps. */
  lemma StampInjective(a: DateTime, b: DateTime)
    requires Stamp(a) == Stamp(b)
    ensures a == b
  {
    StampRoundTrip(a);
    StampRoundTrip(b);
  }

  /** `NotAfter` is a total order on instants. */
  lemma NotAfterTotal(a: DateTime, b: DateTime)
    ensures NotAfter(a, b) || NotAfter(b, a)
    ensures NotAfter(a, b) && NotAfter(b, a) ==> a == b
  {
    LexLeqTotal(Fields(a), Fields(b));
  }

  /** The order on instants is transitive. */
  lemma NotAfterTransitive(a: DateTime, b: DateTime, c: DateTime)
    requires NotAfter(a, b) && NotAfter(b, c)
    ensures NotAfter(a, c)
  {
    LexLeqTransitive(Fields(a), Fields(b), Fields(c));
  }

  lemma {:induction false} LexLeqTransitive(a: seq<int>, b: seq<int>, c: seq<int>)
    requires |a| == |b| == |c| && LexLeq(a, b) && LexLeq(b, c)
    ensures LexLeq(a, c)
  {
    if a != [] && a[0] == b[0] == c[0] {
      LexLeqTransitive(a[1..], b[1..], c[1..]);
    }
  }

  lemma {:induction false} LexLeqTotal(a: seq<int>, b: seq<int>)
    requires |a| == |b|
    ensures LexLeq(a, b) || LexLeq(b, a)
    ensures LexLeq(a, b) && LexLeq(b, a) ==> a == b
  {
    if a != [] {
      LexLeqTotal(a[1..], b[1..]);
      if a[0] == b[0] && a[1..] == b[1..] {
        assert a == [a[0]] + a[1..] && b == [b[0]] + b[1..];
      }
    }
  }

  /** The shape shared by order and payment numbers: a fixed prefix, the
      `%Y%m%d%H%M%S` stamp of `now`, and the first `width` characters of a
      uuid4 hex value in upper case. */
  function StampedCode(prefix: string, now: DateTime, hex: string, width: nat): (r: string)
    requires IsUuidHex(hex) && width <= 32
    ensures |r| == |prefix| + 14 + width
    ensures r[..|prefix|] == prefix
    ensures r[|prefix|..|prefix| + 14] == Stamp(now) && ParseStamp(r[|prefix|..|prefix| + 14]) == Some(now)
    ensures r[|prefix| + 14..] == UpperHex(hex[..width])
    ensures forall i :: |prefix| + 14 <= i < |r| ==> IsUpperHex(r[i])
  {
    StampRoundTrip(now);
    var r := prefix + Stamp(now) + UpperHex(hex[..width]);
    assert r[|prefix|..|prefix| + 14] == Stamp(now);
    assert r[|prefix| + 14..] == UpperHex(hex[..width]);
    r
  }

  /** Reads the instant back out of a code of the `StampedCode` shape. */
  function DecodeStampedCode(prefix: string, width: nat, s: string): Option<DateTime> {
    if |s| != |prefix| + 14 + width || s[..|prefix|] != prefix then None
    else if exists i :: |prefix| + 14 <= i < |s| && !IsUpperHex(s[i]) then None
    else ParseStamp(s[|prefix|..|prefix| + 14])
  }

  lemma StampedCodeRoundTrip(prefix: string, now: DateTime, hex: string, width: nat)
    requires IsUuidHex(hex) && width <= 32
    ensures DecodeStampedCode(prefix, width, StampedCode(prefix, now, hex, width)) == Some(now)
  {
  }

  /** Two codes agree only when they were made at the same second from the
      same leading hex characters. */
  lemma StampedCodeInjective(prefix: string, a: DateTime, ha: string, b: DateTime, hb: string, width: nat)
    requires IsUuidHex(ha) && IsUuidHex(hb) && width <= 32
    requires StampedCode(prefix, a, ha, width) == StampedCode(prefix, b, hb, width)
    ensures a == b && ha[..width] == hb[..width]
  {
    var p := |prefix|;
    assert Stamp(a) == StampedCode(prefix, a, ha, width)[p..p + 14];
    StampInjective(a, b);
    UpperHexInjective(ha[..width], hb[..width]);
  }
}
