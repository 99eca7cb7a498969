/** Calendar dates as the transactions table stores them, `date.isoformat()`, and the
    code-point order in which a date's ISO text compares with a bound given as text. */
module Dates {
  import opened Json

  datatype DateParts = DateParts(year: int, month: int, day: int)

  /** Python's `date` range; month lengths are not checked. */
  predicate ValidDate(d: DateParts)
  {
    1 <= d.year <= 9999 && 1 <= d.month <= 12 && 1 <= d.day <= 31
  }

  type Date = d: DateParts | ValidDate(d) witness DateParts(1, 1, 1)

  /** A number whose order is the calendar order of valid dates. */
  function Ordinal(d: Date): int
  {
    d.year * 10000 + d.month * 100 + d.day
  }

  function Pow10(w: nat): nat
  {
    if w == 0 then 1 else 10 * Pow10(w - 1)
  }

  predicate IsDigit(c: char)
  {
    '0' <= c <= '9'
  }

  function DigitChar(n: int): char
    requires 0 <= n < 10
  {
    ('0' as int + n) as char
  }

  /** `n` in decimal, zero-padded to `width` digits. */
  function Digits(n: nat, width: nat): (r: string)
    ensures |r| == width
    ensures forall i :: 0 <= i < width ==> IsDigit(r[i])
  {
    if width == 0 then "" else Digits(n / 10, width - 1) + [DigitChar(n % 10)]
  }

  function ParseDigits(s: string): nat
    requires forall i :: 0 <= i < |s| ==> IsDigit(s[i])
  {
    if s == [] then 0
    else
      var c := s[|s| - 1];
      assert IsDigit(c);
      ParseDigits(s[..|s| - 1]) * 10 + (c as int - '0' as int)
  }

  /** `date.isoformat()`: `YYYY-MM-DD`. */
  function IsoFormat(d: Date): (r: string)
    ensures |r| == 10 && r[4] == '-' && r[7] == '-'
  {
    Digits(d.year, 4) + "-" + Digits(d.month, 2) + "-" + Digits(d.day, 2)
  }

  predicate IsoShaped(s: string)
  {
    |s| == 10 && s[4] == '-' && s[7] == '-' &&
    forall i :: 0 <= i < 10 && i != 4 && i != 7 ==> IsDigit(s[i])
  }

  /** Reads `YYYY-MM-DD` text back into a date. */
  function ParseIso(s: string): Option<Date>
  {
    if IsoShaped(s) then
      assert forall i :: 0 <= i < 4 ==> s[..4][i] == s[i];
      assert forall i :: 0 <= i < 2 ==> s[5..7][i] == s[5 + i] && s[8..][i] == s[8 + i];
      var d := DateParts(ParseDigits(s[..4]), ParseDigits(s[5..7]), ParseDigits(s[8..]));
      if ValidDate(d) then Some(d) else None
    else None
  }

  lemma {:induction false} ParseDigitsOfDigits(n: nat, w: nat)
    requires n < Pow10(w)
    ensures ParseDigits(Digits(n, w)) == n
  {
    if w > 0 {
      ParseDigitsOfDigits(n / 10, w - 1);
      var s := Digits(n, w);
      assert s[..|s| - 1] == Digits(n / 10, w - 1);
    }
  }

  /** Rendering a date and reading it back gives the date again. */
  lemma ParseIsoRoundTrip(d: Date)
    ensures ParseIso(IsoFormat(d)) == Some(d)
  {
    var s := IsoFormat(d);
    var y, m, dd := Digits(d.year, 4), Digits(d.month, 2), Digits(d.day, 2);
    assert s == y + "-" + m + "-" + dd;
    assert s[..4] == y && s[5..7] == m && s[8..] == dd;
    assert IsoShaped(s) by {
      forall i | 0 <= i < 10 && i != 4 && i != 7 ensures IsDigit(s[i]) {
        if i < 4 { assert s[i] == y[i]; }
        else if i < 7 { assert s[i] == m[i - 5]; }
        else { assert s[i] == dd[i - 8]; }
      }
    }
    ParseDigitsOfDigits(d.year, 4);
    ParseDigitsOfDigits(d.month, 2);
    ParseDigitsOfDigits(d.day, 2);
  }

  /** `a <= b` in code-point order (how two strings compare). */
  predicate StrLe(a: string, b: string)
  {
    if a == [] then true
    else if b == [] then false
    else a[0] < b[0] || (a[0] == b[0] && StrLe(a[1..], b[1..]))
  }

  lemma {:induction false} StrLeConcat(a1: string, a2: string, b1: string, b2: string)
    requires |a1| == |b1|
    ensures StrLe(a1 + a2, b1 + b2) <==> (a1 != b1 && StrLe(a1, b1)) || (a1 == b1 && StrLe(a2, b2))
  {
    if a1 != [] {
      assert (a1 + a2)[0] == a1[0] && (b1 + b2)[0] == b1[0];
      assert (a1 + a2)[1..] == a1[1..] + a2 && (b1 + b2)[1..] == b1[1..] + b2;
      StrLeConcat(a1[1..], a2, b1[1..], b2);
      assert a1 == b1 <==> a1[0] == b1[0] && a1[1..] == b1[1..];
    } else {
      assert a1 + a2 == a2 && b1 + b2 == b2;
    }
  }

  /** Zero-padded numerals of one width compare as the numbers do. */
  lemma {:induction false} DigitsOrder(x: nat, y: nat, w: nat)
    requires x < Pow10(w) && y < Pow10(w)
    ensures StrLe(Digits(x, w), Digits(y, w)) <==> x <= y
    ensures Digits(x, w) == Digits(y, w) <==> x == y
  {
    if w > 0 {
      DigitsOrder(x / 10, y / 10, w - 1);
      var a, b := Digits(x / 10, w - 1), Digits(y / 10, w - 1);
      var cx, cy := DigitChar(x % 10), DigitChar(y % 10);
      StrLeConcat(a, [cx], b, [cy]);
      assert StrLe([cx], [cy]) <==> x % 10 <= y % 10 by {
        assert [cx][1..] == [] && [cy][1..] == [];
      }
      assert x == 10 * (x / 10) + x % 10 && y == 10 * (y / 10) + y % 10;
      assert Digits(x, w) == a + [cx] && Digits(y, w) == b + [cy];
      assert a + [cx] == b + [cy] <==> a == b && cx == cy by {
        if a + [cx] == b + [cy] {
          assert (a + [cx])[..w - 1] == a && (b + [cy])[..w - 1] == b;
          assert (a + [cx])[w - 1] == cx && (b + [cy])[w - 1] == cy;
        }
      }
    }
  }

  /** Comparing ISO renderings as text orders dates as the calendar does; this is why a
      `YYYY-MM-DD` bound compared with a rendered date gives the date comparison. */
  lemma IsoOrderIsDateOrder(a: Date, b: Date)
    ensures StrLe(IsoFormat(a), IsoFormat(b)) <==> Ordinal(a) <= Ordinal(b)
  {
    var ya, ma, da := Digits(a.year, 4), Digits(a.month, 2), Digits(a.day, 2);
    var yb, mb, db := Digits(b.year, 4), Digits(b.month, 2), Digits(b.day, 2);
    assert Pow10(4) == 10000 && Pow10(2) == 100;
    DigitsOrder(a.year, b.year, 4);
    DigitsOrder(a.month, b.month, 2);
    DigitsOrder(a.day, b.day, 2);
    assert IsoFormat(a) == ya + ("-" + (ma + ("-" + da)));
    assert IsoFormat(b) == yb + ("-" + (mb + ("-" + db)));
    StrLeConcat(ya, "-" + (ma + ("-" + da)), yb, "-" + (mb + ("-" + db)));
    StrLeConcat("-", ma + ("-" + da), "-", mb + ("-" + db));
    StrLeConcat(ma, "-" + da, mb, "-" + db);
    StrLeConcat("-", da, "-", db);
  }
}
