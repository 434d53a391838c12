/** Gregorian calendar dates and their ISO 8601 extended calendar form `YYYY-MM-DD`
    (section 4.1.2.2 of ISO 8601:2004), as produced by `Date.prototype.toISOString().slice(0, 10)`
    for years 0 to 9999. The host calendar compares such strings with JavaScript's `<`,
    `<=` and `===`; the lemmas here prove that this string order is the order of the dates. */
module IsoDate {

  datatype Date = Date(year: int, month: int, day: int)

  predicate IsLeap(y: int) {
    (y % 4 == 0 && y % 100 != 0) || y % 400 == 0
  }

  function DaysInMonth(y: int, m: int): int {
    if m == 2 then (if IsLeap(y) then 29 else 28)
    else if m == 4 || m == 6 || m == 9 || m == 11 then 30
    else 31
  }

  /** A real calendar date whose year has four digits. */
  predicate Valid(d: Date) {
    0 <= d.year <= 9999 && 1 <= d.month <= 12 && 1 <= d.day <= DaysInMonth(d.year, d.month)
  }

  /** Chronological order of dates. */
  predicate Before(a: Date, b: Date) {
    a.year < b.year || (a.year == b.year && (a.month < b.month || (a.month == b.month && a.day < b.day)))
  }

  /** The calendar day after `d` (what `setDate(getDate() + 1)` gives in UTC). */
  function NextDay(d: Date): (r: Date)
    ensures Before(d, r)
    ensures Valid(d) && d.year < 9999 ==> Valid(r)
    ensures r.year == d.year || (r.year == d.year + 1 && r.month == 1 && r.day == 1)
  {
    if d.day < DaysInMonth(d.year, d.month) then Date(d.year, d.month, d.day + 1)
    else if d.month < 12 then Date(d.year, d.month + 1, 1)
    else Date(d.year + 1, 1, 1)
  }

  /** The date `n` days after `d`. */
  function AddDays(d: Date, n: nat): Date
    decreases n
  {
    if n == 0 then d else NextDay(AddDays(d, n - 1))
  }

  /** Within 59 days of a valid date the year advances at most once, and only into
      January or February; so from a date before the year 9999 every one of those
      days is still a valid four-digit-year date. */
  lemma {:induction false} AddDaysStaysValid(d: Date, n: nat)
    requires Valid(d) && d.year < 9999 && n < 59
    ensures Valid(AddDays(d, n))
    ensures AddDays(d, n).year == d.year
         || (AddDays(d, n).year == d.year + 1 && AddDays(d, n).month <= 2
             && (AddDays(d, n).month == 1 ==> AddDays(d, n).day <= n)
             && (AddDays(d, n).month == 2 ==> AddDays(d, n).day + 31 <= n))
    decreases n
  {
    if n > 0 {
      AddDaysStaysValid(d, n - 1);
    }
  }

  /** Each further day is later: the dates of a run of days are strictly increasing. */
  lemma {:induction false} AddDaysIncreasing(d: Date, i: nat, j: nat)
    requires i < j
    ensures Before(AddDays(d, i), AddDays(d, j))
    decreases j
  {
    if i < j - 1 {
      AddDaysIncreasing(d, i, j - 1);
    }
  }

  // ---------------------------------------------------------------------------
  // Decimal digits and the ISO string

  function Pow10(w: nat): nat {
    if w == 0 then 1 else 10 * Pow10(w - 1)
  }

  function DigitChar(n: int): char
    requires 0 <= n < 10
  {
    ('0' as int + n) as char
  }

  /** `n` written with exactly `w` decimal digits, zero-padded on the left. */
  function Pad(n: nat, w: nat): (s: string)
    requires n < Pow10(w)
    ensures |s| == w
    decreases w
  {
    if w == 0 then "" else Pad(n / 10, w - 1) + [DigitChar(n % 10)]
  }

  /** `YYYY-MM-DD` */
  function Iso(d: Date): (s: string)
    requires Valid(d)
    ensures |s| == 10 && s[4] == '-' && s[7] == '-'
  {
    Pad(d.year, 4) + "-" + Pad(d.month, 2) + "-" + Pad(d.day, 2)
  }

  /** `Date.prototype.toISOString()`: `YYYY-MM-DDTHH:mm:ss.sssZ`, in UTC. */
  function IsoInstant(d: Date, hour: nat, minute: nat, second: nat, milli: nat): (s: string)
    requires Valid(d) && hour < 24 && minute < 60 && second < 60 && milli < 1000
    ensures |s| == 24 && s[..10] == Iso(d) && s[10] == 'T' && s[13] == ':' && s[16] == ':'
  {
    assert Pow10(2) == 100 && Pow10(3) == 1000;
    Iso(d) + "T" + Pad(hour, 2) + ":" + Pad(minute, 2) + ":" + Pad(second, 2) + "." + Pad(milli, 3) + "Z"
  }

  // ---------------------------------------------------------------------------
  // JavaScript string comparison

  /** JavaScript's `a < b` on strings: lexicographic by code unit, a proper prefix
      being smaller. */
  predicate LexLess(a: string, b: string)
    decreases |a|
  {
    if |a| == 0 then |b| > 0
    else if |b| == 0 then false
    else if a[0] != b[0] then a[0] < b[0]
    else LexLess(a[1..], b[1..])
  }

  /** JavaScript's `a <= b` on strings, which is `!(b < a)`. */
  predicate LexLe(a: string, b: string) {
    !LexLess(b, a)
  }

  /** Comparing two concatenations whose first parts have the same length compares
      the first parts, and the second parts when the first parts are equal. */
  lemma {:induction false} LexConcat(p1: string, p2: string, q1: string, q2: string)
    requires |p1| == |q1|
    ensures LexLess(p1 + p2, q1 + q2) <==> LexLess(p1, q1) || (p1 == q1 && LexLess(p2, q2))
    decreases |p1|
  {
    if |p1| > 0 {
      assert (p1 + p2)[0] == p1[0] && (q1 + q2)[0] == q1[0];
      assert (p1 + p2)[1..] == p1[1..] + p2;
      assert (q1 + q2)[1..] == q1[1..] + q2;
      LexConcat(p1[1..], p2, q1[1..], q2);
      if p1[0] == q1[0] && p1[1..] == q1[1..] {
        assert p1 == [p1[0]] + p1[1..] && q1 == [q1[0]] + q1[1..];
      }
    } else {
      assert p1 + p2 == p2 && q1 + q2 == q2;
    }
  }

  lemma PadBound(n: nat, w: nat)
    requires w > 0 && n < Pow10(w)
    ensures n / 10 < Pow10(w - 1)
  {
  }

  /** Zero-padded decimal strings of one width are equal exactly when the numbers are. */
  lemma {:induction false} PadInjective(x: nat, y: nat, w: nat)
    requires x < Pow10(w) && y < Pow10(w)
    ensures Pad(x, w) == Pad(y, w) <==> x == y
    decreases w
  {
    if w > 0 {
      PadInjective(x / 10, y / 10, w - 1);
      var px, py := Pad(x / 10, w - 1), Pad(y / 10, w - 1);
      if Pad(x, w) == Pad(y, w) {
        assert Pad(x, w)[..w - 1] == px && Pad(y, w)[..w - 1] == py;
        assert Pad(x, w)[w - 1] == DigitChar(x % 10) && Pad(y, w)[w - 1] == DigitChar(y % 10);
        assert x == 10 * (x / 10) + x % 10 && y == 10 * (y / 10) + y % 10;
      }
    }
  }

  /** Zero-padded decimal strings of one width compare as the numbers do. */
  lemma {:induction false} PadOrder(x: nat, y: nat, w: nat)
    requires x < Pow10(w) && y < Pow10(w)
    ensures LexLess(Pad(x, w), Pad(y, w)) <==> x < y
    decreases w
  {
    if w > 0 {
      PadBound(x, w);
      PadBound(y, w);
      PadOrder(x / 10, y / 10, w - 1);
      PadInjective(x / 10, y / 10, w - 1);
      LexConcat(Pad(x / 10, w - 1), [DigitChar(x % 10)], Pad(y / 10, w - 1), [DigitChar(y % 10)]);
      assert LexLess([DigitChar(x % 10)], [DigitChar(y % 10)]) <==> x % 10 < y % 10;
      assert x == 10 * (x / 10) + x % 10 && y == 10 * (y / 10) + y % 10;
    } else {
      assert Pad(x, w) == "" == Pad(y, w);
    }
  }

  /** A common first character leaves the comparison to the rest. */
  lemma DashPrefix(p: string, q: string)
    ensures LexLess("-" + p, "-" + q) <==> LexLess(p, q)
  {
    assert ("-" + p)[1..] == p && ("-" + q)[1..] == q;
  }

  /** Strings of the shape `Y-M-D`, with parts of equal widths, compare part by part. */
  lemma DashedOrder(ya: string, ma: string, da: string, yb: string, mb: string, db: string)
    requires |ya| == |yb| && |ma| == |mb|
    ensures LexLess(ya + "-" + ma + "-" + da, yb + "-" + mb + "-" + db) <==>
              LexLess(ya, yb) || (ya == yb && (LexLess(ma, mb) || (ma == mb && LexLess(da, db))))
  {
    var ra, rb := "-" + da, "-" + db;
    assert ya + "-" + ma + "-" + da == ya + ("-" + (ma + ra));
    assert yb + "-" + mb + "-" + db == yb + ("-" + (mb + rb));
    LexConcat(ya, "-" + (ma + ra), yb, "-" + (mb + rb));
    DashPrefix(ma + ra, mb + rb);
    LexConcat(ma, ra, mb, rb);
    DashPrefix(da, db);
  }

  /** The ISO strings of two valid dates compare with JavaScript's `<` exactly as the
      dates compare in time. */
  lemma IsoOrder(a: Date, b: Date)
    requires Valid(a) && Valid(b)
    ensures LexLess(Iso(a), Iso(b)) <==> Before(a, b)
  {
    DashedOrder(Pad(a.year, 4), Pad(a.month, 2), Pad(a.day, 2), Pad(b.year, 4), Pad(b.month, 2), Pad(b.day, 2));
    PadOrder(a.year, b.year, 4);
    PadOrder(a.month, b.month, 2);
    PadOrder(a.day, b.day, 2);
    PadInjective(a.year, b.year, 4);
    PadInjective(a.month, b.month, 2);
  }

  /** Distinct valid dates have distinct ISO strings. */
  lemma IsoInjective(a: Date, b: Date)
    requires Valid(a) && Valid(b)
    ensures Iso(a) == Iso(b) <==> a == b
  {
    if Iso(a) == Iso(b) {
      IsoOrder(a, b);
      IsoOrder(b, a);
      assert !LexLess(Iso(a), Iso(a)) by { LexIrreflexive(Iso(a)); }
    }
  }

  lemma {:induction false} LexIrreflexive(s: string)
    ensures !LexLess(s, s)
    decreases |s|
  {
    if |s| > 0 {
      LexIrreflexive(s[1..]);
    }
  }
}
