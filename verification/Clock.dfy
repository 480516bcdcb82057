/** `_now` (db.py): UTC timestamps that are strictly increasing, and whose ISO
    8601 text sorts as they do. */
module Clock {
  import opened Common

  /** A naive-UTC `datetime`, with its calendar. */
  datatype DateTime = DateTime(year: nat, month: nat, day: nat, hour: nat, minute: nat, second: nat, micro: nat)

  predicate Leap(year: nat) {
    year % 4 == 0 && (year % 100 != 0 || year % 400 == 0)
  }

  function DaysIn(year: nat, month: nat): nat {
    if month == 2 then (if Leap(year) then 29 else 28)
    else if month in {4, 6, 9, 11} then 30
    else 31
  }

  predicate Valid(d: DateTime) {
    && 1 <= d.year <= 9999 && 1 <= d.month <= 12 && 1 <= d.day <= DaysIn(d.year, d.month)
    && d.hour < 24 && d.minute < 60 && d.second < 60 && d.micro < 1000000
  }

  const MAX := DateTime(9999, 12, 31, 23, 59, 59, 999999)

  /** The order of instants: the largest unit that differs decides. */
  predicate Before(a: DateTime, b: DateTime) {
    if a.year != b.year then a.year < b.year
    else if a.month != b.month then a.month < b.month
    else if a.day != b.day then a.day < b.day
    else if a.hour != b.hour then a.hour < b.hour
    else if a.minute != b.minute then a.minute < b.minute
    else if a.second != b.second then a.second < b.second
    else a.micro < b.micro
  }

  /** `d + timedelta(microseconds=1)`, with every carry; past the last
      representable instant it raises. */
  function NextMicro(d: DateTime): Option<DateTime> {
    if d.micro < 999999 then Some(d.(micro := d.micro + 1))
    else if d.second < 59 then Some(d.(micro := 0, second := d.second + 1))
    else if d.minute < 59 then Some(d.(micro := 0, second := 0, minute := d.minute + 1))
    else if d.hour < 23 then Some(d.(micro := 0, second := 0, minute := 0, hour := d.hour + 1))
    else if d.day < DaysIn(d.year, d.month) then Some(DateTime(d.year, d.month, d.day + 1, 0, 0, 0, 0))
    else if d.month < 12 then Some(DateTime(d.year, d.month + 1, 1, 0, 0, 0, 0))
    else if d.year < 9999 then Some(DateTime(d.year + 1, 1, 1, 0, 0, 0, 0))
    else None
  }

  /** It is the least valid instant after `d`, and only the last one has none. */
  lemma NextMicroIsNext(d: DateTime, other: DateTime)
    requires Valid(d) && Valid(other)
    ensures NextMicro(d).None? <==> d == MAX
    ensures NextMicro(d).Some? ==>
              var n := NextMicro(d).value;
              Valid(n) && Before(d, n) && (Before(d, other) ==> other == n || Before(n, other))
  {
  }

  /** The next stamp given out: the reading, nudged past the last one. */
  function Stamp(last: Option<DateTime>, reading: DateTime): Option<DateTime> {
    if last.None? || Before(last.value, reading) then Some(reading) else NextMicro(last.value)
  }

  /** The stamps given out for a sequence of readings, up to an overflow. */
  function Stamps(last: Option<DateTime>, readings: seq<DateTime>): seq<DateTime>
    decreases |readings|
  {
    if readings == [] then []
    else
      match Stamp(last, readings[0])
      case None => []
      case Some(d) => [d] + Stamps(Some(d), readings[1..])
  }

  // --------------------------------------------------------------- the text

  function Digit(n: nat): char
    requires n < 10
  {
    "0123456789"[n]
  }

  function Pow10(w: nat): nat {
    if w == 0 then 1 else 10 * Pow10(w - 1)
  }

  /** `n` in `w` decimal digits. */
  function Digits(n: nat, w: nat): string {
    if w == 0 then "" else Digits(n / 10, w - 1) + [Digit(n % 10)]
  }

  function Offset(): string {
    "+00:00"
  }

  /** The fraction is left out when it is zero. */
  function Tail(micro: nat): string {
    if micro == 0 then Offset() else "." + Digits(micro, 6) + Offset()
  }

  function Clockface(d: DateTime): string {
    Digits(d.hour, 2) + (":" + (Digits(d.minute, 2) + (":" + (Digits(d.second, 2) + Tail(d.micro)))))
  }

  /** `isoformat()`. */
  function Iso(d: DateTime): string {
    Digits(d.year, 4) + ("-" + (Digits(d.month, 2) + ("-" + (Digits(d.day, 2) + ("T" + Clockface(d))))))
  }

  predicate TextBefore(s: string, t: string) {
    t != "" && (s == "" || s[0] < t[0] || (s[0] == t[0] && TextBefore(s[1..], t[1..])))
  }

  lemma {:induction false} SamePrefix(p: string, s: string, t: string)
    ensures TextBefore(p + s, p + t) <==> TextBefore(s, t)
  {
    if p == "" {
      assert p + s == s && p + t == t;
    } else {
      SamePrefix(p[1..], s, t);
      assert (p + s)[1..] == p[1..] + s && (p + t)[1..] == p[1..] + t;
    }
  }

  /** Two texts of one length decide, if they differ, whatever follows them. */
  lemma {:induction false} DifferentPrefix(p: string, q: string, s: string, t: string)
    requires |p| == |q| && p != q
    ensures TextBefore(p + s, q + t) <==> TextBefore(p, q)
  {
    assert p != "" && q != "";
    assert (p + s)[1..] == p[1..] + s && (q + t)[1..] == q[1..] + t;
    assert p == [p[0]] + p[1..] && q == [q[0]] + q[1..];
    if p[0] == q[0] {
      DifferentPrefix(p[1..], q[1..], s, t);
    }
  }

  lemma {:induction false} DigitsLength(n: nat, w: nat)
    ensures |Digits(n, w)| == w
  {
    if w > 0 { DigitsLength(n / 10, w - 1); }
  }

  lemma DigitOrder(m: nat, n: nat)
    requires m < 10 && n < 10
    ensures m < n <==> TextBefore([Digit(m)], [Digit(n)])
    ensures m == n <==> Digit(m) == Digit(n)
  {
    assert Digit(m) as int == '0' as int + m && Digit(n) as int == '0' as int + n;
  }

  /** The last digit decides between texts that agree before it. */
  lemma LastDigit(p: string, m: nat, n: nat)
    requires m < 10 && n < 10
    ensures m == n <==> p + [Digit(m)] == p + [Digit(n)]
    ensures m < n <==> TextBefore(p + [Digit(m)], p + [Digit(n)])
  {
    SamePrefix(p, [Digit(m)], [Digit(n)]);
    DigitOrder(m, n);
    assert (p + [Digit(m)])[|p|] == Digit(m) && (p + [Digit(n)])[|p|] == Digit(n);
  }

  /** Equal-width decimals sort as their numbers do. */
  lemma {:induction false} DigitsOrder(m: nat, n: nat, w: nat)
    requires m < Pow10(w) && n < Pow10(w)
    ensures m == n <==> Digits(m, w) == Digits(n, w)
    ensures m < n <==> TextBefore(Digits(m, w), Digits(n, w))
  {
    if w > 0 {
      DigitsOrder(m / 10, n / 10, w - 1);
      DigitsLength(m / 10, w - 1);
      DigitsLength(n / 10, w - 1);
      var p, q := Digits(m / 10, w - 1), Digits(n / 10, w - 1);
      if m / 10 == n / 10 {
        LastDigit(p, m % 10, n % 10);
      } else {
        DifferentPrefix(p, q, [Digit(m % 10)], [Digit(n % 10)]);
        assert (p + [Digit(m % 10)])[..w - 1] == p && (q + [Digit(n % 10)])[..w - 1] == q;
      }
    }
  }

  /** A fixed-width field decides first; equal fields leave it to the rest. */
  lemma Field(m: nat, n: nat, w: nat, s: string, t: string)
    requires m < Pow10(w) && n < Pow10(w)
    ensures TextBefore(Digits(m, w) + s, Digits(n, w) + t) <==> m < n || (m == n && TextBefore(s, t))
  {
    DigitsOrder(m, n, w);
    DigitsLength(m, w);
    DigitsLength(n, w);
    if m == n {
      SamePrefix(Digits(m, w), s, t);
    } else {
      DifferentPrefix(Digits(m, w), Digits(n, w), s, t);
    }
  }

  lemma SeparatorIsShared(c: char, s: string, t: string)
    ensures TextBefore([c] + s, [c] + t) <==> TextBefore(s, t)
  {
    SamePrefix([c], s, t);
  }

  /** An omitted fraction sorts before every fraction: `+` is before `.`. */
  lemma TailOrder(m: nat, n: nat)
    requires m < 1000000 && n < 1000000
    ensures TextBefore(Tail(m), Tail(n)) <==> m < n
  {
    assert Pow10(6) == 1000000 by { assert Pow10(3) == 1000; }
    var o := Offset();
    assert !TextBefore(o, o) by { SamePrefix(o, "", ""); assert o + "" == o; }
    if m == 0 && n != 0 {
      assert Tail(m)[0] == '+' && Tail(n)[0] == '.';
    } else if m != 0 && n == 0 {
      assert Tail(m)[0] == '.' && Tail(n)[0] == '+';
    } else if m != 0 {
      SeparatorIsShared('.', Digits(m, 6) + o, Digits(n, 6) + o);
      assert Tail(m) == ['.'] + (Digits(m, 6) + o) && Tail(n) == ['.'] + (Digits(n, 6) + o);
      Field(m, n, 6, o, o);
    }
  }

  lemma ClockfaceOrder(a: DateTime, b: DateTime)
    requires Valid(a) && Valid(b)
    ensures TextBefore(Clockface(a), Clockface(b)) <==>
            Before(a.(year := 1, month := 1, day := 1), b.(year := 1, month := 1, day := 1))
  {
    assert Pow10(2) == 100;
    TailOrder(a.micro, b.micro);
    var s1, t1 := Digits(a.second, 2) + Tail(a.micro), Digits(b.second, 2) + Tail(b.micro);
    Field(a.second, b.second, 2, Tail(a.micro), Tail(b.micro));
    SeparatorIsShared(':', s1, t1);
    var s2, t2 := Digits(a.minute, 2) + (":" + s1), Digits(b.minute, 2) + (":" + t1);
    Field(a.minute, b.minute, 2, ":" + s1, ":" + t1);
    SeparatorIsShared(':', s2, t2);
    Field(a.hour, b.hour, 2, ":" + s2, ":" + t2);
  }

  /** The strings order exactly as the instants do, fraction omitted or not. */
  lemma IsoOrder(a: DateTime, b: DateTime)
    requires Valid(a) && Valid(b)
    ensures TextBefore(Iso(a), Iso(b)) <==> Before(a, b)
  {
    assert Pow10(2) == 100 && Pow10(4) == 10000;
    ClockfaceOrder(a, b);
    SeparatorIsShared('T', Clockface(a), Clockface(b));
    var s1, t1 := Digits(a.day, 2) + ("T" + Clockface(a)), Digits(b.day, 2) + ("T" + Clockface(b));
    Field(a.day, b.day, 2, "T" + Clockface(a), "T" + Clockface(b));
    SeparatorIsShared('-', s1, t1);
    var s2, t2 := Digits(a.month, 2) + ("-" + s1), Digits(b.month, 2) + ("-" + t1);
    Field(a.month, b.month, 2, "-" + s1, "-" + t1);
    SeparatorIsShared('-', s2, t2);
    Field(a.year, b.year, 4, "-" + s2, "-" + t2);
  }

  lemma StampAfter(last: Option<DateTime>, reading: DateTime)
    requires (last.Some? ==> Valid(last.value)) && Valid(reading)
    ensures var d := Stamp(last, reading);
            && (d.None? <==> last == Some(MAX))
            && (d.Some? ==> Valid(d.value) && !Before(d.value, reading) && (last.Some? ==> Before(last.value, d.value)))
  {
    if last.Some? {
      NextMicroIsNext(last.value, reading);
    }
  }

  /** A stamp is the least instant that is not before its reading and is after
      the last stamp. */
  predicate LeastAfter(last: Option<DateTime>, reading: DateTime, d: DateTime, other: DateTime) {
    && !Before(d, reading) && (last.Some? ==> Before(last.value, d))
    && (!Before(other, reading) && (last.Some? ==> Before(last.value, other)) ==> d == other || Before(d, other))
  }

  lemma StampIsLeast(last: Option<DateTime>, reading: DateTime, other: DateTime)
    requires (last.Some? ==> Valid(last.value)) && Valid(reading) && Valid(other)
    ensures var d := Stamp(last, reading);
            && (d.None? <==> last == Some(MAX))
            && (d.Some? ==> LeastAfter(last, reading, d.value, other))
  {
    StampAfter(last, reading);
    if last.Some? {
      NextMicroIsNext(last.value, other);
    }
  }

  lemma {:induction false} StampsFollow(last: Option<DateTime>, readings: seq<DateTime>)
    requires (last.Some? ==> Valid(last.value)) && forall r <- readings :: Valid(r)
    ensures forall d <- Stamps(last, readings) :: Valid(d) && (last.Some? ==> Before(last.value, d))
    decreases |readings|
  {
    if readings != [] {
      StampAfter(last, readings[0]);
      var first := Stamp(last, readings[0]);
      if first.Some? {
        StampsFollow(first, readings[1..]);
        forall d | d in Stamps(last, readings) ensures Valid(d) && (last.Some? ==> Before(last.value, d)) {
          assert d == first.value || d in Stamps(first, readings[1..]);
        }
      }
    }
  }

  predicate TextsAscend(out: seq<DateTime>) {
    forall i, j :: 0 <= i < j < |out| ==> TextBefore(Iso(out[i]), Iso(out[j]))
  }

  lemma AscendFrom(d: DateTime, rest: seq<DateTime>)
    requires TextsAscend(rest) && Valid(d) && forall e <- rest :: Valid(e) && Before(d, e)
    ensures TextsAscend([d] + rest)
  {
    forall k | 0 <= k < |rest| ensures TextBefore(Iso(d), Iso(rest[k])) {
      IsoOrder(d, rest[k]);
    }
    AscendFromText(d, rest);
  }

  lemma AscendFromText(d: DateTime, rest: seq<DateTime>)
    requires TextsAscend(rest) && forall k :: 0 <= k < |rest| ==> TextBefore(Iso(d), Iso(rest[k]))
    ensures TextsAscend([d] + rest)
  {
    forall i, j | 0 <= i < j <= |rest| ensures TextBefore(Iso(([d] + rest)[i]), Iso(([d] + rest)[j])) {
      var later := rest[j - 1];
      assert ([d] + rest)[j] == later;
      if i > 0 {
        assert ([d] + rest)[i] == rest[i - 1] && TextBefore(Iso(rest[i - 1]), Iso(later));
      }
    }
  }

  /** For any readings, backwards ones included: every stamp's text sorts
      after all the earlier ones'. */
  lemma {:induction false} StampsIncrease(last: Option<DateTime>, readings: seq<DateTime>)
    requires (last.Some? ==> Valid(last.value)) && forall r <- readings :: Valid(r)
    ensures TextsAscend(Stamps(last, readings))
    decreases |readings|
  {
    if readings != [] {
      StampAfter(last, readings[0]);
      var first := Stamp(last, readings[0]);
      if first.Some? {
        StampsIncrease(first, readings[1..]);
        StampsFollow(first, readings[1..]);
        AscendFrom(first.value, Stamps(first, readings[1..]));
      }
    }
  }

  /** No stamp is before its reading, and they run out only after the last
      representable instant was given out. */
  lemma {:induction false} StampsKeepUp(last: Option<DateTime>, readings: seq<DateTime>)
    requires (last.Some? ==> Valid(last.value)) && forall r <- readings :: Valid(r)
    ensures var out := Stamps(last, readings);
            && |out| <= |readings|
            && (forall i :: 0 <= i < |out| ==> !Before(out[i], readings[i]))
            && (|out| < |readings| ==> (if out == [] then last == Some(MAX) else out[|out| - 1] == MAX))
    decreases |readings|
  {
    if readings != [] {
      StampAfter(last, readings[0]);
      var first := Stamp(last, readings[0]);
      if first.Some? {
        StampsKeepUp(first, readings[1..]);
      }
    }
  }

  /** The module state of `_now`. */
  class Source {
    var last: Option<DateTime>

    predicate Good()
      reads this
    {
      last.Some? ==> Valid(last.value)
    }

    /** `_now`: the new stamp's text sorts after the previous one's. None is the overflow. */
    method Now(reading: DateTime) returns (text: Option<string>)
      requires Good() && Valid(reading)
      modifies this
      ensures Good()
      ensures text.None? <==> old(last) == Some(MAX)
      ensures text.None? ==> last == old(last)
      ensures text.Some? ==> last.Some? && last == Stamp(old(last), reading) && text.value == Iso(last.value)
                             && !Before(last.value, reading)
      ensures text.Some? && old(last).Some? ==> TextBefore(Iso(old(last).value), text.value)
    {
      ghost var before := last;
      var d := reading;
      if last.Some? && !Before(last.value, d) {
        NextMicroIsNext(last.value, reading);
        var nudged := NextMicro(last.value);
        if nudged.None? {
          return None;
        }
        d := nudged.value;
      }
      if before.Some? {
        NextMicroIsNext(before.value, reading);
        IsoOrder(before.value, d);
      }
      last := Some(d);
      return Some(Iso(d));
    }
  }
}
