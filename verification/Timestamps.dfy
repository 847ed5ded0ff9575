/** UTC timestamps as the database stores them: ISO text whose fraction is left out when it is
    zero. The text compares as the instants do, although the texts differ in length. */
module Timestamps {
  import opened Wrappers
  import opened Text

  predicate LeapYear(y: nat) {
    y % 4 == 0 && (y % 100 != 0 || y % 400 == 0)
  }

  function DaysInMonth(y: nat, m: nat): (r: nat)
    ensures 28 <= r <= 31
  {
    if m == 2 then (if LeapYear(y) then 29 else 28)
    else if m == 4 || m == 6 || m == 9 || m == 11 then 30
    else 31
  }

  datatype DateTime = DateTime(year: nat, month: nat, day: nat, hour: nat, minute: nat, second: nat, micro: nat) {
    predicate Valid() {
      && 1 <= year <= 9999 && 1 <= month <= 12 && 1 <= day <= DaysInMonth(year, month)
      && hour < 24 && minute < 60 && second < 60 && micro < 1000000
    }

    function Fields(): seq<Field> {
      [Field(year, 4, "-"), Field(month, 2, "-"), Field(day, 2, "T"),
       Field(hour, 2, ":"), Field(minute, 2, ":"), Field(second, 2, "")]
    }
  }

  const UTC := "+00:00"

  /** What follows the seconds. */
  function Fraction(micro: nat): string {
    if micro == 0 then "" else "." + Fixed(micro, 6)
  }

  function Iso(dt: DateTime): string {
    Render(dt.Fields()) + (Fraction(dt.micro) + UTC)
  }

  // ---- reading it back -----------------------------------------------------

  predicate NumberAt(s: string, at: nat, width: nat) {
    at + width <= |s| && AllDigits(s[at..at + width])
  }

  function ReadAt(s: string, at: nat, width: nat): nat
    requires NumberAt(s, at, width)
  {
    Value(s[at..at + width])
  }

  predicate HeadReads(s: string) {
    && |s| >= 19 && NumberAt(s, 0, 4) && NumberAt(s, 5, 2) && NumberAt(s, 8, 2)
    && NumberAt(s, 11, 2) && NumberAt(s, 14, 2) && NumberAt(s, 17, 2)
    && s[4] == '-' && s[7] == '-' && s[10] == 'T' && s[13] == ':' && s[16] == ':'
  }

  /** The fraction after the seconds; a missing zone means UTC. */
  function ReadFraction(tail: string): Option<nat> {
    if tail == "" || tail == UTC then Some(0)
    else if tail[0] == '.' && NumberAt(tail, 1, 6) && (tail[7..] == "" || tail[7..] == UTC) then Some(ReadAt(tail, 1, 6))
    else None
  }

  function Parse(s: string): Option<DateTime> {
    if !HeadReads(s) then None
    else
      match ReadFraction(s[19..])
      case None => None
      case Some(micro) =>
        var dt := DateTime(ReadAt(s, 0, 4), ReadAt(s, 5, 2), ReadAt(s, 8, 2),
                           ReadAt(s, 11, 2), ReadAt(s, 14, 2), ReadAt(s, 17, 2), micro);
        if dt.Valid() then Some(dt) else None
  }

  lemma Powers()
    ensures Pow10(2) == 100 && Pow10(4) == 10000 && Pow10(6) == 1000000
  {
    assert Pow10(1) == 10 && Pow10(2) == 100 && Pow10(3) == 1000 && Pow10(4) == 10000 && Pow10(5) == 100000;
  }

  lemma FractionReads(micro: nat, zone: string)
    requires micro < 1000000 && (zone == "" || zone == UTC)
    ensures ReadFraction(Fraction(micro) + zone) == Some(micro)
  {
    if micro == 0 {
      assert Fraction(0) + zone == zone;
    } else {
      Powers();
      ValueOfFixed(micro, 6);
      var tail := Fraction(micro) + zone;
      assert tail[1..7] == Fixed(micro, 6);
      assert tail[7..] == zone;
    }
  }

  function Head(dt: DateTime): string {
    Fixed(dt.year, 4) + "-" + Fixed(dt.month, 2) + "-" + Fixed(dt.day, 2) + "T"
    + Fixed(dt.hour, 2) + ":" + Fixed(dt.minute, 2) + ":" + Fixed(dt.second, 2)
  }

  lemma RenderedHead(dt: DateTime)
    ensures Render(dt.Fields()) == Head(dt)
  {
    hide Fixed;
    var f := dt.Fields();
    assert Render(f[6..]) == "";
    assert Render(f[5..]) == Fixed(dt.second, 2);
    assert f[4..][1..] == f[5..] && f[3..][1..] == f[4..] && f[2..][1..] == f[3..] && f[1..][1..] == f[2..];
    assert Render(f[4..]) == Fixed(dt.minute, 2) + ":" + Render(f[5..]);
    assert Render(f[3..]) == Fixed(dt.hour, 2) + ":" + Render(f[4..]);
    assert Render(f[2..]) == Fixed(dt.day, 2) + "T" + Render(f[3..]);
    assert Render(f[1..]) == Fixed(dt.month, 2) + "-" + Render(f[2..]);
    assert Render(f) == Fixed(dt.year, 4) + "-" + Render(f[1..]);
  }

  lemma HeadSlices(dt: DateTime, tail: string)
    ensures var s := Head(dt) + tail;
      && |s| == 19 + |tail| && s[19..] == tail
      && s[0..4] == Fixed(dt.year, 4) && s[5..7] == Fixed(dt.month, 2) && s[8..10] == Fixed(dt.day, 2)
      && s[11..13] == Fixed(dt.hour, 2) && s[14..16] == Fixed(dt.minute, 2) && s[17..19] == Fixed(dt.second, 2)
      && s[4] == '-' && s[7] == '-' && s[10] == 'T' && s[13] == ':' && s[16] == ':'
  {
    hide Fixed;
  }

  /** Reading a stored timestamp gives back the moment that was stored. */
  lemma ParseUndoesIso(dt: DateTime)
    requires dt.Valid()
    ensures Parse(Iso(dt)) == Some(dt)
    ensures Parse(Render(dt.Fields()) + Fraction(dt.micro)) == Some(dt)
  {
    hide Fixed, Value, Head, Render, Pow10, ReadFraction;
    RenderedHead(dt);
    Powers();
    ValueOfFixed(dt.year, 4);
    ValueOfFixed(dt.month, 2);
    ValueOfFixed(dt.day, 2);
    ValueOfFixed(dt.hour, 2);
    ValueOfFixed(dt.minute, 2);
    ValueOfFixed(dt.second, 2);
    FractionReads(dt.micro, UTC);
    FractionReads(dt.micro, "");
    HeadSlices(dt, Fraction(dt.micro) + UTC);
    HeadSlices(dt, Fraction(dt.micro));
    assert Fraction(dt.micro) + "" == Fraction(dt.micro);
  }

  // ---- instants ------------------------------------------------------------

  function DaysBeforeYear(y: nat): nat
    requires y >= 1
  {
    (y - 1) * 365 + (y - 1) / 4 - (y - 1) / 100 + (y - 1) / 400
  }

  function DaysBeforeMonth(y: nat, m: nat): nat
    requires m >= 1
  {
    if m == 1 then 0 else DaysBeforeMonth(y, m - 1) + DaysInMonth(y, m - 1)
  }

  /** Days since 0000-12-31 in the proleptic Gregorian calendar. */
  function Ordinal(dt: DateTime): nat
    requires dt.Valid()
  {
    DaysBeforeYear(dt.year) + DaysBeforeMonth(dt.year, dt.month) + dt.day
  }

  function Seconds(dt: DateTime): nat {
    dt.hour * 3600 + dt.minute * 60 + dt.second
  }

  /** Microseconds since the calendar's day zero. */
  function Instant(dt: DateTime): nat
    requires dt.Valid()
  {
    (Ordinal(dt) * 86400 + Seconds(dt)) * 1000000 + dt.micro
  }

  function DaysInYear(y: nat): nat {
    if LeapYear(y) then 366 else 365
  }

  lemma OneYear(y: nat)
    requires y >= 1
    ensures DaysBeforeYear(y + 1) == DaysBeforeYear(y) + DaysInYear(y)
  {
    assert y / 4 == (y - 1) / 4 + (if y % 4 == 0 then 1 else 0);
    assert y / 100 == (y - 1) / 100 + (if y % 100 == 0 then 1 else 0);
    assert y / 400 == (y - 1) / 400 + (if y % 400 == 0 then 1 else 0);
    assert y % 400 == 0 ==> y % 100 == 0;
    assert y % 100 == 0 ==> y % 4 == 0;
  }

  lemma {:induction false} LaterYear(y: nat, z: nat)
    requires 1 <= y < z
    ensures DaysBeforeYear(y) + DaysInYear(y) <= DaysBeforeYear(z)
  {
    hide DaysBeforeYear, DaysInYear;
    OneYear(y);
    if y + 1 < z {
      LaterYear(y, z - 1);
      OneYear(z - 1);
    }
  }

  lemma {:induction false} LaterMonth(y: nat, m: nat, n: nat)
    requires 1 <= m < n
    ensures DaysBeforeMonth(y, m) + DaysInMonth(y, m) <= DaysBeforeMonth(y, n)
  {
    hide DaysInMonth;
    if m + 1 < n {
      LaterMonth(y, m, n - 1);
    }
  }

  lemma WholeYear(y: nat)
    ensures DaysBeforeMonth(y, 12) + DaysInMonth(y, 12) == DaysInYear(y)
  {
    assert DaysBeforeMonth(y, 2) == 31;
    assert DaysBeforeMonth(y, 3) == 31 + DaysInMonth(y, 2);
    assert DaysBeforeMonth(y, 4) == 62 + DaysInMonth(y, 2);
    assert DaysBeforeMonth(y, 5) == 92 + DaysInMonth(y, 2);
    assert DaysBeforeMonth(y, 6) == 123 + DaysInMonth(y, 2);
    assert DaysBeforeMonth(y, 7) == 153 + DaysInMonth(y, 2);
    assert DaysBeforeMonth(y, 8) == 184 + DaysInMonth(y, 2);
    assert DaysBeforeMonth(y, 9) == 215 + DaysInMonth(y, 2);
    assert DaysBeforeMonth(y, 10) == 245 + DaysInMonth(y, 2);
    assert DaysBeforeMonth(y, 11) == 276 + DaysInMonth(y, 2);
    assert DaysBeforeMonth(y, 12) == 306 + DaysInMonth(y, 2);
  }

  lemma WithinYear(dt: DateTime)
    requires dt.Valid()
    ensures 1 <= DaysBeforeMonth(dt.year, dt.month) + dt.day <= DaysInYear(dt.year)
  {
    WholeYear(dt.year);
    hide DaysBeforeMonth, DaysInYear;
    if dt.month < 12 {
      LaterMonth(dt.year, dt.month, 12);
    }
  }

  ghost predicate LaterDate(a: DateTime, b: DateTime) {
    || a.year < b.year
    || (a.year == b.year && a.month < b.month)
    || (a.year == b.year && a.month == b.month && a.day < b.day)
  }

  lemma LaterDateLaterDay(a: DateTime, b: DateTime)
    requires a.Valid() && b.Valid() && LaterDate(a, b)
    ensures Ordinal(a) < Ordinal(b)
  {
    hide DaysBeforeYear, DaysBeforeMonth, DaysInYear;
    WithinYear(a);
    WithinYear(b);
    if a.year < b.year {
      LaterYear(a.year, b.year);
    } else if a.month < b.month {
      LaterMonth(a.year, a.month, b.month);
    }
  }

  ghost predicate Before(a: DateTime, b: DateTime) {
    || FieldsLess(a.Fields(), b.Fields())
    || (a.Fields() == b.Fields() && a.micro < b.micro)
  }

  ghost predicate LaterTime(a: DateTime, b: DateTime) {
    || a.hour < b.hour
    || (a.hour == b.hour && a.minute < b.minute)
    || (a.hour == b.hour && a.minute == b.minute && a.second < b.second)
  }

  lemma TimeFields(a: DateTime, b: DateTime)
    ensures FieldsLess(a.Fields()[3..], b.Fields()[3..]) <==> LaterTime(a, b)
  {
    var f, g := a.Fields()[3..], b.Fields()[3..];
    assert f[1..][1..] == f[2..] && f[2..][1..] == [] && g[1..][1..] == g[2..] && g[2..][1..] == [];
    assert FieldsLess(f[2..], g[2..]) == (a.second < b.second);
    assert FieldsLess(f[1..], g[1..]) == (a.minute < b.minute || (a.minute == b.minute && a.second < b.second));
  }

  lemma FieldsLessMeans(a: DateTime, b: DateTime)
    ensures FieldsLess(a.Fields(), b.Fields()) <==>
      || LaterDate(a, b)
      || (a.year == b.year && a.month == b.month && a.day == b.day && LaterTime(a, b))
  {
    hide LaterTime;
    TimeFields(a, b);
    var f, g := a.Fields(), b.Fields();
    assert f[1..][1..] == f[2..] && f[2..][1..] == f[3..] && g[1..][1..] == g[2..] && g[2..][1..] == g[3..];
    assert FieldsLess(f[2..], g[2..]) == (a.day < b.day || (a.day == b.day && FieldsLess(f[3..], g[3..])));
    assert FieldsLess(f[1..], g[1..]) == (a.month < b.month || (a.month == b.month && FieldsLess(f[2..], g[2..])));
  }

  lemma SameFields(a: DateTime, b: DateTime)
    ensures a.Fields() == b.Fields() <==> a.(micro := 0) == b.(micro := 0)
  {
    var f, g := a.Fields(), b.Fields();
    assert f[0] == g[0] <==> a.year == b.year;
    assert f[1] == g[1] <==> a.month == b.month;
    assert f[2] == g[2] <==> a.day == b.day;
    assert f[3] == g[3] <==> a.hour == b.hour;
    assert f[4] == g[4] <==> a.minute == b.minute;
    assert f[5] == g[5] <==> a.second == b.second;
  }

  lemma BeforeIsEarlier(a: DateTime, b: DateTime)
    requires a.Valid() && b.Valid() && Before(a, b)
    ensures Instant(a) < Instant(b)
  {
    hide Ordinal, FieldsLess;
    FieldsLessMeans(a, b);
    SameFields(a, b);
    assert Seconds(a) < 86400 && Seconds(b) < 86400;
    if LaterDate(a, b) {
      LaterDateLaterDay(a, b);
    } else {
      SameDate(a, b);
    }
  }

  lemma SameDate(a: DateTime, b: DateTime)
    requires a.Valid() && b.Valid() && a.year == b.year && a.month == b.month && a.day == b.day
    ensures Ordinal(a) == Ordinal(b)
  {
  }

  lemma BeforeTotal(a: DateTime, b: DateTime)
    ensures Before(a, b) || Before(b, a) || a == b
  {
    hide FieldsLess;
    FieldsTotal(a.Fields(), b.Fields());
    SameFields(a, b);
  }

  // ---- the order of the texts ------------------------------------------------

  lemma TailOrder(m: nat, n: nat)
    requires m < n < 1000000
    ensures Less(Fraction(m) + UTC, Fraction(n) + UTC)
  {
    if m == 0 {
      assert Fraction(m) + UTC == UTC;
    } else {
      Powers();
      FixedOrder(m, n, 6);
      LessBefore(Fixed(m, 6), Fixed(n, 6), UTC, UTC);
      LessAfterPrefix(".", Fixed(m, 6) + UTC, Fixed(n, 6) + UTC);
      assert Fraction(m) + UTC == "." + (Fixed(m, 6) + UTC);
      assert Fraction(n) + UTC == "." + (Fixed(n, 6) + UTC);
    }
  }

  lemma BeforeSortsFirst(a: DateTime, b: DateTime)
    requires a.Valid() && b.Valid() && Before(a, b)
    ensures Less(Iso(a), Iso(b))
  {
    Powers();
    hide Pow10, Fixed, Render, FieldsLess, Less, Fraction;
    if !FieldsLess(a.Fields(), b.Fields()) {
      TailOrder(a.micro, b.micro);
    }
    RenderedLess(a.Fields(), b.Fields(), Fraction(a.micro) + UTC, Fraction(b.micro) + UTC);
  }

  /** Comparing two stored timestamps as text is comparing the moments they name. */
  lemma TextOrderIsTimeOrder(a: DateTime, b: DateTime)
    requires a.Valid() && b.Valid()
    ensures Less(Iso(a), Iso(b)) <==> Instant(a) < Instant(b)
  {
    hide Instant, Iso, Before, Less;
    BeforeTotal(a, b);
    if Before(a, b) {
      BeforeSortsFirst(a, b);
      BeforeIsEarlier(a, b);
    } else if Before(b, a) {
      BeforeSortsFirst(b, a);
      BeforeIsEarlier(b, a);
      LessAsymmetric(Iso(b), Iso(a));
    } else {
      LessIrreflexive(Iso(a));
    }
  }

  /** The leases an expiry pass selects: those whose stored deadline sorts before the stored now. */
  function SortBefore(leases: map<string, string>, now: string): set<string> {
    set task | task in leases && Less(leases[task], now)
  }

  /** The text comparison selects exactly the leases whose deadline has passed. */
  lemma ExpirySelectsOverdue(deadlines: map<string, DateTime>, now: DateTime)
    requires now.Valid() && forall task :: task in deadlines ==> deadlines[task].Valid()
    ensures SortBefore(map task | task in deadlines :: Iso(deadlines[task]), Iso(now))
         == set task | task in deadlines && Instant(deadlines[task]) < Instant(now)
  {
    hide Instant, Iso, Less;
    forall task | task in deadlines
      ensures Less(Iso(deadlines[task]), Iso(now)) <==> Instant(deadlines[task]) < Instant(now)
    {
      TextOrderIsTimeOrder(deadlines[task], now);
    }
  }
}
