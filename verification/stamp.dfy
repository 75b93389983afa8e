// Timestamps as text (app/store.py): instants written as UTC ISO-8601, compared by SQL as plain strings.
module Stamps {
  import opened Base
  import opened Models

  // ------------------------------------------------------------ text order

  // How SQL compares TEXT: character by character, a proper prefix first.
  predicate TextLess(a: string, b: string) {
    if b == [] then false
    else if a == [] then true
    else if a[0] != b[0] then a[0] < b[0]
    else TextLess(a[1..], b[1..])
  }

  lemma {:induction false} NotBelowItself(s: string)
    ensures !TextLess(s, s)
  {
    if s != [] {
      NotBelowItself(s[1..]);
    }
  }

  lemma {:induction false} TextIsTotal(a: string, b: string)
    requires a != b
    ensures TextLess(a, b) <==> !TextLess(b, a)
  {
    if a != [] && b != [] && a[0] == b[0] {
      assert a == [a[0]] + a[1..] && b == [b[0]] + b[1..];
      TextIsTotal(a[1..], b[1..]);
    }
  }

  lemma {:induction false} TextIsTransitive(a: string, b: string, c: string)
    requires TextLess(a, b) && TextLess(b, c)
    ensures TextLess(a, c)
  {
    if a != [] && a[0] == b[0] == c[0] {
      TextIsTransitive(a[1..], b[1..], c[1..]);
    }
  }

  function Digit(n: nat): char
    requires n < 10
  {
    '0' + n as char
  }

  // `n` in exactly `width` decimal digits.
  function Digits(n: nat, width: nat): string {
    if width == 0 then "" else Digits(n / 10, width - 1) + [Digit(n % 10)]
  }

  predicate Fits(n: nat, width: nat) {
    if width == 0 then n == 0 else Fits(n / 10, width - 1)
  }

  function Pow10(width: nat): nat {
    if width == 0 then 1 else 10 * Pow10(width - 1)
  }

  lemma {:induction false} BelowPowerFits(n: nat, width: nat)
    requires n < Pow10(width)
    ensures Fits(n, width)
  {
    if width > 0 {
      BelowPowerFits(n / 10, width - 1);
    }
  }

  lemma SameHead(c: char, x: string, y: string)
    ensures TextLess([c] + x, [c] + y) <==> TextLess(x, y)
  {
    assert ([c] + x)[1..] == x && ([c] + y)[1..] == y;
  }

  // Equal-width digits compare as the numbers they write, whatever follows.
  lemma {:induction false} DigitsOrder(n: nat, m: nat, width: nat, x: string, y: string)
    requires Fits(n, width) && Fits(m, width)
    ensures TextLess(Digits(n, width) + x, Digits(m, width) + y) <==> n < m || (n == m && TextLess(x, y))
  {
    if width == 0 {
      assert "" + x == x && "" + y == y;
    } else {
      var c, d := Digit(n % 10), Digit(m % 10);
      DigitsOrder(n / 10, m / 10, width - 1, [c] + x, [d] + y);
      assert Digits(n, width) + x == Digits(n / 10, width - 1) + ([c] + x);
      assert Digits(m, width) + y == Digits(m / 10, width - 1) + ([d] + y);
      assert ([c] + x)[1..] == x && ([d] + y)[1..] == y;
    }
  }

  lemma {:induction false} DigitsLength(n: nat, width: nat)
    ensures |Digits(n, width)| == width
  {
    if width > 0 {
      DigitsLength(n / 10, width - 1);
    }
  }

  // The number a run of digits writes; None if a character is not a digit.
  function ReadDigits(s: string): Option<nat> {
    if s == [] then Some(0)
    else
      var rest, last := ReadDigits(s[..|s| - 1]), s[|s| - 1];
      if rest.None? || !('0' <= last <= '9') then None else Some(10 * rest.value + (last - '0') as nat)
  }

  lemma {:induction false} DigitsRoundTrip(n: nat, width: nat)
    requires Fits(n, width)
    ensures ReadDigits(Digits(n, width)) == Some(n)
  {
    if width > 0 {
      DigitsRoundTrip(n / 10, width - 1);
      assert Digits(n, width)[..|Digits(n, width)| - 1] == Digits(n / 10, width - 1);
    }
  }

  // --------------------------------------------------------- civil calendar

  datatype Civil = Civil(year: nat, month: nat, day: nat, hour: nat, minute: nat, second: nat, micro: nat)

  predicate Leap(y: nat) {
    y % 4 == 0 && (y % 100 != 0 || y % 400 == 0)
  }

  function DaysInMonth(y: nat, m: nat): nat {
    if m == 2 then if Leap(y) then 29 else 28
    else if m == 4 || m == 6 || m == 9 || m == 11 then 30
    else 31
  }

  // Days of year `y` before month `m`.
  function DaysBeforeMonth(y: nat, m: nat): nat {
    if m <= 1 then 0 else DaysBeforeMonth(y, m - 1) + DaysInMonth(y, m - 1)
  }

  // Days before year `y`, counting from 1 January of year 1.
  function DaysBeforeYear(y: nat): nat
    requires y >= 1
  {
    365 * (y - 1) + (y - 1) / 4 - (y - 1) / 100 + (y - 1) / 400
  }

  lemma YearStep(y: nat)
    requires y >= 1
    ensures DaysBeforeYear(y + 1) == DaysBeforeYear(y) + DaysBeforeMonth(y, 13)
  {
    YearLength(y);
    LeapDays(y);
    hide DaysBeforeMonth, Leap;
  }

  lemma LeapDays(y: nat)
    requires y >= 1
    ensures y / 4 - y / 100 + y / 400 == (y - 1) / 4 - (y - 1) / 100 + (y - 1) / 400 + if Leap(y) then 1 else 0
  {
    Quotients(y);
  }

  lemma Quotients(y: nat)
    requires y >= 1
    ensures y % 400 == 0 ==> y % 100 == 0
    ensures y % 100 == 0 ==> y % 4 == 0
    ensures y / 4 == (y - 1) / 4 + if y % 4 == 0 then 1 else 0
    ensures y / 100 == (y - 1) / 100 + if y % 100 == 0 then 1 else 0
    ensures y / 400 == (y - 1) / 400 + if y % 400 == 0 then 1 else 0
  {
  }

  lemma YearLength(y: nat)
    ensures DaysBeforeMonth(y, 13) == if Leap(y) then 366 else 365
  {
    var leap := if Leap(y) then 1 else 0;
    assert DaysBeforeMonth(y, 2) == 31 && DaysBeforeMonth(y, 3) == 59 + leap;
    assert DaysBeforeMonth(y, 4) == 90 + leap && DaysBeforeMonth(y, 5) == 120 + leap;
    assert DaysBeforeMonth(y, 7) == 181 + leap;
    assert DaysBeforeMonth(y, 9) == 243 + leap;
    assert DaysBeforeMonth(y, 11) == 304 + leap;
  }

  predicate IsCivil(c: Civil) {
    && 1 <= c.year <= 9999 && 1 <= c.month <= 12 && 1 <= c.day <= DaysInMonth(c.year, c.month)
    && c.hour < 24 && c.minute < 60 && c.second < 60 && c.micro < SECOND
  }

  function DayNumber(c: Civil): nat
    requires IsCivil(c)
  {
    DaysBeforeYear(c.year) + DaysBeforeMonth(c.year, c.month) + c.day - 1
  }

  function TimeOfDay(c: Civil): nat
    requires IsCivil(c)
  {
    c.hour * HOUR + c.minute * MINUTE + c.second * SECOND + c.micro
  }

  // Microseconds since the start of year 1.
  function Micros(c: Civil): Time
    requires IsCivil(c)
  {
    DayNumber(c) * DAY + TimeOfDay(c)
  }

  lemma {:induction false} MonthsAdd(y: nat, m: nat, m': nat)
    requires 1 <= m < m' <= 13
    ensures DaysBeforeMonth(y, m) + DaysInMonth(y, m) <= DaysBeforeMonth(y, m')
  {
    if m + 1 < m' {
      MonthsAdd(y, m, m' - 1);
    }
  }

  lemma {:induction false} YearsAdd(y: nat, y': nat)
    requires 1 <= y < y'
    ensures DaysBeforeYear(y) + DaysBeforeMonth(y, 13) <= DaysBeforeYear(y')
  {
    hide DaysBeforeYear, DaysBeforeMonth;
    YearStep(y' - 1);
    if y + 1 < y' {
      YearsAdd(y, y' - 1);
    }
  }

  predicate DateLess(a: Civil, b: Civil) {
    a.year < b.year || (a.year == b.year && (a.month < b.month || (a.month == b.month && a.day < b.day)))
  }

  predicate SameDate(a: Civil, b: Civil) {
    a.year == b.year && a.month == b.month && a.day == b.day
  }

  predicate ClockLess(a: Civil, b: Civil) {
    a.hour < b.hour
    || (a.hour == b.hour
        && (a.minute < b.minute
            || (a.minute == b.minute
                && (a.second < b.second || (a.second == b.second && a.micro < b.micro)))))
  }

  predicate CivilLess(a: Civil, b: Civil) {
    DateLess(a, b) || (SameDate(a, b) && ClockLess(a, b))
  }

  lemma EarlierDate(a: Civil, b: Civil)
    requires IsCivil(a) && IsCivil(b) && DateLess(a, b)
    ensures DayNumber(a) < DayNumber(b)
  {
    if a.month < 13 {
      MonthsAdd(a.year, a.month, 13);
    }
    if a.year < b.year {
      YearsAdd(a.year, b.year);
    } else if a.month < b.month {
      MonthsAdd(a.year, a.month, b.month);
    }
  }

  lemma EarlierClock(a: Civil, b: Civil)
    requires IsCivil(a) && IsCivil(b)
    ensures TimeOfDay(a) < TimeOfDay(b) <==> ClockLess(a, b)
    ensures TimeOfDay(a) < DAY
  {
  }

  lemma EarlierCivil(a: Civil, b: Civil)
    requires IsCivil(a) && IsCivil(b) && CivilLess(a, b)
    ensures Micros(a) < Micros(b)
  {
    EarlierClock(a, b);
    if DateLess(a, b) {
      EarlierDate(a, b);
    }
    hide DaysBeforeYear, DaysBeforeMonth, DaysInMonth, TimeOfDay, IsCivil;
  }

  // Civil order is chronological order.
  lemma CivilOrder(a: Civil, b: Civil)
    requires IsCivil(a) && IsCivil(b)
    ensures CivilLess(a, b) <==> Micros(a) < Micros(b)
    ensures a == b <==> Micros(a) == Micros(b)
  {
    if CivilLess(a, b) {
      EarlierCivil(a, b);
    } else if CivilLess(b, a) {
      EarlierCivil(b, a);
    } else {
      assert a == b;
    }
  }

  // ------------------------------------------------------- instant to civil

  const CALENDAR_DAYS: int := 3_652_059

  // Years 1 to 9999.
  predicate InRange(t: Time) {
    0 <= t < CALENDAR_DAYS * DAY
  }

  function YearOf(days: nat, y: nat): (r: nat)
    requires 1 <= y <= 9999 && DaysBeforeYear(y) <= days < CALENDAR_DAYS
    ensures y <= r <= 9999 && DaysBeforeYear(r) <= days < DaysBeforeYear(r + 1)
    decreases 9999 - y
  {
    if days < DaysBeforeYear(y + 1) then y else YearOf(days, y + 1)
  }

  function MonthOf(y: nat, days: nat, m: nat): (r: nat)
    requires 1 <= m <= 12 && DaysBeforeMonth(y, m) <= days < DaysBeforeMonth(y, 13)
    ensures m <= r <= 12 && DaysBeforeMonth(y, r) <= days < DaysBeforeMonth(y, r + 1)
    decreases 12 - m
  {
    if days < DaysBeforeMonth(y, m + 1) then m else MonthOf(y, days, m + 1)
  }

  lemma ClockParts(rest: nat)
    requires rest < DAY
    ensures var inHour := rest % HOUR;
      var inMinute := inHour % MINUTE;
      && rest / HOUR < 24 && inHour / MINUTE < 60 && inMinute / SECOND < 60 && inMinute % SECOND < SECOND
      && rest / HOUR * HOUR + inHour / MINUTE * MINUTE + inMinute / SECOND * SECOND + inMinute % SECOND == rest
  {
    Remainder(rest, HOUR);
    Remainder(rest % HOUR, MINUTE);
    Remainder(rest % HOUR % MINUTE, SECOND);
  }

  lemma Remainder(n: nat, unit: nat)
    requires unit > 0
    ensures n == n / unit * unit + n % unit
  {
  }

  // The UTC calendar reading of a day; every day of the calendar has one.
  function DateOf(days: nat): (c: Civil)
    requires days < CALENDAR_DAYS
    ensures IsCivil(c) && DayNumber(c) == days
  {
    var y := YearOf(days, 1);
    YearStep(y);
    var m := MonthOf(y, days - DaysBeforeYear(y), 1);
    assert DaysBeforeMonth(y, m + 1) == DaysBeforeMonth(y, m) + DaysInMonth(y, m);
    Civil(y, m, days - DaysBeforeYear(y) - DaysBeforeMonth(y, m) + 1, 0, 0, 0, 0)
  }

  function AtClock(date: Civil, rest: nat): (c: Civil)
    requires IsCivil(date) && rest < DAY
    ensures IsCivil(c) && DayNumber(c) == DayNumber(date) && TimeOfDay(c) == rest
  {
    ClockParts(rest);
    var inHour := rest % HOUR;
    var inMinute := inHour % MINUTE;
    date.(hour := rest / HOUR, minute := inHour / MINUTE, second := inMinute / SECOND, micro := inMinute % SECOND)
  }

  // The UTC calendar reading of an instant; every instant of the calendar has one.
  function CivilOf(t: Time): (c: Civil)
    requires InRange(t)
    ensures IsCivil(c) && Micros(c) == t
  {
    var days, rest := t / DAY, t % DAY;
    Remainder(t, DAY);
    AtClock(DateOf(days), rest)
  }

  // ------------------------------------------------------------------ stamps

  function Fraction(micro: nat): string {
    if micro == 0 then "" else "." + Digits(micro, 6)
  }

  function Tail(micro: nat): string {
    Fraction(micro) + "+00:00"
  }

  function SecondText(c: Civil): string {
    Digits(c.second, 2) + Tail(c.micro)
  }

  function MinuteText(c: Civil): string {
    Digits(c.minute, 2) + ([':'] + SecondText(c))
  }

  function HourText(c: Civil): string {
    Digits(c.hour, 2) + ([':'] + MinuteText(c))
  }

  function DayText(c: Civil): string {
    Digits(c.day, 2) + (['T'] + HourText(c))
  }

  function MonthText(c: Civil): string {
    Digits(c.month, 2) + (['-'] + DayText(c))
  }

  // isoformat() of a UTC datetime: YYYY-MM-DDTHH:MM:SS[.ffffff]+00:00, zero microseconds left out.
  function Iso(c: Civil): string {
    Digits(c.year, 4) + (['-'] + MonthText(c))
  }

  // A datetime: a wall-clock reading and its offset from UTC; a naive one has none and is taken as UTC.
  datatype Moment = Moment(wall: Civil, offset: Option<int>)

  function Instant(m: Moment): Time
    requires IsCivil(m.wall)
  {
    Micros(m.wall) - if m.offset.Some? then m.offset.value else 0
  }

  datatype StampError = OffsetOverflow

  function StampOf(t: Time): string
    requires InRange(t)
  {
    Iso(CivilOf(t))
  }

  // _stamp: normalise to UTC, then write as text; an instant outside years 1 to 9999 cannot be normalised.
  function Stamp(moment: Option<Moment>): Result<Option<string>, StampError>
    requires moment.Some? ==> IsCivil(moment.value.wall)
  {
    if moment.None? then Ok(None)
    else if InRange(Instant(moment.value)) then Ok(Some(StampOf(Instant(moment.value))))
    else Err(OffsetOverflow)
  }

  lemma TailOrder(a: nat, b: nat)
    requires a < SECOND && b < SECOND
    ensures TextLess(Tail(a), Tail(b)) <==> a < b
  {
    if a > 0 && b > 0 {
      var x := "+00:00";
      BelowPowerFits(a, 6);
      BelowPowerFits(b, 6);
      DigitsOrder(a, b, 6, x, x);
      NotBelowItself(x);
      SameHead('.', Digits(a, 6) + x, Digits(b, 6) + x);
      assert Tail(a) == ['.'] + (Digits(a, 6) + x) && Tail(b) == ['.'] + (Digits(b, 6) + x);
    } else if a == 0 && b == 0 {
      NotBelowItself(Tail(a));
    } else {
      assert Tail(a)[0] == (if a == 0 then '+' else '.') && Tail(b)[0] == (if b == 0 then '+' else '.');
    }
  }

  lemma FieldOrder(n: nat, m: nat, width: nat, sep: char, x: string, y: string)
    requires Fits(n, width) && Fits(m, width)
    ensures TextLess(Digits(n, width) + ([sep] + x), Digits(m, width) + ([sep] + y)) <==>
            n < m || (n == m && TextLess(x, y))
  {
    DigitsOrder(n, m, width, [sep] + x, [sep] + y);
    SameHead(sep, x, y);
  }

  lemma CivilFits(c: Civil)
    requires IsCivil(c)
    ensures Fits(c.year, 4) && Fits(c.month, 2) && Fits(c.day, 2)
    ensures Fits(c.hour, 2) && Fits(c.minute, 2) && Fits(c.second, 2) && Fits(c.micro, 6)
  {
    BelowPowerFits(c.year, 4);
    BelowPowerFits(c.month, 2);
    BelowPowerFits(c.day, 2);
    BelowPowerFits(c.hour, 2);
    BelowPowerFits(c.minute, 2);
    BelowPowerFits(c.second, 2);
    BelowPowerFits(c.micro, 6);
    hide Fits;
  }

  // Text order of two UTC stamps is civil order; '+' sorting before '.' makes the missing fraction come first.
  lemma IsoOrder(a: Civil, b: Civil)
    requires IsCivil(a) && IsCivil(b)
    ensures TextLess(Iso(a), Iso(b)) <==> CivilLess(a, b)
  {
    hide Digits, Fits, Tail, TextLess, DaysInMonth;
    CivilFits(a);
    CivilFits(b);
    TailOrder(a.micro, b.micro);
    DigitsOrder(a.second, b.second, 2, Tail(a.micro), Tail(b.micro));
    FieldOrder(a.minute, b.minute, 2, ':', SecondText(a), SecondText(b));
    FieldOrder(a.hour, b.hour, 2, ':', MinuteText(a), MinuteText(b));
    FieldOrder(a.day, b.day, 2, 'T', HourText(a), HourText(b));
    FieldOrder(a.month, b.month, 2, '-', DayText(a), DayText(b));
    FieldOrder(a.year, b.year, 4, '-', MonthText(a), MonthText(b));
  }

  lemma StampOrder(t: Time, u: Time)
    requires InRange(t) && InRange(u)
    ensures TextLess(StampOf(t), StampOf(u)) <==> t < u
    ensures StampOf(t) == StampOf(u) <==> t == u
  {
    IsoOrder(CivilOf(t), CivilOf(u));
    CivilOrder(CivilOf(t), CivilOf(u));
    IsoOrder(CivilOf(u), CivilOf(t));
    CivilOrder(CivilOf(u), CivilOf(t));
    NotBelowItself(StampOf(t));
    hide CivilOf, Iso, TextLess, CivilLess, Micros, IsCivil, InRange;
  }

  // Whatever offsets two datetimes carry, their stamps compare as the instants they name, and only equal instants
  // share a stamp.
  lemma StampsCompareAsInstants(a: Moment, b: Moment)
    requires IsCivil(a.wall) && IsCivil(b.wall)
    requires Stamp(Some(a)).Ok? && Stamp(Some(b)).Ok?
    ensures var x, y := Stamp(Some(a)).value.value, Stamp(Some(b)).value.value;
      && (TextLess(x, y) <==> Instant(a) < Instant(b))
      && (x == y <==> Instant(a) == Instant(b))
  {
    StampOrder(Instant(a), Instant(b));
    hide StampOf, InRange, Instant, TextLess;
  }

  // ---------------------------------------------------------------- reading

  datatype ParseError = NotATimestamp

  // A number of the given width followed by a separator, and what comes after.
  function ReadField(s: string, width: nat, sep: char): Result<(nat, string), ParseError> {
    if |s| <= width || s[width] != sep || ReadDigits(s[..width]).None? then Err(NotATimestamp)
    else Ok((ReadDigits(s[..width]).value, s[width + 1..]))
  }

  function ReadTail(s: string): Result<nat, ParseError> {
    if s == "+00:00" then Ok(0)
    else if |s| == 13 && s[0] == '.' && s[7..] == "+00:00" && ReadDigits(s[1..7]).Some? then
      Ok(ReadDigits(s[1..7]).value)
    else Err(NotATimestamp)
  }

  // fromisoformat() on stored text.
  function ReadIso(s: string): Result<Civil, ParseError> {
    var y :- ReadField(s, 4, '-');
    var mo :- ReadField(y.1, 2, '-');
    var d :- ReadField(mo.1, 2, 'T');
    var h :- ReadField(d.1, 2, ':');
    var mi :- ReadField(h.1, 2, ':');
    if |mi.1| < 2 || ReadDigits(mi.1[..2]).None? then Err(NotATimestamp)
    else
      var us :- ReadTail(mi.1[2..]);
      Ok(Civil(y.0, mo.0, d.0, h.0, mi.0, ReadDigits(mi.1[..2]).value, us))
  }

  lemma FieldReads(n: nat, width: nat, sep: char, x: string)
    requires Fits(n, width)
    ensures ReadField(Digits(n, width) + ([sep] + x), width, sep) == Ok((n, x))
  {
    DigitsLength(n, width);
    DigitsRoundTrip(n, width);
    hide Digits, ReadDigits;
    var s := Digits(n, width) + ([sep] + x);
    assert s[..width] == Digits(n, width) && s[width + 1..] == x;
  }

  lemma TailReads(c: Civil)
    requires IsCivil(c)
    ensures ReadTail(Tail(c.micro)) == Ok(c.micro)
    ensures |SecondText(c)| >= 2 && ReadDigits(SecondText(c)[..2]) == Some(c.second)
    ensures SecondText(c)[2..] == Tail(c.micro)
  {
    CivilFits(c);
    DigitsLength(c.micro, 6);
    DigitsRoundTrip(c.micro, 6);
    DigitsLength(c.second, 2);
    DigitsRoundTrip(c.second, 2);
    hide Digits, ReadDigits, Fits;
    var s := Tail(c.micro);
    assert c.micro > 0 ==> s[1..7] == Digits(c.micro, 6) && s[7..] == "+00:00";
    assert SecondText(c)[..2] == Digits(c.second, 2);
  }

  // A stored stamp reads back as the instant it was written from.
  lemma StampRoundTrip(t: Time)
    requires InRange(t)
    ensures ReadIso(StampOf(t)) == Ok(CivilOf(t)) && Micros(CivilOf(t)) == t
  {
    var c := CivilOf(t);
    CivilFits(c);
    TailReads(c);
    hide Digits, Fits, ReadDigits, ReadField, ReadTail, Tail, SecondText, CivilOf, Micros, IsCivil, InRange;
    FieldReads(c.year, 4, '-', MonthText(c));
    FieldReads(c.month, 2, '-', DayText(c));
    FieldReads(c.day, 2, 'T', HourText(c));
    FieldReads(c.hour, 2, ':', MinuteText(c));
    FieldReads(c.minute, 2, ':', SecondText(c));
  }
}
