// Calendar timestamps and second-resolution durations (core::DateTime and
// core::TimeDelta).  Both are value types in the C++ code, so a setter that
// changes one field is modelled as a function returning the updated value.
module DateTimes {
  import opened Wrappers

  /** A Gregorian date plus wall-clock time, one integer per component. */
  datatype DateTime = DateTime(year: int, month: int, day: int, hour: int, minute: int, second: int)

  // C++ truncates `%` towards zero while Dafny's `%` is Euclidean; the two
  // agree on whether the remainder is zero, which is all the leap-year rule asks.
  predicate IsLeapYear(year: int)
  {
    (year % 4 == 0 && year % 100 != 0) || year % 400 == 0
  }

  function DaysInMonth(year: int, month: int): (n: int)
    requires 1 <= month <= 12
    ensures 28 <= n <= 31
    ensures n == 29 <==> month == 2 && IsLeapYear(year)
    ensures n == 28 <==> month == 2 && !IsLeapYear(year)
    ensures n == 30 <==> month in {4, 6, 9, 11}
  {
    if month == 2 && IsLeapYear(year) then 29
    else [31, 28, 31, 30, 31, 30, 31, 31, 30, 31, 30, 31][month - 1]
  }

  predicate IsValidDate(year: int, month: int, day: int)
  {
    1900 <= year <= 3000 && 1 <= month <= 12 && 1 <= day <= DaysInMonth(year, month)
  }

  predicate IsValidTime(hour: int, minute: int, second: int)
  {
    0 <= hour < 24 && 0 <= minute < 60 && 0 <= second < 60
  }

  predicate IsValid(dt: DateTime)
  {
    IsValidDate(dt.year, dt.month, dt.day) && IsValidTime(dt.hour, dt.minute, dt.second)
  }

  /** The validating six-argument constructor. */
  function Make(year: int, month: int, day: int, hour: int, minute: int, second: int): (r: Result<DateTime>)
    ensures r.Ok? <==> IsValidDate(year, month, day) && IsValidTime(hour, minute, second)
    ensures r.Ok? ==> IsValid(r.value) && r.value.year == year && r.value.month == month && r.value.day == day
                      && r.value.hour == hour && r.value.minute == minute && r.value.second == second
    ensures r.Err? ==> r.error == InvalidArgument
  {
    if IsValidDate(year, month, day) && IsValidTime(hour, minute, second) then
      Ok(DateTime(year, month, day, hour, minute, second))
    else
      Err(InvalidArgument)
  }

  /** The three-argument constructor: midnight of the given day. */
  function MakeDate(year: int, month: int, day: int): (r: Result<DateTime>)
    ensures r.Ok? <==> IsValidDate(year, month, day)
    ensures r.Ok? ==> IsValid(r.value) && r.value == DateTime(year, month, day, 0, 0, 0)
    ensures r.Err? ==> r.error == InvalidArgument
  {
    Make(year, month, day, 0, 0, 0)
  }

  // Setters: each validates the new field together with the current others
  // and fails (leaving the original value to the caller) when invalid.

  function SetYear(dt: DateTime, year: int): (r: Result<DateTime>)
    ensures r.Ok? <==> IsValidDate(year, dt.month, dt.day)
    ensures r.Ok? ==> r.value == dt.(year := year)
    ensures r.Err? ==> r.error == InvalidArgument
  {
    if IsValidDate(year, dt.month, dt.day) then Ok(dt.(year := year)) else Err(InvalidArgument)
  }

  function SetMonth(dt: DateTime, month: int): (r: Result<DateTime>)
    ensures r.Ok? <==> IsValidDate(dt.year, month, dt.day)
    ensures r.Ok? ==> r.value == dt.(month := month)
    ensures r.Err? ==> r.error == InvalidArgument
  {
    if IsValidDate(dt.year, month, dt.day) then Ok(dt.(month := month)) else Err(InvalidArgument)
  }

  function SetDay(dt: DateTime, day: int): (r: Result<DateTime>)
    ensures r.Ok? <==> IsValidDate(dt.year, dt.month, day)
    ensures r.Ok? ==> r.value == dt.(day := day)
    ensures r.Err? ==> r.error == InvalidArgument
  {
    if IsValidDate(dt.year, dt.month, day) then Ok(dt.(day := day)) else Err(InvalidArgument)
  }

  function SetHour(dt: DateTime, hour: int): (r: Result<DateTime>)
    ensures r.Ok? <==> IsValidTime(hour, dt.minute, dt.second)
    ensures r.Ok? ==> r.value == dt.(hour := hour)
    ensures r.Err? ==> r.error == InvalidArgument
  {
    if IsValidTime(hour, dt.minute, dt.second) then Ok(dt.(hour := hour)) else Err(InvalidArgument)
  }

  function SetMinute(dt: DateTime, minute: int): (r: Result<DateTime>)
    ensures r.Ok? <==> IsValidTime(dt.hour, minute, dt.second)
    ensures r.Ok? ==> r.value == dt.(minute := minute)
    ensures r.Err? ==> r.error == InvalidArgument
  {
    if IsValidTime(dt.hour, minute, dt.second) then Ok(dt.(minute := minute)) else Err(InvalidArgument)
  }

  function SetSecond(dt: DateTime, second: int): (r: Result<DateTime>)
    ensures r.Ok? <==> IsValidTime(dt.hour, dt.minute, second)
    ensures r.Ok? ==> r.value == dt.(second := second)
    ensures r.Err? ==> r.error == InvalidArgument
  {
    if IsValidTime(dt.hour, dt.minute, second) then Ok(dt.(second := second)) else Err(InvalidArgument)
  }

  /** A setter that succeeds on a valid timestamp yields a valid timestamp. */
  lemma SettersKeepValid(dt: DateTime, v: int)
    requires IsValid(dt)
    ensures SetYear(dt, v).Ok? ==> IsValid(SetYear(dt, v).value)
    ensures SetMonth(dt, v).Ok? ==> IsValid(SetMonth(dt, v).value)
    ensures SetDay(dt, v).Ok? ==> IsValid(SetDay(dt, v).value)
    ensures SetHour(dt, v).Ok? ==> IsValid(SetHour(dt, v).value)
    ensures SetMinute(dt, v).Ok? ==> IsValid(SetMinute(dt, v).value)
    ensures SetSecond(dt, v).Ok? ==> IsValid(SetSecond(dt, v).value)
  {
  }

  /** A 29 February moves only to a leap year of the supported range; every other day of a valid date moves to any year of it. */
  lemma LeapDaySetYear(dt: DateTime, year: int)
    requires IsValid(dt)
    ensures dt.month == 2 && dt.day == 29 ==> (SetYear(dt, year).Ok? <==> 1900 <= year <= 3000 && IsLeapYear(year))
    ensures !(dt.month == 2 && dt.day == 29) ==> (SetYear(dt, year).Ok? <==> 1900 <= year <= 3000)
  {
  }

  // ---- Ordering -----------------------------------------------------------

  /** operator<: lexicographic on (year, month, day, hour, minute, second). */
  predicate Less(a: DateTime, b: DateTime)
  {
    if a.year != b.year then a.year < b.year
    else if a.month != b.month then a.month < b.month
    else if a.day != b.day then a.day < b.day
    else if a.hour != b.hour then a.hour < b.hour
    else if a.minute != b.minute then a.minute < b.minute
    else a.second < b.second
  }

  predicate LessEq(a: DateTime, b: DateTime) { Less(a, b) || a == b }

  predicate Greater(a: DateTime, b: DateTime) { !LessEq(a, b) }

  predicate GreaterEq(a: DateTime, b: DateTime) { !Less(a, b) }

  /** `Less` is a strict total order whose incomparability is field-wise equality. */
  lemma LessIsStrictTotalOrder(a: DateTime, b: DateTime, c: DateTime)
    ensures !Less(a, a)
    ensures Less(a, b) ==> !Less(b, a)
    ensures Less(a, b) && Less(b, c) ==> Less(a, c)
    ensures Less(a, b) || a == b || Less(b, a)
  {
  }

  /** The derived comparisons are the converses one expects. */
  lemma DerivedComparisons(a: DateTime, b: DateTime)
    ensures Greater(a, b) <==> Less(b, a)
    ensures GreaterEq(a, b) <==> LessEq(b, a)
    ensures LessEq(a, b) && LessEq(b, a) ==> a == b
  {
    LessIsStrictTotalOrder(a, b, a);
  }

  // ---- Formatting ---------------------------------------------------------

  const FullFormat: string := "%Y-%m-%d %H:%M:%S"
  const DateFormat: string := "%Y-%m-%d"

  function DigitChar(d: nat): char
    requires d < 10
  {
    ('0' as int + d) as char
  }

  /** Decimal digits of `n`, most significant first, without leading zeros. */
  function NatDigits(n: nat): string
    decreases n
  {
    if n < 10 then [DigitChar(n)] else NatDigits(n / 10) + [DigitChar(n % 10)]
  }

  /** How an `int` is written to a stream. */
  function IntText(n: int): string
  {
    if n < 0 then "-" + NatDigits(-n) else NatDigits(n)
  }

  function Zeros(k: nat): string
  {
    seq(k, _ => '0')
  }

  /** `std::setfill('0') << std::setw(width) << n`: right-justified, filled with '0' on the left. */
  function Field(n: int, width: nat): string
  {
    var text := IntText(n);
    if |text| >= width then text else Zeros(width - |text|) + text
  }

  /** Reads back a string of decimal digits. */
  function DecimalValue(s: string): int
  {
    if s == [] then 0 else DecimalValue(s[..|s| - 1]) * 10 + (s[|s| - 1] as int - '0' as int)
  }

  function Pow10(k: nat): nat
  {
    if k == 0 then 1 else 10 * Pow10(k - 1)
  }

  lemma {:induction false} NatDigitsFacts(n: nat)
    ensures |NatDigits(n)| >= 1
    ensures DecimalValue(NatDigits(n)) == n
    decreases n
  {
    if n >= 10 {
      NatDigitsFacts(n / 10);
      var s := NatDigits(n);
      assert s[..|s| - 1] == NatDigits(n / 10);
    }
  }

  lemma {:induction false} NatDigitsLength(n: nat, w: nat)
    requires 1 <= w && n < Pow10(w)
    ensures |NatDigits(n)| <= w
    decreases n
  {
    if n >= 10 {
      assert w >= 2;
      NatDigitsLength(n / 10, w - 1);
    }
  }

  lemma {:induction false} LeadingZeros(k: nat, s: string)
    ensures DecimalValue(Zeros(k) + s) == DecimalValue(s)
    decreases |s|, k
  {
    if s == [] {
      if k > 0 {
        assert (Zeros(k) + s)[..k - 1] == Zeros(k - 1) + s;
        LeadingZeros(k - 1, s);
      }
    } else {
      assert (Zeros(k) + s)[..|Zeros(k) + s| - 1] == Zeros(k) + s[..|s| - 1];
      LeadingZeros(k, s[..|s| - 1]);
    }
  }

  /** A non-negative number below 10^width fills exactly `width` characters and reads back. */
  lemma FieldFacts(n: int, width: nat)
    requires 1 <= width && 0 <= n < Pow10(width)
    ensures |Field(n, width)| == width
    ensures DecimalValue(Field(n, width)) == n
  {
    NatDigitsFacts(n);
    NatDigitsLength(n, width);
    var text := NatDigits(n);
    if |text| < width {
      LeadingZeros(width - |text|, text);
    }
  }

  /** Offsets of the pieces of `a x b y c` when `b` and `c` are two characters wide. */
  lemma Layout(a: string, x: string, b: string, y: string, c: string)
    requires |x| == 1 && |y| == 1 && |b| == 2 && |c| == 2
    ensures var t := a + x + b + y + c;
      && |t| == |a| + 6 && t[..|a|] == a && t[|a|] == x[0] && t[|a| + 1..|a| + 3] == b
      && t[|a| + 3] == y[0] && t[|a| + 4..] == c
  {
    var t := a + x + b + y + c;
    assert t[|a| + 1..|a| + 3] == b by {
      assert t == (a + x) + b + (y + c);
      assert forall i :: 0 <= i < 2 ==> t[|a| + 1 + i] == b[i];
    }
    assert t[|a| + 4..] == c by {
      assert t == (a + x + b + y) + c;
    }
  }

  function DatePart(dt: DateTime): string
  {
    Field(dt.year, 4) + "-" + Field(dt.month, 2) + "-" + Field(dt.day, 2)
  }

  function ClockPart(dt: DateTime): string
  {
    Field(dt.hour, 2) + ":" + Field(dt.minute, 2) + ":" + Field(dt.second, 2)
  }

  /** toString(format): the two recognised formats, and the full form for any other. */
  function ToString(dt: DateTime, format: string): string
  {
    if format == FullFormat then DatePart(dt) + " " + ClockPart(dt)
    else if format == DateFormat then DatePart(dt)
    else DatePart(dt) + " " + ClockPart(dt)
  }

  /**
   * For a valid timestamp the full form is 19 characters, every field can be
   * read back at its fixed offset, and the date-only form is its 10-character
   * prefix.
   */
  lemma ToStringLayout(dt: DateTime)
    requires IsValid(dt)
    ensures var s := ToString(dt, FullFormat);
      && |s| == 19
      && s[4] == '-' && s[7] == '-' && s[10] == ' ' && s[13] == ':' && s[16] == ':'
      && DecimalValue(s[0..4]) == dt.year && DecimalValue(s[5..7]) == dt.month
      && DecimalValue(s[8..10]) == dt.day && DecimalValue(s[11..13]) == dt.hour
      && DecimalValue(s[14..16]) == dt.minute && DecimalValue(s[17..19]) == dt.second
  {
    DatePartLayout(dt);
    ClockPartLayout(dt);
    FullLayout(DatePart(dt), ClockPart(dt));
  }

  lemma DatePartLayout(dt: DateTime)
    requires IsValid(dt)
    ensures var date := DatePart(dt);
      && |date| == 10 && date[4] == '-' && date[7] == '-'
      && DecimalValue(date[0..4]) == dt.year && DecimalValue(date[5..7]) == dt.month
      && DecimalValue(date[8..10]) == dt.day
  {
    var y, mo, d := Field(dt.year, 4), Field(dt.month, 2), Field(dt.day, 2);
    assert dt.day <= 31;
    TwoDigitField(dt.month);
    TwoDigitField(dt.day);
    assert |y| == 4 && DecimalValue(y) == dt.year by {
      assert Pow10(4) == 10000;
      FieldFacts(dt.year, 4);
    }
    Layout(y, "-", mo, "-", d);
  }

  lemma ClockPartLayout(dt: DateTime)
    requires IsValid(dt)
    ensures var clock := ClockPart(dt);
      && |clock| == 8 && clock[2] == ':' && clock[5] == ':'
      && DecimalValue(clock[0..2]) == dt.hour && DecimalValue(clock[3..5]) == dt.minute
      && DecimalValue(clock[6..8]) == dt.second
  {
    var h, mi, se := Field(dt.hour, 2), Field(dt.minute, 2), Field(dt.second, 2);
    TwoDigitField(dt.hour);
    TwoDigitField(dt.minute);
    TwoDigitField(dt.second);
    Layout(h, ":", mi, ":", se);
  }

  lemma TwoDigitField(n: int)
    requires 0 <= n < 100
    ensures |Field(n, 2)| == 2 && DecimalValue(Field(n, 2)) == n && Field(n, 2)[0] != '-'
  {
    assert Pow10(2) == 100;
    FieldFacts(n, 2);
    if n < 10 {
      assert Field(n, 2) == Zeros(1) + [DigitChar(n)];
    } else {
      assert NatDigits(n) == NatDigits(n / 10) + [DigitChar(n % 10)];
      assert NatDigits(n / 10) == [DigitChar(n / 10)];
    }
  }

  /** Offsets of the pieces of `date + " " + clock` for a 10-character date and an 8-character clock. */
  lemma FullLayout(date: string, clock: string)
    requires |date| == 10 && |clock| == 8
    ensures var s := date + " " + clock;
      && |s| == 19 && s[10] == ' '
      && s[4] == date[4] && s[7] == date[7] && s[13] == clock[2] && s[16] == clock[5]
      && s[0..4] == date[0..4] && s[5..7] == date[5..7] && s[8..10] == date[8..10]
      && s[11..13] == clock[0..2] && s[14..16] == clock[3..5] && s[17..19] == clock[6..8]
  {
    var s := date + " " + clock;
    assert s[..10] == date;
    assert s[11..] == clock;
    assert s[11..13] == clock[0..2] by { assert s[11..13] == s[11..][0..2]; }
    assert s[14..16] == clock[3..5] by { assert s[14..16] == s[11..][3..5]; }
    assert s[17..19] == clock[6..8] by { assert s[17..19] == s[11..][6..8]; }
  }

  /** The date-only form is the first ten characters of the full form, which every other format gets. */
  lemma ToStringFormats(dt: DateTime, format: string)
    ensures ToString(dt, DateFormat) == ToString(dt, FullFormat)[..|DatePart(dt)|]
    ensures format != DateFormat ==> ToString(dt, format) == ToString(dt, FullFormat)
  {
    assert DateFormat != FullFormat by { assert |DateFormat| != |FullFormat|; }
  }

  /** Distinct valid timestamps print differently. */
  lemma ToStringInjective(a: DateTime, b: DateTime)
    requires IsValid(a) && IsValid(b) && ToString(a, FullFormat) == ToString(b, FullFormat)
    ensures a == b
  {
    ToStringLayout(a);
    ToStringLayout(b);
  }

  // ---- Calendar stepping --------------------------------------------------

  /**
   * The next calendar day at the same time of day.  A month outside 1..12
   * (which no validated timestamp has) is left unchanged.
   */
  function NextDay(dt: DateTime): DateTime
  {
    if !(1 <= dt.month <= 12) then dt
    else if dt.day < DaysInMonth(dt.year, dt.month) then dt.(day := dt.day + 1)
    else if dt.month < 12 then dt.(month := dt.month + 1, day := 1)
    else dt.(year := dt.year + 1, month := 1, day := 1)
  }

  /** addDays(n): `n` calendar days later, same time of day. */
  function AddDays(dt: DateTime, days: nat): DateTime
    decreases days
  {
    if days == 0 then dt else AddDays(NextDay(dt), days - 1)
  }

  lemma NextDayFacts(dt: DateTime)
    requires 1 <= dt.month <= 12
    ensures Less(dt, NextDay(dt))
    ensures 1 <= NextDay(dt).month <= 12
    ensures IsValid(dt) && !(dt.year == 3000 && dt.month == 12 && dt.day == 31) ==> IsValid(NextDay(dt))
  {
  }

  /** Adding a positive number of days moves strictly later; the time of day is kept. */
  lemma {:induction false} AddDaysLater(dt: DateTime, days: nat)
    requires 1 <= dt.month <= 12 && days > 0
    ensures Less(dt, AddDays(dt, days))
    ensures 1 <= AddDays(dt, days).month <= 12
    ensures AddDays(dt, days).hour == dt.hour && AddDays(dt, days).minute == dt.minute
    ensures AddDays(dt, days).second == dt.second
    decreases days
  {
    NextDayFacts(dt);
    if days > 1 {
      AddDaysLater(NextDay(dt), days - 1);
      LessIsStrictTotalOrder(dt, NextDay(dt), AddDays(dt, days));
    }
  }

  // ---- TimeDelta ----------------------------------------------------------

  /** A signed duration held as a whole number of seconds (long long in C++). */
  datatype TimeDelta = TimeDelta(totalSeconds: int)

  const SecondsPerDay: int := 86400
  const SecondsPerHour: int := 3600
  const SecondsPerMinute: int := 60

  /** C++ integer division, which truncates towards zero. */
  function Quot(a: int, b: int): int
    requires b > 0
  {
    if a >= 0 then a / b else -((-a) / b)
  }

  /** C++ `%`, whose result has the sign of the dividend. */
  function Rem(a: int, b: int): int
    requires b > 0
  {
    if a >= 0 then a % b else -((-a) % b)
  }

  /** Truncating division is odd in the dividend, unlike Euclidean division. */
  lemma QuotRemNegate(a: int, b: int)
    requires b > 0
    ensures Quot(-a, b) == -Quot(a, b) && Rem(-a, b) == -Rem(a, b)
  {
  }

  /** TimeDelta(days, hours, minutes, seconds). */
  function FromParts(days: int, hours: int, minutes: int, seconds: int): TimeDelta
  {
    TimeDelta(days * SecondsPerDay + hours * SecondsPerHour + minutes * SecondsPerMinute + seconds)
  }

  function Days(td: TimeDelta): int { Quot(td.totalSeconds, SecondsPerDay) }

  function Hours(td: TimeDelta): int { Quot(Rem(td.totalSeconds, SecondsPerDay), SecondsPerHour) }

  function Minutes(td: TimeDelta): int { Quot(Rem(td.totalSeconds, SecondsPerHour), SecondsPerMinute) }

  function Seconds(td: TimeDelta): int { Rem(td.totalSeconds, SecondsPerMinute) }

  // Division by each fixed unit, stated once so that the proofs below stay linear.

  lemma SplitDays(s: int, q: int, r: int)
    requires 0 <= r < SecondsPerDay && s == q * SecondsPerDay + r
    ensures s / SecondsPerDay == q && s % SecondsPerDay == r
  {
  }

  lemma SplitHours(s: int, q: int, r: int)
    requires 0 <= r < SecondsPerHour && s == q * SecondsPerHour + r
    ensures s / SecondsPerHour == q && s % SecondsPerHour == r
  {
  }

  lemma SplitMinutes(s: int, q: int, r: int)
    requires 0 <= r < SecondsPerMinute && s == q * SecondsPerMinute + r
    ensures s / SecondsPerMinute == q && s % SecondsPerMinute == r
  {
  }

  lemma DecomposeNonNegative(s: int)
    requires s >= 0
    ensures var td := TimeDelta(s);
      && Days(td) * SecondsPerDay + Hours(td) * SecondsPerHour + Minutes(td) * SecondsPerMinute + Seconds(td) == s
      && Days(td) >= 0 && 0 <= Hours(td) < 24 && 0 <= Minutes(td) < 60 && 0 <= Seconds(td) < 60
  {
    var q, r := s / SecondsPerDay, s % SecondsPerDay;
    var h, r2 := r / SecondsPerHour, r % SecondsPerHour;
    var m, sec := r2 / SecondsPerMinute, r2 % SecondsPerMinute;
    SplitHours(s, 24 * q + h, r2);
    SplitMinutes(s, (24 * q + h) * 60 + m, sec);
  }

  /**
   * The accessors recompose the total for every duration, and each has the
   * sign of the total (so a negative duration reports negative components).
   */
  lemma Decompose(td: TimeDelta)
    ensures Days(td) * SecondsPerDay + Hours(td) * SecondsPerHour + Minutes(td) * SecondsPerMinute + Seconds(td)
            == td.totalSeconds
    ensures -24 < Hours(td) < 24 && -60 < Minutes(td) < 60 && -60 < Seconds(td) < 60
    ensures td.totalSeconds >= 0 ==> Days(td) >= 0 && Hours(td) >= 0 && Minutes(td) >= 0 && Seconds(td) >= 0
    ensures td.totalSeconds <= 0 ==> Days(td) <= 0 && Hours(td) <= 0 && Minutes(td) <= 0 && Seconds(td) <= 0
  {
    var s := td.totalSeconds;
    if s >= 0 {
      DecomposeNonNegative(s);
    } else {
      DecomposeNonNegative(-s);
      QuotRemNegate(-s, SecondsPerDay);
      QuotRemNegate(-s, SecondsPerHour);
      QuotRemNegate(-s, SecondsPerMinute);
      QuotRemNegate(Rem(-s, SecondsPerDay), SecondsPerHour);
      QuotRemNegate(Rem(-s, SecondsPerHour), SecondsPerMinute);
    }
  }

  /** Components given in their natural ranges are read back unchanged. */
  lemma PartsRoundTrip(days: int, hours: int, minutes: int, seconds: int)
    requires days >= 0 && 0 <= hours < 24 && 0 <= minutes < 60 && 0 <= seconds < 60
    ensures var td := FromParts(days, hours, minutes, seconds);
      Days(td) == days && Hours(td) == hours && Minutes(td) == minutes && Seconds(td) == seconds
  {
    var s := FromParts(days, hours, minutes, seconds).totalSeconds;
    var underMinute := seconds;
    var underHour := minutes * SecondsPerMinute + underMinute;
    var underDay := hours * SecondsPerHour + underHour;
    SplitDays(s, days, underDay);
    SplitHours(underDay, hours, underHour);
    SplitHours(s, days * 24 + hours, underHour);
    SplitMinutes(underHour, minutes, underMinute);
    SplitMinutes(s, (days * 24 + hours) * 60 + minutes, underMinute);
  }

  function Plus(a: TimeDelta, b: TimeDelta): TimeDelta { TimeDelta(a.totalSeconds + b.totalSeconds) }

  function Minus(a: TimeDelta, b: TimeDelta): TimeDelta { TimeDelta(a.totalSeconds - b.totalSeconds) }

  function Negate(a: TimeDelta): TimeDelta { TimeDelta(-a.totalSeconds) }

  /** The comparison operators all compare total seconds; this is operator<. */
  predicate DeltaLess(a: TimeDelta, b: TimeDelta) { a.totalSeconds < b.totalSeconds }

  /** `+`, `-` and unary `-` form the group of integers under addition. */
  lemma DeltaArithmetic(a: TimeDelta, b: TimeDelta)
    ensures Minus(Plus(a, b), b) == a
    ensures Minus(a, b) == Plus(a, Negate(b))
    ensures Negate(Negate(a)) == a
    ensures Plus(a, b) == Plus(b, a)
    ensures DeltaLess(a, b) <==> DeltaLess(Negate(b), Negate(a))
  {
  }

  /** static_cast<long long> of a double: truncation towards zero. */
  function TruncateReal(x: real): (n: int)
    ensures x >= 0.0 ==> 0 <= n && n as real <= x < n as real + 1.0
    ensures x < 0.0 ==> n <= 0 && n as real - 1.0 < x <= n as real
  {
    if x >= 0.0 then x.Floor else -((-x).Floor)
  }

  /** operator*(double). */
  function Scale(td: TimeDelta, factor: real): TimeDelta
  {
    TimeDelta(TruncateReal(td.totalSeconds as real * factor))
  }

  /** operator/(double): throws on a zero divisor. */
  function DivideBy(td: TimeDelta, factor: real): (r: Result<TimeDelta>)
    ensures r.Err? <==> factor == 0.0
    ensures r.Err? ==> r.error == InvalidArgument
  {
    if factor == 0.0 then Err(InvalidArgument)
    else Ok(TimeDelta(TruncateReal(td.totalSeconds as real / factor)))
  }

  lemma WholeProduct(a: int, k: int)
    ensures (a as real) * (k as real) == (a * k) as real
  {
  }

  lemma WholeQuotient(x: real, a: real, k: real)
    requires k != 0.0 && x == a * k
    ensures x / k == a
  {
  }

  lemma TruncateWhole(n: int)
    ensures TruncateReal(n as real) == n
  {
  }

  /** Scaling by a whole number is exact, and dividing by a non-zero whole number undoes it. */
  lemma ScaleDivideRoundTrip(td: TimeDelta, k: int)
    requires k != 0
    ensures Scale(td, k as real) == TimeDelta(td.totalSeconds * k)
    ensures DivideBy(Scale(td, k as real), k as real) == Ok(td)
  {
    var a := td.totalSeconds;
    WholeProduct(a, k);
    TruncateWhole(a * k);
    WholeQuotient((a * k) as real, a as real, k as real);
    TruncateWhole(a);
  }

  /** TimeDelta::toString: optional sign, "<d> days, " when d > 0, then HH:MM:SS of the magnitude. */
  function DeltaToString(td: TimeDelta): string
  {
    var a := if td.totalSeconds < 0 then -td.totalSeconds else td.totalSeconds;
    var m := TimeDelta(a);
    (if td.totalSeconds < 0 then "-" else "")
    + (if Days(m) > 0 then IntText(Days(m)) + " days, " else "")
    + Field(Hours(m), 2) + ":" + Field(Minutes(m), 2) + ":" + Field(Seconds(m), 2)
  }

  /** Durations under a day print as a fixed-width clock, preceded by "-" when negative. */
  lemma DeltaToStringUnderADay(td: TimeDelta)
    requires -SecondsPerDay < td.totalSeconds < SecondsPerDay
    ensures var s := DeltaToString(td);
      && |s| == (if td.totalSeconds < 0 then 9 else 8)
      && (td.totalSeconds < 0 <==> s[0] == '-')
  {
    var a := if td.totalSeconds < 0 then -td.totalSeconds else td.totalSeconds;
    var m := TimeDelta(a);
    DecomposeNonNegative(a);
    assert Days(m) == 0;
    TwoDigitField(Hours(m));
    TwoDigitField(Minutes(m));
    TwoDigitField(Seconds(m));
  }
}
