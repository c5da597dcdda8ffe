/** Simulation time: an immutable count of seconds since the start of the
    simulated week (SimpleTime), with its signed span type (RelativeTime).

    Integers are unbounded here; the 32-bit range of Java's `int` is not
    modelled (see README, "Left out"). Division and remainder follow Java,
    which truncates toward zero, and are written out as JavaDiv / JavaRem. */
module Time {
  import opened Wrappers

  const SecondsPerMinute: int := 60
  const SecondsPerHour: int := 3600
  const SecondsPerDay: int := 86400
  const SecondsPerWeek: int := 604800

  /** Java's integer `/`: the quotient is rounded toward zero. */
  function JavaDiv(a: int, b: int): (q: int)
    requires b > 0
    ensures a >= 0 ==> q * b <= a < q * b + b
    ensures a < 0 ==> q * b - b < a <= q * b
  {
    if a >= 0 then a / b else -((-a) / b)
  }

  /** Java's integer `%`: the remainder has the sign of the dividend. */
  function JavaRem(a: int, b: int): (r: int)
    requires b > 0
    ensures a == JavaDiv(a, b) * b + r
    ensures a >= 0 ==> 0 <= r < b
    ensures a < 0 ==> -b < r <= 0
  {
    a - JavaDiv(a, b) * b
  }

  lemma {:induction false} JavaDivNegate(a: int, b: int)
    requires b > 0
    ensures JavaDiv(-a, b) == -JavaDiv(a, b)
    ensures JavaRem(-a, b) == -JavaRem(a, b)
  {
    if a == 0 {
    } else if a > 0 {
      assert -(-a) == a;
    } else {
      assert -a > 0;
    }
  }

  /** A signed span of time, counted in seconds (the Java class RelativeTime is
      not part of this model; it is read as a plain signed second count). */
  datatype RelativeTime = RelativeTime(seconds: int) {

    static function OfSeconds(n: int): RelativeTime { RelativeTime(n) }
    static function OfMinutes(n: int): RelativeTime { RelativeTime(n * SecondsPerMinute) }
    static function OfHours(n: int): RelativeTime { RelativeTime(n * SecondsPerHour) }
    static function OfDays(n: int): RelativeTime { RelativeTime(n * SecondsPerDay) }
    static function OfWeeks(n: int): RelativeTime { RelativeTime(n * SecondsPerWeek) }

    predicate IsNegative() { seconds < 0 }

    function ToMinutes(): int { JavaDiv(seconds, SecondsPerMinute) }
    function ToHours(): int { JavaDiv(seconds, SecondsPerHour) }
    function ToDays(): int { JavaDiv(seconds, SecondsPerDay) }
    function ToWeeks(): int { JavaDiv(seconds, SecondsPerWeek) }

    function Plus(other: RelativeTime): RelativeTime { RelativeTime(seconds + other.seconds) }
    function Minus(other: RelativeTime): RelativeTime { RelativeTime(seconds - other.seconds) }

    function PlusSeconds(n: int): RelativeTime { Plus(OfSeconds(n)) }
    function PlusMinutes(n: int): RelativeTime { Plus(OfMinutes(n)) }
    function PlusHours(n: int): RelativeTime { Plus(OfHours(n)) }
    function PlusDays(n: int): RelativeTime { Plus(OfDays(n)) }
    function PlusWeeks(n: int): RelativeTime { Plus(OfWeeks(n)) }
    function MinusSeconds(n: int): RelativeTime { Minus(OfSeconds(n)) }
    function MinusMinutes(n: int): RelativeTime { Minus(OfMinutes(n)) }
    function MinusHours(n: int): RelativeTime { Minus(OfHours(n)) }
    function MinusDays(n: int): RelativeTime { Minus(OfDays(n)) }
    function MinusWeeks(n: int): RelativeTime { Minus(OfWeeks(n)) }
  }

  /** The reasons newTime rejects its arguments, in the order it checks them. */
  datatype TimeError =
    | HoursOutOfRange(hours: int)
    | MinutesOutOfRange(minutes: int)
    | SecondsOutOfRange(seconds: int)

  /** A point in simulated time. Equality of the datatype is equality of the
      second count, which is exactly what SimpleTime.equals compares. */
  datatype SimpleTime = SimpleTime(seconds: int) {

    static function Start(): SimpleTime { SimpleTime(0) }

    static function From(fromStart: RelativeTime): SimpleTime { SimpleTime(fromStart.seconds) }

    static function OfSeconds(n: int): SimpleTime { From(RelativeTime.OfSeconds(n)) }
    static function OfMinutes(n: int): SimpleTime { From(RelativeTime.OfMinutes(n)) }
    static function OfHours(n: int): SimpleTime { From(RelativeTime.OfHours(n)) }
    static function OfDays(n: int): SimpleTime { From(RelativeTime.OfDays(n)) }
    static function OfWeeks(n: int): SimpleTime { From(RelativeTime.OfWeeks(n)) }

    static function Of(days: int, hours: int, minutes: int, secs: int): (t: SimpleTime)
      ensures t.seconds == days * SecondsPerDay + hours * SecondsPerHour + minutes * SecondsPerMinute + secs
    {
      From(RelativeTime.OfDays(days).PlusHours(hours).PlusMinutes(minutes).PlusSeconds(secs))
    }

    function ToSeconds(): int { seconds }

    function FromStart(): RelativeTime { RelativeTime.OfSeconds(seconds) }

    /** Whole minutes since the start, truncated toward zero. */
    function ToMinutes(): (m: int)
      ensures seconds >= 0 ==> 0 <= m * SecondsPerMinute <= seconds < m * SecondsPerMinute + SecondsPerMinute
      ensures seconds < 0 ==> m * SecondsPerMinute - SecondsPerMinute < seconds <= m * SecondsPerMinute <= 0
    {
      FromStart().ToMinutes()
    }

    /** Whole weeks since the start, truncated toward zero. */
    function GetWeek(): (w: int)
      ensures seconds >= 0 ==> 0 <= w * SecondsPerWeek <= seconds < w * SecondsPerWeek + SecondsPerWeek
      ensures seconds < 0 ==> w * SecondsPerWeek - SecondsPerWeek < seconds <= w * SecondsPerWeek <= 0
    {
      FromStart().ToWeeks()
    }

    /** The day this time lies in. Non-negative times count whole days since
        the start; day -1 covers seconds -86400 to -1, and so on. */
    function GetDay(): (d: int)
      ensures d * SecondsPerDay <= seconds < d * SecondsPerDay + SecondsPerDay
    {
      if FromStart().IsNegative() then GetNegativeDay() else FromStart().ToDays()
    }

    function GetNegativeDay(): int {
      FromStart().MinusDays(1).PlusSeconds(1).ToDays()
    }

    /** The hour of the day; negative for negative times, as Java's `%`. */
    function GetHour(): (h: int)
      ensures seconds >= 0 ==> 0 <= h < 24
      ensures seconds < 0 ==> -24 < h <= 0
    {
      JavaRem(FromStart().ToHours(), 24)
    }

    /** The minute of the hour; negative for negative times. */
    function GetMinute(): (m: int)
      ensures seconds >= 0 ==> 0 <= m < 60
      ensures seconds < 0 ==> -60 < m <= 0
    {
      JavaRem(FromStart().ToMinutes(), 60)
    }

    /** The second of the minute; negative for negative times. */
    function GetSecond(): (s: int)
      ensures seconds >= 0 ==> 0 <= s < 60
      ensures seconds < 0 ==> -60 < s <= 0
      ensures JavaRem(seconds, 60) == s
    {
      JavaRem(FromStart().seconds, 60)
    }

    /** Start of the day as computed by the source: it truncates toward zero,
        so a negative time is moved forward, not back, to a day boundary. */
    function StartOfDay(): (r: SimpleTime)
      ensures r.seconds % SecondsPerDay == 0
      ensures seconds >= 0 ==> r.seconds <= seconds < r.seconds + SecondsPerDay
      ensures seconds < 0 ==> seconds <= r.seconds < seconds + SecondsPerDay
    {
      OfDays(FromStart().ToDays())
    }

    function PreviousDay(): (r: SimpleTime)
      ensures r.seconds == StartOfDay().seconds - SecondsPerDay
    {
      OfDays(FromStart().ToDays()).MinusDays(1)
    }

    function NextDay(): (r: SimpleTime)
      ensures r.seconds == StartOfDay().seconds + SecondsPerDay
    {
      OfDays(FromStart().ToDays()).PlusDays(1)
    }

    /** Midnight: hour, minute and second all zero, which is exactly a whole
        number of days, for negative times too. */
    function IsMidnight(): (midnight: bool)
      ensures midnight <==> seconds % SecondsPerDay == 0
    {
      ClockZeroIffWholeDays(this);
      GetSecond() == 0 && GetMinute() == 0 && GetHour() == 0
    }

    /** A time at or before another never lies on a later day. */
    function IsBeforeOrEqualTo(other: SimpleTime): (r: bool)
      ensures r ==> GetDay() <= other.GetDay()
      ensures !r ==> other.GetDay() <= GetDay()
    {
      ToSeconds() <= other.ToSeconds()
    }

    function IsAfterOrEqualTo(other: SimpleTime): (r: bool)
      ensures r <==> other.IsBeforeOrEqualTo(this)
    {
      ToSeconds() >= other.ToSeconds()
    }

    function IsBefore(other: SimpleTime): (r: bool)
      ensures r <==> !other.IsBeforeOrEqualTo(this)
    {
      ToSeconds() < other.ToSeconds()
    }

    function IsAfter(other: SimpleTime): (r: bool)
      ensures r <==> other.IsBefore(this)
    {
      ToSeconds() > other.ToSeconds()
    }

    function Minus(decrement: RelativeTime): (r: SimpleTime)
      ensures r.seconds == seconds - decrement.seconds
    {
      From(FromStart().Minus(decrement))
    }

    function Plus(increment: RelativeTime): (r: SimpleTime)
      ensures r.seconds == seconds + increment.seconds
    {
      From(FromStart().Plus(increment))
    }

    function MinusWeeks(n: int): (r: SimpleTime) ensures r.seconds == seconds - n * SecondsPerWeek
    { From(FromStart().MinusWeeks(n)) }
    function MinusDays(n: int): (r: SimpleTime) ensures r.seconds == seconds - n * SecondsPerDay
    { From(FromStart().MinusDays(n)) }
    function MinusHours(n: int): (r: SimpleTime) ensures r.seconds == seconds - n * SecondsPerHour
    { From(FromStart().MinusHours(n)) }
    function MinusMinutes(n: int): (r: SimpleTime) ensures r.seconds == seconds - n * SecondsPerMinute
    { From(FromStart().MinusMinutes(n)) }
    function MinusSeconds(n: int): (r: SimpleTime) ensures r.seconds == seconds - n
    { From(FromStart().MinusSeconds(n)) }

    function PlusWeeks(n: int): (r: SimpleTime) ensures r.seconds == seconds + n * SecondsPerWeek
    { From(FromStart().PlusWeeks(n)) }
    function PlusDays(n: int): (r: SimpleTime) ensures r.seconds == seconds + n * SecondsPerDay
    { From(FromStart().PlusDays(n)) }
    function PlusHours(n: int): (r: SimpleTime) ensures r.seconds == seconds + n * SecondsPerHour
    { From(FromStart().PlusHours(n)) }
    function PlusMinutes(n: int): (r: SimpleTime) ensures r.seconds == seconds + n * SecondsPerMinute
    { From(FromStart().PlusMinutes(n)) }
    function PlusSeconds(n: int): (r: SimpleTime) ensures r.seconds == seconds + n
    { From(FromStart().PlusSeconds(n)) }

    /** The range check of newTime: hours in [0, 28), minutes and seconds in
        [0, 60); the first violated bound is reported. */
    static function Verify(hours: int, minutes: int, secs: int): (r: Outcome<TimeError>)
      ensures r.Pass? <==> 0 <= hours < 28 && 0 <= minutes < 60 && 0 <= secs < 60
      ensures r.Fail? && r.error.HoursOutOfRange? <==> !(0 <= hours < 28)
      ensures r.Fail? && r.error.MinutesOutOfRange? <==> 0 <= hours < 28 && !(0 <= minutes < 60)
    {
      if 0 > hours || 28 <= hours then Fail(HoursOutOfRange(hours))
      else if 0 > minutes || 60 <= minutes then Fail(MinutesOutOfRange(minutes))
      else if 0 > secs || 60 <= secs then Fail(SecondsOutOfRange(secs))
      else Pass
    }

    /** The given clock time on the day of this time (the day as StartOfDay
        computes it). */
    function NewTime(hours: int, minutes: int, secs: int): (r: Result<SimpleTime, TimeError>)
      ensures r.Success? <==> Verify(hours, minutes, secs).Pass?
      ensures r.Failure? ==> r.error == Verify(hours, minutes, secs).error
      ensures r.Success? ==>
        r.value.seconds == StartOfDay().seconds + hours * SecondsPerHour + minutes * SecondsPerMinute + secs
    {
      match Verify(hours, minutes, secs)
      case Fail(e) => Failure(e)
      case Pass =>
        var days := FromStart().ToDays();
        Success(OfDays(days).PlusHours(hours).PlusMinutes(minutes).PlusSeconds(secs))
    }

    function DifferenceTo(other: SimpleTime): (r: RelativeTime)
      ensures r.seconds == seconds - other.seconds
    {
      FromStart().Minus(other.FromStart())
    }

    function CompareTo(other: SimpleTime): (r: int)
      ensures r == -1 || r == 0 || r == 1
      ensures r == 0 <==> Equals(other)
      ensures r < 0 <==> seconds < other.seconds
      ensures r > 0 <==> other.seconds < seconds
    {
      if IsBefore(other) then -1
      else if other.IsBefore(this) then 1
      else 0
    }

    /** SimpleTime.equals compares the second counts only. */
    predicate Equals(other: SimpleTime)
      ensures Equals(other) <==> this == other
    {
      seconds == other.seconds
    }
  }

  /** The seven days of a week, each at midnight: the i-th is day i. */
  method OneWeek() returns (week: seq<SimpleTime>)
    ensures |week| == 7
    ensures forall i :: 0 <= i < 7 ==> week[i] == SimpleTime.OfDays(i)
    ensures forall i :: 0 <= i < 7 ==> week[i].GetDay() == i && week[i].IsMidnight()
  {
    var start := SimpleTime.Start();
    week := [];
    var day := 0;
    while day < 7
      invariant 0 <= day <= 7
      invariant |week| == day
      invariant forall i :: 0 <= i < day ==> week[i] == SimpleTime.OfDays(i)
    {
      week := week + [start.PlusDays(day)];
      day := day + 1;
    }
    forall i | 0 <= i < 7
      ensures week[i].GetDay() == i && week[i].IsMidnight()
    {
      DayStartIsMidnight(i);
    }
  }

  // ---------------------------------------------------------------------
  // Properties of the time arithmetic

  /** The four comparisons are the orderings of the second counts, and they
      agree with each other and with compareTo. */
  lemma OrderingsAgree(a: SimpleTime, b: SimpleTime)
    ensures a.IsAfter(b) <==> a.seconds > b.seconds
    ensures a.IsBefore(b) <==> b.IsAfter(a)
    ensures a.IsBeforeOrEqualTo(b) <==> !a.IsAfter(b)
    ensures a.IsAfterOrEqualTo(b) <==> !a.IsBefore(b)
    ensures a.CompareTo(b) == -b.CompareTo(a)
  {
  }

  /** Every minusX(n) undoes plusX(n), for each unit. */
  lemma MinusUndoesPlus(t: SimpleTime, n: int, d: RelativeTime)
    ensures t.PlusSeconds(n).MinusSeconds(n) == t
    ensures t.PlusMinutes(n).MinusMinutes(n) == t
    ensures t.PlusHours(n).MinusHours(n) == t
    ensures t.PlusDays(n).MinusDays(n) == t
    ensures t.PlusWeeks(n).MinusWeeks(n) == t
    ensures t.Plus(d).Minus(d) == t
  {
  }

  /** The day of a time is its second count divided by the length of a day,
      rounding down (Dafny's division on a positive divisor rounds down). */
  lemma {:induction false} GetDayIsFloor(t: SimpleTime)
    ensures t.GetDay() == t.seconds / SecondsPerDay
    ensures t.seconds >= 0 ==> t.GetDay() >= 0
    ensures -SecondsPerDay <= t.seconds < 0 ==> t.GetDay() == -1
  {
    var d := t.GetDay();
    DivUnique(t.seconds, SecondsPerDay, d, t.seconds - d * SecondsPerDay);
  }

  lemma DivUnique(n: int, k: int, q: int, r: int)
    requires k > 0 && 0 <= r < k && n == q * k + r
    ensures n / k == q && n % k == r
  {
    var q', r' := n / k, n % k;
    assert n == q' * k + r';
    assert (q - q') * k == r' - r;
    if q > q' {
      MulAtLeast(q - q', k);
    } else if q < q' {
      MulAtLeast(q' - q, k);
    }
  }

  lemma MulAtLeast(a: int, k: int)
    requires a >= 1 && k > 0
    ensures a * k >= k
  {
  }

  /** Clock decomposition of a non-negative time within its day. */
  lemma {:induction false} ClockOfNonNegative(t: SimpleTime, d: int, h: int, m: int, s: int)
    requires d >= 0 && 0 <= h < 24 && 0 <= m < 60 && 0 <= s < 60
    requires t.seconds == d * SecondsPerDay + h * SecondsPerHour + m * SecondsPerMinute + s
    ensures t.GetDay() == d && t.GetHour() == h && t.GetMinute() == m && t.GetSecond() == s
  {
    var n := t.seconds;
    assert n >= 0;
    DivUnique(n, SecondsPerDay, d, h * SecondsPerHour + m * SecondsPerMinute + s);
    DivUnique(n, SecondsPerHour, d * 24 + h, m * SecondsPerMinute + s);
    DivUnique(d * 24 + h, 24, d, h);
    DivUnique(n, SecondsPerMinute, (d * 24 + h) * 60 + m, s);
    DivUnique((d * 24 + h) * 60 + m, 60, d * 24 + h, m);
  }

  lemma {:induction false} DayStartIsMidnight(d: int)
    requires d >= 0
    ensures SimpleTime.OfDays(d).GetDay() == d && SimpleTime.OfDays(d).IsMidnight()
  {
    ClockOfNonNegative(SimpleTime.OfDays(d), d, 0, 0, 0);
  }

  /** A non-negative time decomposes into day, hour, minute and second. */
  lemma {:induction false} ClockDecomposition(t: SimpleTime)
    requires t.seconds >= 0
    ensures 0 <= t.GetHour() < 24 && 0 <= t.GetMinute() < 60 && 0 <= t.GetSecond() < 60
    ensures t.seconds == t.GetDay() * SecondsPerDay + t.GetHour() * SecondsPerHour
                         + t.GetMinute() * SecondsPerMinute + t.GetSecond()
  {
    var n := t.seconds;
    var d := n / SecondsPerDay;
    var rest := n % SecondsPerDay;
    var h := rest / SecondsPerHour;
    var m := (rest % SecondsPerHour) / SecondsPerMinute;
    var s := rest % SecondsPerMinute;
    assert rest == h * SecondsPerHour + m * SecondsPerMinute + s;
    ClockOfNonNegative(t, d, h, m, s);
  }

  /** A time's hour, minute and second are all zero exactly when it is a
      whole number of days, for negative times too. */
  lemma {:induction false} ClockZeroIffWholeDays(t: SimpleTime)
    ensures t.GetSecond() == 0 && t.GetMinute() == 0 && t.GetHour() == 0 <==> t.seconds % SecondsPerDay == 0
  {
    if t.seconds >= 0 {
      ClockDecomposition(t);
    } else {
      var u := SimpleTime(-t.seconds);
      ClockDecomposition(u);
      JavaDivNegate(u.seconds, 60);
      JavaDivNegate(u.seconds, SecondsPerHour);
      JavaDivNegate(JavaDiv(u.seconds, 60), 60);
      JavaDivNegate(JavaDiv(u.seconds, SecondsPerHour), 24);
      assert t.GetSecond() == -u.GetSecond();
      assert t.GetMinute() == -u.GetMinute();
      assert t.GetHour() == -u.GetHour();
      var d := t.seconds / SecondsPerDay;
      if t.seconds % SecondsPerDay == 0 {
        DivUnique(u.seconds, SecondsPerDay, -d, 0);
      }
    }
  }

  /** newTime(h, m, s) on a non-negative time, for a clock time within the
      day, lands on the same day at exactly h:m:s. */
  lemma {:induction false} NewTimeKeepsDay(t: SimpleTime, hours: int, minutes: int, secs: int)
    requires t.seconds >= 0
    requires 0 <= hours < 24 && 0 <= minutes < 60 && 0 <= secs < 60
    ensures t.NewTime(hours, minutes, secs).Success?
    ensures var r := t.NewTime(hours, minutes, secs).value;
      r.GetDay() == t.GetDay() && r.GetHour() == hours && r.GetMinute() == minutes && r.GetSecond() == secs
  {
    var r := t.NewTime(hours, minutes, secs).value;
    var d := t.GetDay();
    GetDayIsFloor(t);
    assert t.StartOfDay().seconds == d * SecondsPerDay;
    ClockOfNonNegative(r, d, hours, minutes, secs);
  }

  /** For a non-negative time, nextDay and previousDay are midnight of the
      neighbouring days, and startOfDay is midnight of its own day. */
  lemma {:induction false} DayNeighbours(t: SimpleTime)
    requires t.seconds >= 0
    ensures t.StartOfDay().GetDay() == t.GetDay() && t.StartOfDay().IsMidnight()
    ensures t.NextDay().GetDay() == t.GetDay() + 1 && t.NextDay().IsMidnight()
    ensures t.PreviousDay().GetDay() == t.GetDay() - 1 && t.PreviousDay().IsMidnight()
  {
    var d := t.GetDay();
    GetDayIsFloor(t);
    assert t.StartOfDay().seconds == d * SecondsPerDay;
    DayStartIsMidnight(d);
    DayStartIsMidnight(d + 1);
    assert t.NextDay() == SimpleTime.OfDays(d + 1);
    assert t.PreviousDay() == SimpleTime((d - 1) * SecondsPerDay);
    DivUnique(t.PreviousDay().seconds, SecondsPerDay, d - 1, 0);
    GetDayIsFloor(t.PreviousDay());
  }

  /** For a negative time the start of day rounds toward zero: one second
      before the start lies in day -1, yet its start of day is second 0. */
  lemma NegativeStartOfDay()
    ensures SimpleTime(-1).GetDay() == -1
    ensures SimpleTime(-1).StartOfDay() == SimpleTime(0)
  {
  }
}
