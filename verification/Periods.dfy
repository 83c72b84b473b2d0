/** The monthly statement and the quarterly volume close: which period a daily tick closes
    (workers/src/statementWorker.ts, workers/src/loyaltyWorker.ts). */
module Periods {
  import opened Prelude
  import opened Calendar

  /** Both days included. */
  datatype Period = Period(first: int, last: int)

  /** Daily ticks act on the first of the month, */
  predicate ClosesMonth(today: int) {
    Date(today) == 1
  }

  /** on the period they work out from the date. */
  function MonthlyPeriod(today: int): Period {
    var end := Utc(Year(today), Month(today), 0);
    Period(Utc(Year(end), Month(end), 1), end)
  }

  predicate ClosesQuarter(today: int) {
    Date(today) == 1 && Month(today) % 3 == 0
  }

  function QuarterPeriod(today: int): Period {
    Period(Utc(Year(today), Month(today) - 3, 1), Utc(Year(today), Month(today), 0))
  }

  function Digits(n: nat): string {
    (if n < 10 then [] else Digits(n / 10)) + [['0', '1', '2', '3', '4', '5', '6', '7', '8', '9'][n % 10]]
  }

  /** A number in a template literal. */
  function Decimal(n: int): string {
    if n < 0 then "-" + Digits(-n) else Digits(n)
  }

  function Label(start: int): string {
    Decimal(Year(start)) + ("-Q" + Decimal(Month(start) / 3 + 1))
  }

  function QuarterLabel(today: int): string {
    Label(QuarterPeriod(today).first)
  }

  // ---------------------------------------------------------------------
  // Months
  // ---------------------------------------------------------------------

  /** All of month number `n`. */
  function MonthPeriod(n: int): Period {
    Period(First(n), First(n + 1) - 1)
  }

  lemma FirstsAreFirsts(n: int)
    ensures MonthOf(First(n)) == n && Date(First(n)) == 1 && MonthOf(First(n) - 1) == n - 1
  {
    hide First;
    MonthLength(n);
    MonthLength(n - 1);
    MonthOfIs(First(n), n);
    MonthOfIs(First(n) - 1, n - 1);
  }

  lemma FirstsOnly(today: int)
    requires ClosesMonth(today)
    ensures today == First(MonthOf(today))
  {
  }

  lemma UtcIs(year: int, month: int, date: int)
    ensures !TwoDigits(year) ==> Utc(year, month, date) == First(12 * year + month) + date - 1
    ensures TwoDigits(year) ==> Utc(year, month, date) == First(12 * year + month + 22800) + date - 1
  {
    hide First, MakeDay;
    MakeDayCarries(year, month, date);
    MakeDayCarries(1900 + year, month, date);
    assert 12 * (1900 + year) == 12 * year + 22800;
  }

  /** The day before the first, whatever the year is taken for. */
  lemma EndOfPeriod(today: int)
    requires ClosesMonth(today)
    ensures var end := Utc(Year(today), Month(today), 0);
      if TwoDigits(Year(today)) then end > today else end == today - 1
  {
    hide First, Year, Month, Utc;
    FirstsOnly(today);
    UtcIs(Year(today), Month(today), 0);
    FirstIncreases(MonthOf(today), MonthOf(today) + 22800);
  }

  lemma StartOfPeriod(end: int)
    ensures var start := Utc(Year(end), Month(end), 1);
      if TwoDigits(Year(end)) then start > end else start == First(MonthOf(end))
  {
    hide First, Year, Month, Utc;
    UtcIs(Year(end), Month(end), 1);
    DayInItsMonth(end);
    FirstIncreases(MonthOf(end) + 1, MonthOf(end) + 22800);
  }

  /** A tick on the first of a month closes exactly the month before, unless today or yesterday is in
      one of the years 0 to 99, and then it never does. */
  lemma MonthlyPeriodIsPreviousMonth(today: int)
    requires ClosesMonth(today)
    ensures MonthlyPeriod(today) == MonthPeriod(MonthOf(today) - 1) <==>
      !TwoDigits(Year(today)) && !TwoDigits(Year(today - 1))
  {
    hide First, Year, Month, Utc, MonthOf, Date;
    EndOfPeriod(today);
    FirstsOnly(today);
    FirstsAreFirsts(MonthOf(today));
    MonthLength(MonthOf(today) - 1);
    var end := Utc(Year(today), Month(today), 0);
    StartOfPeriod(end);
  }

  /** The months from February of year 100 on. */
  predicate Modern(n: int) {
    n > 1200
  }

  lemma ModernMonths(n: int)
    requires Modern(n)
    ensures !TwoDigits(Year(First(n))) && !TwoDigits(Year(First(n) - 1))
    ensures ClosesMonth(First(n)) && MonthlyPeriod(First(n)) == MonthPeriod(n - 1)
  {
    FirstsAreFirsts(n);
    MonthlyPeriodIsPreviousMonth(First(n));
  }

  /** Every day belongs to exactly one monthly period, the one closed on the first of the next month:
      the periods neither gap nor overlap. */
  lemma EachDayInOnePeriod(day: int, today: int)
    requires ClosesMonth(today) && Modern(MonthOf(today))
    ensures var p := MonthlyPeriod(today);
      p.first <= day <= p.last <==> today == First(MonthOf(day) + 1)
  {
    hide First, Year, Month, MonthOf, Date, MonthlyPeriod;
    var n := MonthOf(today);
    FirstsOnly(today);
    ModernMonths(n);
    MonthOfIs(day, n - 1);
    if today == First(MonthOf(day) + 1) {
      FirstsAreFirsts(MonthOf(day) + 1);
    }
  }

  // ---------------------------------------------------------------------
  // Quarters
  // ---------------------------------------------------------------------

  lemma QuarterPeriodIs(today: int)
    requires ClosesQuarter(today)
    ensures QuarterPeriod(today) == Period(First(MonthOf(today) - 3), First(MonthOf(today)) - 1) <==>
      !TwoDigits(Year(today))
  {
    hide First, Year, Month, Utc;
    UtcIs(Year(today), Month(today) - 3, 1);
    EndOfPeriod(today);
    FirstsOnly(today);
  }

  /** A closed quarter is its three monthly periods, one after the other. */
  lemma QuarterIsThreeMonths(today: int)
    requires ClosesQuarter(today) && Modern(MonthOf(today) - 2)
    ensures var n := MonthOf(today);
      var a, b, c := MonthlyPeriod(First(n - 2)), MonthlyPeriod(First(n - 1)), MonthlyPeriod(today);
      && a.last + 1 == b.first && b.last + 1 == c.first
      && QuarterPeriod(today) == Period(a.first, c.last)
  {
    hide First, Year, Month, Utc, Label;
    var n := MonthOf(today);
    FirstsOnly(today);
    ModernMonths(n - 2);
    ModernMonths(n - 1);
    ModernMonths(n);
    QuarterPeriodIs(today);
  }

  lemma {:induction false} DigitsInjective(m: nat, n: nat)
    requires Digits(m) == Digits(n)
    ensures m == n
  {
    var a, b := Digits(m), Digits(n);
    assert a[|a| - 1] == b[|b| - 1] && m % 10 == n % 10;
    assert a[..|a| - 1] == (if m < 10 then [] else Digits(m / 10));
    assert b[..|b| - 1] == (if n < 10 then [] else Digits(n / 10));
    if m >= 10 && n >= 10 {
      DigitsInjective(m / 10, n / 10);
    }
  }

  lemma {:induction false} NoSign(n: nat)
    ensures Digits(n) != [] && Digits(n)[0] != '-'
  {
    if n >= 10 {
      NoSign(n / 10);
    }
  }

  lemma DecimalInjective(m: int, n: int)
    requires Decimal(m) == Decimal(n)
    ensures m == n
  {
    NoSign(if m < 0 then 0 else m);
    NoSign(if n < 0 then 0 else n);
    if m < 0 && n < 0 {
      assert Digits(-m) == Decimal(m)[1..] == Decimal(n)[1..] == Digits(-n);
      DigitsInjective(-m, -n);
    } else if m >= 0 && n >= 0 {
      DigitsInjective(m, n);
    }
  }

  lemma QuarterDigit(start: int)
    ensures |Decimal(Month(start) / 3 + 1)| == 1
  {
    hide Month;
    assert Month(start) / 3 + 1 < 10;
  }

  lemma LabelSplits(a: int, b: int)
    requires Label(a) == Label(b)
    ensures Year(a) == Year(b) && Month(a) / 3 == Month(b) / 3
  {
    hide Month, Year, Decimal;
    QuarterDigit(a);
    QuarterDigit(b);
    var x, y := "-Q" + Decimal(Month(a) / 3 + 1), "-Q" + Decimal(Month(b) / 3 + 1);
    assert |x| == |y| == 3;
    SameTails(Decimal(Year(a)), x, Decimal(Year(b)), y);
    assert x[2..] == y[2..];
    DecimalInjective(Year(a), Year(b));
    DecimalInjective(Month(a) / 3 + 1, Month(b) / 3 + 1);
  }

  lemma SameTails(a: string, x: string, b: string, y: string)
    requires a + x == b + y && |x| == |y|
    ensures a == b && x == y
  {
    assert |a| == |b|;
    assert a == (a + x)[..|a|] == (b + y)[..|b|];
    assert x == (a + x)[|a|..] == (b + y)[|b|..];
  }

  lemma QuarterMonths(year: int, month: int)
    ensures (12 * year + month) % 3 == month % 3 && (12 * year + month - 3) % 3 == month % 3
  {
    assert 12 * year + month == 3 * (4 * year + month / 3) + month % 3;
  }

  lemma QuarterStart(today: int)
    requires ClosesQuarter(today) && !TwoDigits(Year(today))
    ensures var start := QuarterPeriod(today).first;
      MonthOf(start) == MonthOf(today) - 3 && Month(start) % 3 == 0
  {
    hide First, Year, Month, Utc, MonthOf;
    QuarterPeriodIs(today);
    FirstsAreFirsts(MonthOf(today) - 3);
    var start := QuarterPeriod(today).first;
    MonthOfParts(today);
    MonthOfParts(start);
    QuarterMonths(Year(today), Month(today));
    QuarterMonths(Year(start), Month(start));
  }

  lemma MonthOfParts(day: int)
    ensures MonthOf(day) == 12 * Year(day) + Month(day)
  {
  }

  /** No two quarters get the same label. */
  lemma QuarterLabelsAreInjective(a: int, b: int)
    requires ClosesQuarter(a) && ClosesQuarter(b) && !TwoDigits(Year(a)) && !TwoDigits(Year(b))
    requires QuarterLabel(a) == QuarterLabel(b)
    ensures a == b
  {
    hide First, Year, Month, Utc, Label, QuarterPeriod, MonthOf;
    FirstsOnly(a);
    FirstsOnly(b);
    QuarterStart(a);
    QuarterStart(b);
    var x, y := QuarterPeriod(a).first, QuarterPeriod(b).first;
    LabelSplits(x, y);
    SameThird(Month(x), Month(y));
    MonthOfParts(x);
    MonthOfParts(y);
  }

  /** What a string of digits stands for. */
  function ReadNumber(digits: string): int {
    if digits == [] then 0
    else 10 * ReadNumber(digits[..|digits| - 1]) + (digits[|digits| - 1] as int - '0' as int)
  }

  lemma {:induction false} DigitsRead(n: nat)
    ensures ReadNumber(Digits(n)) == n
  {
    var digits := Digits(n);
    assert digits[..|digits| - 1] == (if n < 10 then [] else Digits(n / 10));
    if n >= 10 {
      DigitsRead(n / 10);
    }
  }

  lemma DayWithinMonths(day: int, n: int)
    requires First(n - 3) <= day < First(n)
    ensures n - 3 <= MonthOf(day) < n
  {
    hide First, MonthOf;
    DayInItsMonth(day);
    if MonthOf(day) < n - 3 {
      FirstIncreases(MonthOf(day) + 1, n - 3);
    } else if MonthOf(day) >= n {
      FirstIncreases(n, MonthOf(day));
    }
  }

  lemma SameQuarter(year: int, month: int, y: int, m: int)
    requires 0 <= month <= 11 && 0 <= m <= 11 && month % 3 == 0
    requires 12 * year + month <= 12 * y + m < 12 * year + month + 3
    ensures y == year && m / 3 == month / 3
  {
  }

  lemma QuarterOfDay(today: int, day: int)
    requires ClosesQuarter(today) && !TwoDigits(Year(today))
    requires QuarterPeriod(today).first <= day <= QuarterPeriod(today).last
    ensures Year(day) == Year(QuarterPeriod(today).first)
    ensures Month(day) / 3 == Month(QuarterPeriod(today).first) / 3
  {
    var start := QuarterPeriod(today).first;
    MonthOfParts(day);
    MonthOfParts(start);
    hide First, Year, Month, Utc, MonthOf, Label;
    QuarterPeriodIs(today);
    QuarterStart(today);
    DayWithinMonths(day, MonthOf(today));
    SameQuarter(Year(start), Month(start), Year(day), Month(day));
  }

  lemma QuarterName(start: int)
    ensures Label(start) == Decimal(Year(start)) + "-Q" + [['1', '2', '3', '4'][Month(start) / 3]]
  {
    hide Year, Month;
    var quarter := Month(start) / 3;
    assert Decimal(quarter + 1) == [['1', '2', '3', '4'][quarter]];
    hide Decimal;
    assert Decimal(Year(start)) + "-Q" + Decimal(quarter + 1) == Decimal(Year(start)) + ("-Q" + Decimal(quarter + 1));
  }

  /** The label names the year, in decimal digits, and the quarter of every day of the period that is closed. */
  lemma QuarterLabelNamesItsDays(today: int, day: int)
    requires ClosesQuarter(today) && !TwoDigits(Year(today))
    requires QuarterPeriod(today).first <= day <= QuarterPeriod(today).last
    ensures QuarterLabel(today) == Decimal(Year(day)) + "-Q" + [['1', '2', '3', '4'][Month(day) / 3]]
    ensures Year(day) >= 0 ==> ReadNumber(Decimal(Year(day))) == Year(day)
  {
    QuarterOfDay(today, day);
    QuarterName(QuarterPeriod(today).first);
    hide QuarterPeriod, Year, Month, Label;
    if Year(day) >= 0 {
      DigitsRead(Year(day));
    }
  }

  lemma SameThird(m: int, n: int)
    requires m % 3 == 0 && n % 3 == 0 && m / 3 == n / 3
    ensures m == n
  {
  }

  // ---------------------------------------------------------------------
  // Runs of ticks
  // ---------------------------------------------------------------------

  const MS_PER_DAY := 86_400_000

  /** Day of a time value (section 21.4.1.3 of ECMA-262). */
  function DayOf(time: int): int {
    time / MS_PER_DAY
  }

  predicate AllModern(ticks: seq<int>) {
    forall i :: 0 <= i < |ticks| ==> Modern(MonthOf(DayOf(ticks[i])))
  }

  /** Some tick of the run closed month number `n`. */
  predicate Closes(ticks: seq<int>, n: int) {
    exists i :: 0 <= i < |ticks| && ClosesMonth(DayOf(ticks[i])) && MonthlyPeriod(DayOf(ticks[i])) == MonthPeriod(n)
  }

  predicate TicksOn(ticks: seq<int>, day: int) {
    exists i :: 0 <= i < |ticks| && DayOf(ticks[i]) == day
  }

  /** The periods a run closes are exactly those whose following first day had a tick. So a first day
      without one is never made up for by any later tick. */
  lemma ClosedIffTickedOnTheFirst(ticks: seq<int>, n: int)
    requires AllModern(ticks) && n >= 1200
    ensures Closes(ticks, n) <==> TicksOn(ticks, First(n + 1))
  {
    hide First, Year, Month, MonthOf, ClosesMonth, MonthlyPeriod, MonthPeriod, DayOf;
    if Closes(ticks, n) {
      var i :| 0 <= i < |ticks| && ClosesMonth(DayOf(ticks[i])) && MonthlyPeriod(DayOf(ticks[i])) == MonthPeriod(n);
      OnlyThatFirst(DayOf(ticks[i]), n);
      assert DayOf(ticks[i]) == First(n + 1);
    }
    if TicksOn(ticks, First(n + 1)) {
      var i :| 0 <= i < |ticks| && DayOf(ticks[i]) == First(n + 1);
      ModernMonths(n + 1);
      assert ClosesMonth(DayOf(ticks[i])) && MonthlyPeriod(DayOf(ticks[i])) == MonthPeriod(n);
    }
  }

  lemma OnlyThatFirst(today: int, n: int)
    requires ClosesMonth(today) && Modern(MonthOf(today)) && MonthlyPeriod(today) == MonthPeriod(n)
    ensures today == First(n + 1)
  {
    hide First, Year, Month, MonthOf, Date, MonthlyPeriod;
    FirstsOnly(today);
    ModernMonths(MonthOf(today));
    FirstsAreFirsts(n);
    FirstsAreFirsts(MonthOf(today) - 1);
  }

  /** A timer whose ticks come at most `gap` milliseconds apart. */
  predicate Timer(ticks: seq<int>, gap: int) {
    |ticks| > 0 && forall i {:trigger ticks[i]} :: 0 < i < |ticks| ==> ticks[i - 1] < ticks[i] <= ticks[i - 1] + gap
  }

  ghost predicate NeverMisses(gap: int) {
    forall ticks: seq<int>, n: int ::
      Timer(ticks, gap) && AllModern(ticks) && DayOf(ticks[0]) <= First(n + 1) <= DayOf(ticks[|ticks| - 1]) ==>
        Closes(ticks, n)
  }

  lemma {:induction false} EveryDayTicks(ticks: seq<int>, gap: int, day: int)
    requires Timer(ticks, gap) && gap <= MS_PER_DAY && DayOf(ticks[0]) <= day <= DayOf(ticks[|ticks| - 1])
    ensures TicksOn(ticks, day)
    decreases |ticks|
  {
    var last := |ticks| - 1;
    if DayOf(ticks[last]) > day {
      var front := ticks[..last];
      if last > 0 {
        assert ticks[last - 1] < ticks[last] <= ticks[last - 1] + gap;
        assert Timer(front, gap) by {
          assert forall i :: 0 <= i < |front| ==> front[i] == ticks[i];
        }
        EveryDayTicks(front, gap, day);
        var i :| 0 <= i < |front| && DayOf(front[i]) == day;
        assert DayOf(ticks[i]) == day;
      }
    }
  }

  /** One tick just before a first, the next just after it. */
  function Straddle(n: int, gap: int): seq<int> {
    [First(n) * MS_PER_DAY - 1, First(n) * MS_PER_DAY - 1 + gap]
  }

  lemma StraddleMisses(n: int, gap: int)
    requires MS_PER_DAY < gap <= 2 * MS_PER_DAY && Modern(n - 1)
    ensures var ticks := Straddle(n, gap);
      && Timer(ticks, gap) && AllModern(ticks) && DayOf(ticks[0]) <= First(n) <= DayOf(ticks[1])
      && !Closes(ticks, n - 1)
  {
    hide First, Year, Month, MonthOf, Date, MonthlyPeriod;
    var ticks, first := Straddle(n, gap), First(n);
    assert DayOf(ticks[0]) == first - 1;
    assert first + 1 <= DayOf(ticks[1]) <= first + 2;
    FirstsAreFirsts(n);
    MonthLength(n);
    MonthOfIs(DayOf(ticks[1]), n);
    ClosedIffTickedOnTheFirst(ticks, n - 1);
  }

  /** The daily timer misses no month, however late it starts or jitters, if and only if its ticks are
      never more than 24 hours apart. */
  lemma TimerNeverMissesIff(gap: int)
    requires gap > 0
    ensures NeverMisses(gap) <==> gap <= MS_PER_DAY
  {
    hide First, Year, Month, MonthOf, Date, MonthlyPeriod;
    if gap <= MS_PER_DAY {
      forall ticks: seq<int>, n: int |
        Timer(ticks, gap) && AllModern(ticks) && DayOf(ticks[0]) <= First(n + 1) <= DayOf(ticks[|ticks| - 1])
        ensures Closes(ticks, n)
      {
        EveryDayTicks(ticks, gap, First(n + 1));
        FromYear100(ticks, n);
        ClosedIffTickedOnTheFirst(ticks, n);
      }
    } else {
      var step := if gap <= 2 * MS_PER_DAY then gap else 2 * MS_PER_DAY;
      StraddleMisses(24_000, step);
      var ticks := Straddle(24_000, step);
      assert Timer(ticks, gap);
      assert !Closes(ticks, 23_999);
    }
  }

  lemma FromYear100(ticks: seq<int>, n: int)
    requires |ticks| > 0 && AllModern(ticks) && DayOf(ticks[0]) <= First(n + 1)
    ensures n >= 1200
  {
    hide First, Year, Month, MonthOf;
    DayInItsMonth(DayOf(ticks[0]));
    if n < 1200 {
      FirstIncreases(n + 1, MonthOf(DayOf(ticks[0])));
    }
    FirstsAreFirsts(n + 1);
    MonthOfIs(DayOf(ticks[0]), n + 1);
  }

  // ---------------------------------------------------------------------
  // The closing loops: each supplier in a try/catch, all in one transaction
  // ---------------------------------------------------------------------

  /** A committed call to credit.generate_statement or loyalty.grant_volume_reward. */
  datatype Closing =
    | Statement(supplier: nat, period: Period)
    | VolumeReward(supplier: nat, quarter: string, purchases: int)

  function Statements(suppliers: seq<nat>, period: Period): (r: seq<Closing>)
    ensures |r| == |suppliers| && forall i :: 0 <= i < |r| ==> r[i] == Statement(suppliers[i], period)
  {
    seq(|suppliers|, i requires 0 <= i < |suppliers| => Statement(suppliers[i], period))
  }

  datatype Order = Order(supplier: nat, wholesale: bool, cancelled: bool, placed: int, total: int)

  /** `placed_at::date between $1 and $2`, over the supplier's wholesale orders that are not cancelled. */
  function Purchases(orders: seq<Order>, supplier: nat, period: Period): int {
    if orders == [] then 0
    else
      var o := orders[|orders| - 1];
      var counts := o.supplier == supplier && o.wholesale && !o.cancelled && period.first <= o.placed <= period.last;
      Purchases(orders[..|orders| - 1], supplier, period) + if counts then o.total else 0
  }

  function VolumeRewards(suppliers: seq<nat>, quarter: string, orders: seq<Order>, period: Period): (r: seq<Closing>)
    ensures |r| == |suppliers|
    ensures forall i :: 0 <= i < |r| ==>
      r[i] == VolumeReward(suppliers[i], quarter, Purchases(orders, suppliers[i], period))
  {
    seq(|suppliers|, i requires 0 <= i < |suppliers| =>
      VolumeReward(suppliers[i], quarter, Purchases(orders, suppliers[i], period)))
  }

  lemma {:induction false} PurchasesAdd(orders: seq<Order>, supplier: nat, a: Period, b: Period)
    requires a.last + 1 == b.first && a.first <= b.first <= b.last + 1
    ensures Purchases(orders, supplier, Period(a.first, b.last)) ==
      Purchases(orders, supplier, a) + Purchases(orders, supplier, b)
  {
    if orders == [] {
    } else {
      PurchasesAdd(orders[..|orders| - 1], supplier, a, b);
    }
  }

  /** Which orders count: wherever it stands in the table, an order adds its total if it is a wholesale order of the
      supplier, is not cancelled, and was placed on a day of the period, and nothing otherwise. */
  lemma {:induction false} OrderCountsIff(before: seq<Order>, o: Order, after: seq<Order>, supplier: nat,
                                          period: Period)
    ensures Purchases(before + [o] + after, supplier, period) == Purchases(before + after, supplier, period) +
      if o.supplier == supplier && o.wholesale && !o.cancelled && period.first <= o.placed && o.placed <= period.last
      then o.total else 0
    decreases |after|
  {
    if after == [] {
      assert (before + [o] + after)[..|before|] == before && before + after == before;
    } else {
      var front := after[..|after| - 1];
      assert (before + [o] + after)[..|before| + |after|] == before + [o] + front;
      assert (before + after)[..|before| + |after| - 1] == before + front;
      OrderCountsIff(before, o, front, supplier, period);
    }
  }

  /** A quarter's reward counts every order of its three closed months once, and no other. */
  lemma QuarterPurchasesAreMonthly(today: int, orders: seq<Order>, supplier: nat)
    requires ClosesQuarter(today) && Modern(MonthOf(today) - 2)
    ensures var n := MonthOf(today);
      Purchases(orders, supplier, QuarterPeriod(today)) ==
        Purchases(orders, supplier, MonthlyPeriod(First(n - 2))) +
        Purchases(orders, supplier, MonthlyPeriod(First(n - 1))) + Purchases(orders, supplier, MonthlyPeriod(today))
  {
    hide Purchases, Year, Month, Utc, Label;
    var n := MonthOf(today);
    QuarterIsThreeMonths(today);
    MonthsInOrder(today);
    var a, b, c := MonthlyPeriod(First(n - 2)), MonthlyPeriod(First(n - 1)), MonthlyPeriod(today);
    PurchasesAdd(orders, supplier, a, b);
    PurchasesAdd(orders, supplier, Period(a.first, b.last), c);
  }

  lemma MonthsInOrder(today: int)
    requires ClosesQuarter(today) && Modern(MonthOf(today) - 2)
    ensures var n := MonthOf(today);
      var a, b, c := MonthlyPeriod(First(n - 2)), MonthlyPeriod(First(n - 1)), MonthlyPeriod(today);
      a.first <= b.first <= c.first <= c.last + 1
  {
    hide Year, Month, Utc, Label, Date;
    var n := MonthOf(today);
    FirstsOnly(today);
    ModernMonths(n - 2);
    ModernMonths(n - 1);
    ModernMonths(n);
    FirstIncreases(n - 3, n - 2);
    FirstIncreases(n - 2, n - 1);
    FirstIncreases(n - 1, n);
  }

  predicate AnyRefused(suppliers: seq<nat>, refused: set<nat>) {
    exists i :: 0 <= i < |suppliers| && suppliers[i] in refused
  }

  /** The suppliers in front of the first one the database refuses. */
  function BeforeRefusal(suppliers: seq<nat>, refused: set<nat>): (r: nat)
    ensures r <= |suppliers|
    ensures forall i :: 0 <= i < r ==> suppliers[i] !in refused
    ensures r < |suppliers| ==> suppliers[r] in refused
  {
    if suppliers == [] || suppliers[0] in refused then 0 else 1 + BeforeRefusal(suppliers[1..], refused)
  }

  /** The loop: after the first refusal the transaction is aborted, every later call throws into its
      catch, and the commit rolls back. */
  method CloseEach(suppliers: seq<nat>, calls: seq<Closing>, refused: set<nat>)
    returns (succeeded: nat, committed: seq<Closing>)
    requires |calls| == |suppliers|
    ensures succeeded == BeforeRefusal(suppliers, refused)
    ensures committed == if AnyRefused(suppliers, refused) then [] else calls
  {
    var aborted := false;
    succeeded, committed := 0, [];
    for k := 0 to |suppliers|
      invariant aborted <==> BeforeRefusal(suppliers, refused) < k
      invariant succeeded == if aborted then BeforeRefusal(suppliers, refused) else k
      invariant !aborted ==> committed == calls[..k]
    {
      if aborted || suppliers[k] in refused {
        aborted := true;
      } else {
        succeeded := succeeded + 1;
        committed := committed + [calls[k]];
      }
    }
    if aborted {
      committed := [];
    }
  }

  /** One refused supplier takes the whole month's statements down, and the count does not show it. */
  method GenerateMonthlyStatements(now: int, suppliers: seq<nat>, refused: set<nat>)
    returns (count: nat, committed: seq<Closing>)
    ensures !ClosesMonth(DayOf(now)) ==> count == 0 && committed == []
    ensures ClosesMonth(DayOf(now)) ==>
      && count == |suppliers|
      && committed == if AnyRefused(suppliers, refused) then [] else Statements(suppliers, MonthlyPeriod(DayOf(now)))
  {
    hide Year, Month, Date, Utc, First;
    var today := DayOf(now);
    if Date(today) != 1 {
      return 0, [];
    }
    var periodEnd := Utc(Year(today), Month(today), 0);
    var periodStart := Utc(Year(periodEnd), Month(periodEnd), 1);
    var _, closings := CloseEach(suppliers, Statements(suppliers, Period(periodStart, periodEnd)), refused);
    return |suppliers|, closings;
  }

  /** Here the count stops at the first refusal, though nothing is committed then either. */
  method RunVolumeClose(now: int, suppliers: seq<nat>, orders: seq<Order>, refused: set<nat>)
    returns (count: nat, committed: seq<Closing>)
    ensures !ClosesQuarter(DayOf(now)) ==> count == 0 && committed == []
    ensures ClosesQuarter(DayOf(now)) ==>
      && count == BeforeRefusal(suppliers, refused)
      && committed == if AnyRefused(suppliers, refused) then []
                      else VolumeRewards(suppliers, QuarterLabel(DayOf(now)), orders, QuarterPeriod(DayOf(now)))
  {
    hide Year, Month, Date, Utc, Label, First;
    var today := DayOf(now);
    var month := Month(today);
    if Date(today) != 1 || month % 3 != 0 {
      return 0, [];
    }
    var quarterStart := Utc(Year(today), month - 3, 1);
    var quarterEnd := Utc(Year(today), month, 0);
    var calls := VolumeRewards(suppliers, Label(quarterStart), orders, Period(quarterStart, quarterEnd));
    count, committed := CloseEach(suppliers, calls, refused);
  }
}
