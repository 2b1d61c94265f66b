/**
 The billing calendar (MonthResetStart, clampMonthDay, ResetDayOn and AddMonths in
 internal/db/clock.go; shouldResetAt and enforceOnce in internal/server/sync.go).
 Instants are Gregorian dates with a second of the day, in one zone without clock changes.
 */
module Calendar {

  import opened Options
  import opened Arithmetic

  datatype Ymd = Date(y: int, m: int, d: int)

  type Date = x: Ymd | IsDate(x) witness Date(1970, 1, 1)

  type Second = s: int | 0 <= s < 86400

  datatype Instant = Instant(date: Date, sec: Second)

  predicate Leap(y: int) { y % 4 == 0 && (y % 100 != 0 || y % 400 == 0) }

  /** time.Date(y, m+1, 0).Day() */
  function DaysIn(y: int, m: int): (n: int)
    ensures 28 <= n <= 31
  {
    if m == 2 then (if Leap(y) then 29 else 28) else if m == 4 || m == 6 || m == 9 || m == 11 then 30 else 31
  }

  predicate IsDate(x: Ymd) { 1 <= x.m <= 12 && 1 <= x.d <= DaysIn(x.y, x.m) }

  /** Months since year 0. */
  function MonthIndex(x: Date): int { 12 * x.y + x.m - 1 }

  predicate DateBefore(a: Date, b: Date) {
    MonthIndex(a) < MonthIndex(b) || (MonthIndex(a) == MonthIndex(b) && a.d < b.d)
  }

  predicate Before(a: Instant, b: Instant) { DateBefore(a.date, b.date) || (a.date == b.date && a.sec < b.sec) }

  function Midnight(x: Date): Instant { Instant(x, 0) }

  /** Midnight on a day of a month, or on its last day when the month is shorter. */
  function ClampMonthDay(y: int, m: int, day: int): Instant
    requires 1 <= m <= 12 && day >= 1
  {
    Midnight(Date(y, m, if day > DaysIn(y, m) then DaysIn(y, m) else day))
  }

  /** The first of the month n months on. */
  function ShiftMonth(x: Date, n: int): (r: Date)
    ensures r.d == 1 && MonthIndex(r) == MonthIndex(x) + n
  {
    var i := MonthIndex(x) + n;
    Date(i / 12, i % 12 + 1, 1)
  }

  function MonthResetStart(now: Instant, day: int): Option<Instant> {
    if day < 1 || day > 31 then None
    else
      var start := ClampMonthDay(now.date.y, now.date.m, day);
      if Before(now, start) then
        var prev := ShiftMonth(now.date, -1);
        Some(ClampMonthDay(prev.y, prev.m, day))
      else Some(start)
  }

  /** When the cycle after the one that began at start begins. */
  function NextStart(start: Instant, day: int): Instant
    requires day >= 1
  {
    var next := ShiftMonth(start.date, 1);
    ClampMonthDay(next.y, next.m, day)
  }

  function ResetDayOn(now: Instant, day: int): int {
    if day < 1 || day > 31 then 0 else ClampMonthDay(now.date.y, now.date.m, day).date.d
  }

  lemma SameMonth(a: Date, b: Date)
    requires MonthIndex(a) == MonthIndex(b)
    ensures a.y == b.y && a.m == b.m
  {
  }

  /** Now always lies in the cycle: not before its start, and before the next one. */
  lemma CycleCoversNow(now: Instant, day: int)
    requires 1 <= day <= 31
    ensures var start := MonthResetStart(now, day).value;
      && !Before(now, start) && Before(now, NextStart(start, day))
      && Before(start, NextStart(start, day))
  {
    var start := MonthResetStart(now, day).value;
    var next := ShiftMonth(start.date, 1);
    if MonthIndex(next) == MonthIndex(now.date) { SameMonth(next, now.date); }
  }

  /** The cycle starts today exactly on the day shouldResetAt tests for. */
  lemma StartsTodayIff(now: Instant, day: int)
    requires 1 <= day <= 31
    ensures MonthResetStart(now, day).value == Midnight(now.date) <==> now.date.d == ResetDayOn(now, day)
  {
  }

  /** Starts of the cycle move forward with time. */
  lemma StartIsMonotone(a: Instant, b: Instant, day: int)
    requires 1 <= day <= 31 && !Before(b, a)
    ensures !Before(MonthResetStart(b, day).value, MonthResetStart(a, day).value)
  {
    if MonthIndex(a.date) == MonthIndex(b.date) { SameMonth(a.date, b.date); }
    var p := ShiftMonth(b.date, -1);
    if MonthIndex(a.date) == MonthIndex(p) { SameMonth(a.date, p); }
  }

  /** AddMonths. */
  function AddMonths(t: Instant, n: int): Instant {
    var anchor := ShiftMonth(t.date, n);
    ClampMonthDay(anchor.y, anchor.m, t.date.d).(sec := t.sec)
  }

  /** The month moves by exactly n and the clock stays, and going back n months returns to t
      exactly when t's day exists in the month gone to. */
  lemma AddMonthsAndBack(t: Instant, n: int)
    ensures var u := AddMonths(t, n);
      && MonthIndex(u.date) == MonthIndex(t.date) + n && u.sec == t.sec
      && (AddMonths(u, -n) == t <==> t.date.d <= DaysIn(u.date.y, u.date.m))
  {
    var u := AddMonths(t, n);
    var back := ShiftMonth(u.date, -n);
    SameMonth(back, t.date);
  }

  // ---- Seconds since the epoch ---------------------------------------------------------------

  function YearDays(y: int): int { 365 * y + y / 4 - y / 100 + y / 400 }

  function MonthDays(y: int, m: int): int
    requires 1 <= m <= 12
    decreases m
  {
    if m == 1 then 0 else MonthDays(y, m - 1) + DaysIn(y, m - 1)
  }

  /** Days since a fixed day. */
  function DayNumber(x: Date): int { YearDays(x.y - 1) + MonthDays(x.y, x.m) + x.d }

  function Unix(t: Instant): int { 86400 * DayNumber(t.date) + t.sec }

  function Bit(b: bool): int { if b then 1 else 0 }

  lemma MonthsOfYear(y: int)
    ensures MonthDays(y, 12) + 31 == 365 + Bit(Leap(y))
  {
  }

  /** Each year has as many days as its months. */
  lemma YearLength(y: int)
    ensures YearDays(y) == YearDays(y - 1) + MonthDays(y, 12) + 31
  {
    MonthsOfYear(y);
    Multiples(y, 4);
    Multiples(y, 100);
    Multiples(y, 400);
    Divides(y, 4, 25);
    Divides(y, 100, 4);
  }

  lemma Divides(y: int, k: int, m: int)
    requires k > 0 && m > 0
    ensures k * m > 0 && (y % (k * m) == 0 ==> y % k == 0)
  {
    assert k * m > 0;
    if y % (k * m) == 0 {
      var q := y / (k * m);
      assert y == (k * m) * q == k * (m * q);
      DivMod(y, k, m * q, 0);
    }
  }

  lemma Multiples(y: int, k: int)
    requires k > 1
    ensures y / k == (y - 1) / k + (if y % k == 0 then 1 else 0)
  {
    var q, r := (y - 1) / k, (y - 1) % k;
    assert y - 1 == k * q + r;
    if r == k - 1 {
      assert y == k * (q + 1);
      DivMod(y, k, q + 1, 0);
    } else {
      DivMod(y, k, q, r + 1);
    }
  }

  lemma {:induction false} MonthStartsGrow(y: int, m: int, n: int)
    requires 1 <= m < n <= 12
    ensures MonthDays(y, m) + DaysIn(y, m) <= MonthDays(y, n)
    decreases n
  {
    if m < n - 1 { MonthStartsGrow(y, m, n - 1); }
  }

  lemma {:induction false} YearsGrow(a: int, b: int)
    requires a <= b
    ensures YearDays(a) <= YearDays(b)
    decreases b - a
  {
    if a < b {
      YearsGrow(a, b - 1);
      YearLength(b);
      assert MonthDays(b, 12) > 0;
    }
  }

  lemma WithinYear(x: Date)
    ensures YearDays(x.y - 1) < DayNumber(x) <= YearDays(x.y)
  {
    YearLength(x.y);
    if x.m < 12 { MonthStartsGrow(x.y, x.m, 12); }
    if x.m > 1 { MonthStartsGrow(x.y, 1, x.m); }
  }

  lemma EarlierYear(a: Date, b: Date)
    requires a.y < b.y
    ensures DayNumber(a) < DayNumber(b)
  {
    WithinYear(a);
    WithinYear(b);
    YearsGrow(a.y, b.y - 1);
  }

  lemma EarlierMonth(a: Date, b: Date)
    requires a.y == b.y && a.m < b.m
    ensures DayNumber(a) < DayNumber(b)
  {
    MonthStartsGrow(a.y, a.m, b.m);
  }

  lemma EarlierDayHasSmallerNumber(a: Date, b: Date)
    requires DateBefore(a, b)
    ensures DayNumber(a) < DayNumber(b)
  {
    if a.y < b.y {
      EarlierYear(a, b);
    } else if a.m < b.m {
      EarlierMonth(a, b);
    }
  }

  /** The order of dates is the order of seconds. */
  lemma UnixAgrees(a: Instant, b: Instant)
    ensures Before(a, b) <==> Unix(a) < Unix(b)
  {
    if DateBefore(a.date, b.date) {
      EarlierDayHasSmallerNumber(a.date, b.date);
    } else if DateBefore(b.date, a.date) {
      EarlierDayHasSmallerNumber(b.date, a.date);
    } else {
      SameMonth(a.date, b.date);
    }
  }

  // ---- Resets ----------------------------------------------------------------------------------

  datatype Package = Package(resetDay: int, cycleDays: int)

  /** A user's own reset day wins over the package's. */
  datatype Plan = Plan(own: int, pkg: Option<Package>)

  function DayOf(p: Plan): int { if p.own > 0 then p.own else if p.pkg.Some? then p.pkg.value.resetDay else 0 }

  function CycleOf(p: Plan): int { if p.pkg.Some? then p.pkg.value.cycleDays else 0 }

  /** shouldResetAt; None is a cycle that was never started. */
  predicate ShouldReset(p: Plan, start: Option<Instant>, now: Instant) {
    var day, cycle := DayOf(p), CycleOf(p);
    if day > 0 then
      && now.date.d == ResetDayOn(now, day)
      && (start.None? || start.value.date.y != now.date.y || start.value.date.m != now.date.m)
    else cycle > 0 && start.Some? && Unix(now) >= Unix(start.value) + cycle * 86400
  }

  /** A day-based reset falls on the first day of a billing cycle, in a month without one. */
  lemma ResetsAtCycleStart(p: Plan, start: Option<Instant>, now: Instant)
    requires DayOf(p) > 0
    ensures ShouldReset(p, start, now) <==>
      && MonthResetStart(now, DayOf(p)) == Some(Midnight(now.date))
      && (start.None? || MonthIndex(start.value.date) != MonthIndex(now.date))
  {
    if DayOf(p) <= 31 { StartsTodayIff(now, DayOf(p)); }
    if start.Some? && MonthIndex(start.value.date) == MonthIndex(now.date) { SameMonth(start.value.date, now.date); }
  }

  /** One enforcement tick for one user: the time it decides with, the plan at that time,
      whether the write succeeds, and the time the write stamps. */
  datatype Tick = Tick(now: Instant, plan: Plan, ok: bool, stamp: Instant)

  /** The stored start of the cycle, and the ticks that reset the user. */
  datatype Account = Account(start: Option<Instant>, resets: seq<Tick>)

  function Enforced(a: Account, t: Tick): Account {
    if ShouldReset(t.plan, a.start, t.now) && t.ok then Account(Some(t.stamp), a.resets + [t]) else a
  }

  function Run(first: Option<Instant>, ticks: seq<Tick>): Account {
    if ticks == [] then Account(first, []) else Enforced(Run(first, ticks[..|ticks| - 1]), ticks[|ticks| - 1])
  }

  predicate InOrder(t: Tick, u: Tick) { !Before(u.now, t.stamp) }

  /** Time does not run backwards: a tick is stamped no earlier than it decides, and the next
      comes no earlier than that. */
  predicate Timed(ticks: seq<Tick>) {
    && (forall k | 0 <= k < |ticks| :: !Before(ticks[k].stamp, ticks[k].now))
    && (forall j, k | 0 <= j < k < |ticks| :: InOrder(ticks[j], ticks[k]))
  }

  /** What a reset tells about an earlier one. */
  predicate Apart(t: Tick, u: Tick) {
    if DayOf(u.plan) > 0 then MonthIndex(t.now.date) != MonthIndex(u.now.date)
    else Unix(u.now) >= Unix(t.stamp) + CycleOf(u.plan) * 86400
  }

  function Last(a: Account): Tick
    requires a.resets != []
  {
    a.resets[|a.resets| - 1]
  }

  ghost predicate Kept(first: Option<Instant>, a: Account, ticks: seq<Tick>) {
    && (forall t | t in a.resets :: t in ticks)
    && Timed(a.resets)
    && a.start == (if a.resets == [] then first else Some(Last(a).stamp))
    && (forall i, j | 0 <= i < j < |a.resets| :: Apart(a.resets[i], a.resets[j]))
  }

  lemma Sandwiched(t: Tick, last: Tick, u: Tick)
    requires t == last || InOrder(t, last)
    requires !Before(t.stamp, t.now) && !Before(last.stamp, last.now) && InOrder(last, u)
    requires if DayOf(u.plan) > 0 then MonthIndex(last.stamp.date) != MonthIndex(u.now.date)
             else Unix(u.now) >= Unix(last.stamp) + CycleOf(u.plan) * 86400
    ensures Apart(t, u)
  {
    if DayOf(u.plan) <= 0 {
      UnixAgrees(last.now, t.stamp);
      UnixAgrees(last.stamp, last.now);
    }
  }

  lemma ResetsBefore(first: Option<Instant>, a: Account, ticks: seq<Tick>, u: Tick)
    requires Kept(first, a, ticks) && Timed(ticks + [u])
    ensures forall t | t in a.resets :: InOrder(t, u)
    ensures !Before(u.stamp, u.now)
  {
    assert (ticks + [u])[|ticks|] == u;
    forall t | t in a.resets
      ensures InOrder(t, u)
    {
      var k :| 0 <= k < |ticks| && ticks[k] == t;
      assert (ticks + [u])[k] == t;
    }
  }

  lemma ResetKeeps(first: Option<Instant>, a: Account, ticks: seq<Tick>, u: Tick)
    requires Kept(first, a, ticks) && Timed(ticks + [u])
    ensures Kept(first, Enforced(a, u), ticks + [u])
  {
    ResetsBefore(first, a, ticks, u);
    if ShouldReset(u.plan, a.start, u.now) {
      forall i | 0 <= i < |a.resets|
        ensures Apart(a.resets[i], u)
      {
        var s, now := Last(a).stamp.date, u.now.date;
        if DayOf(u.plan) > 0 && MonthIndex(s) == MonthIndex(now) { SameMonth(s, now); }
        Sandwiched(a.resets[i], Last(a), u);
      }
    }
  }

  lemma {:induction false} RunKeeps(first: Option<Instant>, ticks: seq<Tick>)
    requires Timed(ticks)
    ensures Kept(first, Run(first, ticks), ticks)
  {
    if ticks != [] {
      var n := |ticks| - 1;
      assert ticks == ticks[..n] + [ticks[n]];
      RunKeeps(first, ticks[..n]);
      ResetKeeps(first, Run(first, ticks[..n]), ticks[..n], ticks[n]);
    }
  }

  /** Over any run of ticks, with plans changing in between: a user reset by day has not been
      reset in that calendar month before, and a user reset by cycle was last reset at least
      the cycle's days ago. */
  lemma ResetsAreApart(first: Option<Instant>, ticks: seq<Tick>, i: nat, j: nat)
    requires Timed(ticks) && i < j < |Run(first, ticks).resets|
    ensures var t, u := Run(first, ticks).resets[i], Run(first, ticks).resets[j];
      && (DayOf(u.plan) > 0 ==> MonthIndex(t.now.date) != MonthIndex(u.now.date))
      && (DayOf(u.plan) <= 0 ==> Unix(u.now) >= Unix(t.stamp) + CycleOf(u.plan) * 86400)
  {
    RunKeeps(first, ticks);
    assert Apart(Run(first, ticks).resets[i], Run(first, ticks).resets[j]);
  }

  predicate InMonthOf(t: Instant, u: Tick) { MonthIndex(t.date) == MonthIndex(u.now.date) }

  ghost predicate HasReset(a: Account, u: Tick) { exists i | 0 <= i < |a.resets| :: InMonthOf(a.resets[i].now, u) }

  /** The cycle already counts as begun in u's month, though no reset was decided there: it was
      started by hand, or the last reset was decided before the month and written in it. */
  predicate Missed(first: Option<Instant>, a: Account, u: Tick) {
    if a.resets == [] then first.Some? && InMonthOf(first.value, u)
    else InMonthOf(Last(a).stamp, u) && !InMonthOf(Last(a).now, u)
  }

  lemma MonthsBetween(t: Tick, last: Tick, u: Tick)
    requires t == last || InOrder(t, last)
    requires !Before(t.stamp, t.now) && !Before(last.stamp, last.now) && InOrder(last, u) && InMonthOf(t.now, u)
    ensures InMonthOf(last.now, u) && InMonthOf(last.stamp, u)
  {
  }

  lemma SomeThenLast(a: Account, u: Tick, i: nat)
    requires Timed(a.resets) && i < |a.resets| && InOrder(Last(a), u) && InMonthOf(a.resets[i].now, u)
    ensures InMonthOf(Last(a).now, u) && InMonthOf(Last(a).stamp, u)
  {
    MonthsBetween(a.resets[i], Last(a), u);
  }

  /** Any reset decided in u's month leaves the last one decided there too. */
  lemma LastResetTells(first: Option<Instant>, a: Account, ticks: seq<Tick>, u: Tick)
    requires Kept(first, a, ticks) && Timed(ticks + [u])
    ensures HasReset(a, u) <==> a.resets != [] && InMonthOf(Last(a).now, u)
    ensures HasReset(a, u) ==> InMonthOf(Last(a).stamp, u)
  {
    if a.resets != [] {
      ResetsBefore(first, a, ticks, u);
      assert Last(a) in a.resets;
      if HasReset(a, u) {
        var i :| 0 <= i < |a.resets| && InMonthOf(a.resets[i].now, u);
        SomeThenLast(a, u, i);
      } else {
        assert a.resets[|a.resets| - 1] == Last(a);
      }
    }
  }

  lemma TimedPrefix(ticks: seq<Tick>, u: Tick)
    requires Timed(ticks + [u])
    ensures Timed(ticks)
  {
    assert forall k | 0 <= k < |ticks| :: (ticks + [u])[k] == ticks[k];
  }

  lemma TickDecides(first: Option<Instant>, a: Account, ticks: seq<Tick>, u: Tick)
    requires Kept(first, a, ticks) && Timed(ticks + [u])
    requires u.ok && DayOf(u.plan) > 0 && u.now.date.d == ResetDayOn(u.now, DayOf(u.plan))
    ensures HasReset(Enforced(a, u), u) <==> !Missed(first, a, u)
  {
    LastResetTells(first, a, ticks, u);
    if a.start.Some? && InMonthOf(a.start.value, u) {
      SameMonth(a.start.value.date, u.now.date);
      assert Enforced(a, u) == a;
    } else {
      assert Enforced(a, u).resets[|a.resets|] == u;
    }
  }

  /** A tick whose write succeeds on the reset day leaves its month with a reset exactly when
      the month is not missed in one of those two ways. */
  lemma MonthHasResetIff(first: Option<Instant>, ticks: seq<Tick>, u: Tick)
    requires Timed(ticks + [u])
    requires u.ok && DayOf(u.plan) > 0 && u.now.date.d == ResetDayOn(u.now, DayOf(u.plan))
    ensures HasReset(Run(first, ticks + [u]), u) <==> !Missed(first, Run(first, ticks), u)
  {
    TimedPrefix(ticks, u);
    RunKeeps(first, ticks);
    TickDecides(first, Run(first, ticks), ticks, u);
    assert (ticks + [u])[..|ticks|] == ticks;
  }

  /** A cycle started by hand earlier in the month, as for a new user or a package just bought,
      leaves that month without a reset. */
  lemma EarlyStartSkipsMonth()
    ensures var first := Some(Instant(Date(2023, 2, 10), 0));
      var day := Instant(Date(2023, 2, 28), 0);
      Run(first, [Tick(day, Plan(31, None), true, day)]).resets == []
  {
    var first, day := Some(Instant(Date(2023, 2, 10), 0)), Instant(Date(2023, 2, 28), 0);
    var u := Tick(day, Plan(31, None), true, day);
    assert [u][..0] == [] && !ShouldReset(u.plan, first, day);
  }

  /** A write stamped after midnight on the last day of a month counts for the next month,
      which then has no reset. */
  lemma LateStampSkipsMonth()
    ensures var plan := Plan(31, None);
      var late := Tick(Instant(Date(2023, 1, 31), 86399), plan, true, Instant(Date(2023, 2, 1), 0));
      var february := Tick(Instant(Date(2023, 2, 28), 0), plan, true, Instant(Date(2023, 2, 28), 0));
      && Timed([late, february])
      && MonthResetStart(february.now, 31) == Some(Midnight(february.now.date))
      && Run(None, [late, february]).resets == [late]
  {
    var plan := Plan(31, None);
    var late := Tick(Instant(Date(2023, 1, 31), 86399), plan, true, Instant(Date(2023, 2, 1), 0));
    var february := Tick(Instant(Date(2023, 2, 28), 0), plan, true, Instant(Date(2023, 2, 28), 0));
    assert [late, february][..1] == [late] && [late][..0] == [];
    assert ShouldReset(plan, None, late.now) && !ShouldReset(plan, Some(late.stamp), february.now);
    assert Run(None, [late]) == Account(Some(late.stamp), [] + [late]);
  }

  // ---- The enforcement loop --------------------------------------------------------------------

  class User {
    const admin: bool
    const plan: Plan
    var start: Option<Instant>
    var up: nat
    var down: nat

    constructor (admin: bool, plan: Plan)
      ensures this.admin == admin && this.plan == plan && start == None && up == 0 && down == 0
    {
      this.admin, this.plan, start, up, down := admin, plan, None, 0, 0;
    }

    predicate Is(start0: Option<Instant>, up0: nat, down0: nat)
      reads this
    {
      start == start0 && up == up0 && down == down0
    }
  }

  predicate Due(u: User, now: Instant)
    reads u
  {
    !u.admin && ShouldReset(u.plan, u.start, now)
  }

  /** The resets of enforceOnce: failing writes leave the row as it was. */
  method EnforceOnce(users: seq<User>, now: Instant, stamp: Instant, fails: set<User>)
    requires forall i, j | 0 <= i < j < |users| :: users[i] != users[j]
    modifies set u | u in users
    ensures forall u | u in users :: old(Due(u, now)) && u !in fails ==> u.Is(Some(stamp), 0, 0)
    ensures forall u | u in users :: !old(Due(u, now)) || u in fails ==> u.Is(old(u.start), old(u.up), old(u.down))
  {
    for i := 0 to |users|
      invariant forall k | 0 <= k < i :: old(Due(users[k], now)) && users[k] !in fails ==>
        users[k].Is(Some(stamp), 0, 0)
      invariant forall k | 0 <= k < i :: !old(Due(users[k], now)) || users[k] in fails ==>
        users[k].Is(old(users[k].start), old(users[k].up), old(users[k].down))
      invariant forall k | i <= k < |users| :: users[k].Is(old(users[k].start), old(users[k].up), old(users[k].down))
    {
      var u := users[i];
      if u.admin { continue; }
      if ShouldReset(u.plan, u.start, now) && u !in fails {
        u.up, u.down, u.start := 0, 0, Some(stamp);
      }
    }
  }
}
