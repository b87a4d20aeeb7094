// The projection of upcoming charges and the running balance
// (app/services/subscriptions.py, `cashflow_projection`).
module Cashflow {
  import opened Calendar
  import opened Recurrence
  import opened Database

  datatype Event = Event(date: Date, sub: nat, amount: int, kind: CategoryKind, category: nat)

  datatype Line = Line(event: Event, balanceAfter: int)

  datatype Projection = Projection(starting: int, burden: int, timeline: seq<Line>)

  const CURSOR_LIMIT: nat := 1000

  predicate ActiveSub(db: Db, s: nat) { s in db.subs && db.subs[s].active }

  predicate Known(db: Db, order: seq<nat>) { forall k | 0 <= k < |order| :: order[k] in db.subs }

  // The rows come back in no particular order.
  ghost predicate ListsActive(db: Db, order: seq<nat>) {
    && Known(db, order)
    && (forall s :: ActiveSub(db, s) <==> s in order)
    && (forall i, j | 0 <= i < j < |order| :: order[i] != order[j])
  }

  function KindOf(db: Db, row: Subscription): CategoryKind {
    if row.category in db.categories then db.categories[row.category].kind else Expense
  }

  function Interval(row: Subscription): int { Max(row.interval, 1) }

  // ---- The cursors of one subscription ----

  function Cursor(row: Subscription, n: nat): Date { Charge(row.nextCharge, Interval(row), row.dayOfMonth, n) }

  function EventAt(db: Db, s: nat, d: Date): Event
    requires s in db.subs
  {
    Event(d, s, db.subs[s].amount, KindOf(db, db.subs[s]), db.subs[s].category)
  }

  // The events of the first n cursors.
  function Listed(db: Db, s: nat, today: Date, end: Date, n: nat): seq<Event>
    requires s in db.subs
  {
    if n == 0 then []
    else
      var d := Cursor(db.subs[s], n - 1);
      Listed(db, s, today, end, n - 1) + (if Within(today, d, end) then [EventAt(db, s, d)] else [])
  }

  predicate Charged(row: Subscription, d: Date, n: nat) { exists k | 0 <= k < n :: Cursor(row, k) == d }

  lemma CursorsAscend(row: Subscription, m: nat, n: nat)
    ensures m < n ==> Before(Cursor(row, m), Cursor(row, n))
  {
    ChargesAscend(row.nextCharge, Interval(row), row.dayOfMonth, m, n);
  }

  lemma NotBeforeEarlier(a: Date, b: Date, c: Date)
    requires Before(c, a) && Before(a, b)
    ensures !AtMost(b, c)
  {
  }

  lemma LaterIsPast(end: Date, d: Date)
    requires Before(end, d)
    ensures !AtMost(d, end)
  {
  }

  // Past the horizon nothing more is listed.
  lemma {:induction false} ListedStops(db: Db, s: nat, today: Date, end: Date, k: nat, n: nat)
    requires s in db.subs && k <= n && Before(end, Cursor(db.subs[s], k))
    ensures Listed(db, s, today, end, n) == Listed(db, s, today, end, k)
  {
    hide Cursor, Before, AtMost;
    if k == n {
    } else {
      ListedStops(db, s, today, end, k, n - 1);
      CursorsAscend(db.subs[s], k, n - 1);
      if k < n - 1 {
        NotBeforeEarlier(Cursor(db.subs[s], k), Cursor(db.subs[s], n - 1), end);
      } else {
        LaterIsPast(end, Cursor(db.subs[s], k));
      }
    }
  }

  lemma NotAfterIsAtMost(a: Date, b: Date)
    ensures !Before(b, a) <==> AtMost(a, b)
  {
  }

  method ProjectSub(db: Db, s: nat, today: Date, end: Date) returns (events: seq<Event>)
    requires s in db.subs
    ensures events == Listed(db, s, today, end, CURSOR_LIMIT)
  {
    hide AdvanceDate, Before;
    var row := db.subs[s];
    var interval := Max(row.interval, 1);
    events := [];
    var cursor := row.nextCharge;
    for n := 0 to CURSOR_LIMIT
      invariant cursor == Cursor(row, n) && events == Listed(db, s, today, end, n)
    {
      if Before(end, cursor) {
        ListedStops(db, s, today, end, n, CURSOR_LIMIT);
        return;
      }
      NotAfterIsAtMost(cursor, end);
      NotAfterIsAtMost(today, cursor);
      if !Before(cursor, today) {
        events := events + [Event(cursor, s, row.amount, KindOf(db, row), row.category)];
      }
      cursor := AdvanceDate(cursor, interval, row.dayOfMonth);
    }
  }

  // ---- Sorting by (date, subscription id) ----

  predicate KeyBefore(a: Event, b: Event) { Before(a.date, b.date) || (a.date == b.date && a.sub < b.sub) }

  predicate Ascending(es: seq<Event>) { forall i, j | 0 <= i < j < |es| :: KeyBefore(es[i], es[j]) }

  predicate SameKey(a: Event, b: Event) { a.date == b.date && a.sub == b.sub }

  predicate DistinctKeys(es: seq<Event>) { forall i, j | 0 <= i < j < |es| :: !SameKey(es[i], es[j]) }

  // Behind everything that does not come after it.
  function InsertEvent(es: seq<Event>, e: Event): seq<Event> {
    if |es| == 0 || !KeyBefore(e, es[|es| - 1]) then es + [e]
    else InsertEvent(es[..|es| - 1], e) + [es[|es| - 1]]
  }

  function Sorted(es: seq<Event>): seq<Event> {
    if |es| == 0 then [] else InsertEvent(Sorted(es[..|es| - 1]), es[|es| - 1])
  }

  lemma KeyOrderIsStrict(a: Event, b: Event, c: Event)
    ensures !SameKey(a, b) ==> KeyBefore(a, b) || KeyBefore(b, a)
    ensures KeyBefore(a, b) && KeyBefore(b, c) ==> KeyBefore(a, c)
  {
  }

  lemma AppendAscends(es: seq<Event>, e: Event)
    requires Ascending(es) && (|es| > 0 ==> KeyBefore(es[|es| - 1], e))
    ensures Ascending(es + [e])
  {
    hide KeyBefore;
    forall i | 0 <= i < |es|
      ensures KeyBefore(es[i], e)
    {
      KeyOrderIsStrict(es[i], es[|es| - 1], e);
    }
  }

  lemma OneAscends(e: Event)
    ensures Ascending([e]) && [] + [e] == [e]
  {
  }

  lemma FrontAscends(es: seq<Event>)
    requires Ascending(es) && |es| > 0
    ensures Ascending(es[..|es| - 1])
    ensures forall i | 0 <= i < |es| - 1 :: KeyBefore(es[i], es[|es| - 1])
  {
    hide KeyBefore;
  }

  lemma SameKeyIsSymmetric(a: Event, b: Event)
    ensures SameKey(a, b) <==> SameKey(b, a)
  {
  }

  lemma {:induction false} InsertKeeps(es: seq<Event>, e: Event)
    requires Ascending(es) && forall x | x in es :: !SameKey(x, e)
    ensures Ascending(InsertEvent(es, e)) && multiset(InsertEvent(es, e)) == multiset(es) + multiset{e}
    ensures |InsertEvent(es, e)| == |es| + 1
  {
    hide KeyBefore, SameKey, Ascending;
    if |es| > 0 {
      var front, last := es[..|es| - 1], es[|es| - 1];
      assert es == front + [last];
      assert last in es && !SameKey(last, e);
      SameKeyIsSymmetric(last, e);
      KeyOrderIsStrict(last, e, e);
      if KeyBefore(e, last) {
        FrontAscends(es);
        InsertKeeps(front, e);
        var inserted := InsertEvent(front, e);
        var x := inserted[|inserted| - 1];
        assert x in multiset(inserted) && (x == e || x in front);
        AppendAscends(inserted, last);
      } else {
        AppendAscends(es, e);
      }
    } else {
      OneAscends(e);
    }
  }

  lemma {:induction false} SortedIsAscending(es: seq<Event>)
    requires DistinctKeys(es)
    ensures Ascending(Sorted(es)) && multiset(Sorted(es)) == multiset(es)
  {
    hide KeyBefore, SameKey, InsertEvent;
    if |es| == 0 {
    } else {
      var front, last := es[..|es| - 1], es[|es| - 1];
      assert es == front + [last];
      SortedIsAscending(front);
      forall x | x in Sorted(front)
        ensures !SameKey(x, last)
      {
        assert x in multiset(Sorted(front));
        assert x in front;
      }
      InsertKeeps(Sorted(front), last);
    }
  }

  // ---- All subscriptions ----

  function AllEvents(db: Db, order: seq<nat>, today: Date, end: Date): seq<Event>
    requires Known(db, order)
  {
    if |order| == 0 then []
    else AllEvents(db, order[..|order| - 1], today, end) + Listed(db, order[|order| - 1], today, end, CURSOR_LIMIT)
  }

  lemma {:induction false} ListedExactly(db: Db, s: nat, today: Date, end: Date, n: nat, e: Event)
    requires s in db.subs
    ensures e in Listed(db, s, today, end, n)
            <==> e == EventAt(db, s, e.date) && Within(today, e.date, end) && Charged(db.subs[s], e.date, n)
  {
    hide Cursor, Within;
    if n == 0 {
    } else {
      ListedExactly(db, s, today, end, n - 1, e);
      var d := Cursor(db.subs[s], n - 1);
      assert Charged(db.subs[s], e.date, n) <==> Charged(db.subs[s], e.date, n - 1) || e.date == d;
    }
  }

  lemma ListedOwn(db: Db, s: nat, today: Date, end: Date, n: nat)
    requires s in db.subs
    ensures forall e | e in Listed(db, s, today, end, n) :: e.sub == s && Charged(db.subs[s], e.date, n)
  {
    forall e | e in Listed(db, s, today, end, n)
      ensures e.sub == s && Charged(db.subs[s], e.date, n)
    {
      ListedExactly(db, s, today, end, n, e);
    }
  }

  lemma BeforeIsNotSame(a: Event, b: Event)
    requires Before(a.date, b.date) || a.sub != b.sub
    ensures !SameKey(a, b)
  {
  }

  // One subscription never lists a date twice.
  lemma {:induction false} ListedDistinct(db: Db, s: nat, today: Date, end: Date, n: nat)
    requires s in db.subs
    ensures DistinctKeys(Listed(db, s, today, end, n))
  {
    hide Cursor, Within, SameKey;
    if n == 0 {
    } else {
      ListedDistinct(db, s, today, end, n - 1);
      ListedOwn(db, s, today, end, n - 1);
      var front := Listed(db, s, today, end, n - 1);
      var d := Cursor(db.subs[s], n - 1);
      forall i | 0 <= i < |front|
        ensures !SameKey(front[i], EventAt(db, s, d))
      {
        assert front[i] in front;
        var k :| 0 <= k < n - 1 && Cursor(db.subs[s], k) == front[i].date;
        CursorsAscend(db.subs[s], k, n - 1);
        BeforeIsNotSame(front[i], EventAt(db, s, d));
      }
    }
  }

  lemma DistinctJoin(es: seq<Event>, fs: seq<Event>)
    requires DistinctKeys(es) && DistinctKeys(fs) && forall e, f | e in es && f in fs :: !SameKey(e, f)
    ensures DistinctKeys(es + fs)
  {
    hide SameKey;
  }

  lemma {:induction false} AllEventsExactly(db: Db, order: seq<nat>, today: Date, end: Date, e: Event)
    requires Known(db, order)
    ensures e in AllEvents(db, order, today, end)
            <==> e.sub in order && e.sub in db.subs && e == EventAt(db, e.sub, e.date) && Within(today, e.date, end)
                 && Charged(db.subs[e.sub], e.date, CURSOR_LIMIT)
  {
    hide Within, Charged, Listed;
    if |order| == 0 {
    } else {
      var front, last := order[..|order| - 1], order[|order| - 1];
      assert order == front + [last];
      AllEventsExactly(db, front, today, end, e);
      ListedExactly(db, last, today, end, CURSOR_LIMIT, e);
    }
  }

  lemma {:induction false} AllEventsDistinct(db: Db, order: seq<nat>, today: Date, end: Date)
    requires Known(db, order)
    requires forall i, j | 0 <= i < j < |order| :: order[i] != order[j]
    ensures DistinctKeys(AllEvents(db, order, today, end))
  {
    hide SameKey, Listed;
    if |order| == 0 {
    } else {
      var front, last := order[..|order| - 1], order[|order| - 1];
      AllEventsDistinct(db, front, today, end);
      ListedDistinct(db, last, today, end, CURSOR_LIMIT);
      ListedOwn(db, last, today, end, CURSOR_LIMIT);
      forall e, f | e in AllEvents(db, front, today, end) && f in Listed(db, last, today, end, CURSOR_LIMIT)
        ensures !SameKey(e, f)
      {
        AllEventsExactly(db, front, today, end, e);
        BeforeIsNotSame(e, f);
      }
      DistinctJoin(AllEvents(db, front, today, end), Listed(db, last, today, end, CURSOR_LIMIT));
    }
  }

  // ---- Running balance ----

  function Flow(e: Event): int { if e.kind.Income? then e.amount else -e.amount }

  function FlowSum(es: seq<Event>): int { if |es| == 0 then 0 else FlowSum(es[..|es| - 1]) + Flow(es[|es| - 1]) }

  // Each line carries the start plus the flows up to and including it.
  predicate Carries(timeline: seq<Line>, start: int, es: seq<Event>) {
    && |timeline| == |es|
    && forall k | 0 <= k < |es| :: timeline[k].event == es[k]
        && timeline[k].balanceAfter == start + FlowSum(es[..k + 1])
  }

  method RunBalance(start: int, es: seq<Event>) returns (timeline: seq<Line>)
    ensures Carries(timeline, start, es)
  {
    timeline := [];
    var running := start;
    for k := 0 to |es|
      invariant running == start + FlowSum(es[..k]) && |timeline| == k
      invariant forall j | 0 <= j < k ::
                  timeline[j].event == es[j] && timeline[j].balanceAfter == start + FlowSum(es[..j + 1])
    {
      assert es[..k + 1][..k] == es[..k];
      if es[k].kind.Income? {
        running := running + es[k].amount;
      } else {
        running := running - es[k].amount;
      }
      timeline := timeline + [Line(es[k], running)];
    }
  }

  // ---- Monthly burden ----

  // round(): to the nearest integer, ties to the even one.
  function Round(x: real): int {
    var floor, rest := x.Floor, x - x.Floor as real;
    if rest < 0.5 || (rest == 0.5 && floor % 2 == 0) then floor else floor + 1
  }

  const TWO_52 := 0x10_0000_0000_0000

  function AbsReal(x: real): real { if x < 0.0 then -x else x }

  predicate NearQuotient(x: real, a: int, b: int) {
    AbsReal(x * b as real - a as real) * (2 * TWO_52) as real <= Abs(a) as real
  }

  predicate ExactOnHalf(x: real, a: int, b: int, half: int) {
    2 * a == half * b && Abs(half) <= 2 * TWO_52 ==> x * 2.0 == half as real
  }

  // What the columns hold: amount_cents is a BIGINT, interval_months a SMALLINT
  // of at least 1.
  predicate Stored(a: int, b: int) { -0x8000_0000_0000_0000 <= a < 0x8000_0000_0000_0000 && 1 <= b < 0x8000 }

  predicate StoredRows(db: Db, order: seq<nat>)
    requires Known(db, order)
  {
    forall k | 0 <= k < |order| :: Stored(db.subs[order[k]].amount, Interval(db.subs[order[k]]))
  }

  // Division of stored values as binary64 of IEEE 754 rounds it. Their quotients
  // neither overflow nor underflow, so it is off by at most 2^-53 of the
  // quotient, and exact on halves of integers up to 2^53.
  ghost predicate RoundsToNearest(divide: (int, int) -> real) {
    && (forall a, b | Stored(a, b) :: NearQuotient(divide(a, b), a, b))
    && (forall a, b, half | Stored(a, b) :: ExactOnHalf(divide(a, b), a, b, half))
  }

  // The rounding of the exact quotient.
  function RoundedQuotient(amount: int, interval: int): (r: int)
    requires interval >= 1
    ensures -interval <= 2 * (r * interval - amount) <= interval
  {
    var floor, rest := amount / interval, amount % interval;
    if 2 * rest < interval || (2 * rest == interval && floor % 2 == 0) then floor else floor + 1
  }

  lemma ProductsGrow(x: real, y: real, b: real)
    requires b > 0.0 && x >= y
    ensures x * b >= y * b
  {
  }

  lemma OrderOfProducts(x: real, y: real, b: real)
    requires b > 0.0 && x * b < y * b
    ensures x < y
  {
    if x >= y {
      ProductsGrow(x, y, b);
    }
  }

  lemma ShiftedProduct(f: real, c: real, d: real, y: real)
    requires y == f + c
    ensures y * d == f * d + c * d
  {
  }

  // A product against f * d + c * d orders its factor against f + c.
  lemma FactorOrder(x: real, f: real, c: real, d: real, product: real)
    requires d > 0.0 && product == x * d
    ensures product < f * d + c * d ==> x < f + c
    ensures product > f * d + c * d ==> x > f + c
  {
    var y := f + c;
    ShiftedProduct(f, c, d, y);
    if product < y * d {
      OrderOfProducts(x, y, d);
    } else if product > y * d {
      OrderOfProducts(y, x, d);
    }
  }

  // x is (f * d + rest) / d but for an error of less than a half over d.
  lemma Between(x: real, d: real, f: real, rest: real, product: real)
    requires 1.0 <= rest <= d - 1.0 && product == x * d
    requires -0.5 < product - (f * d + rest) < 0.5
    ensures f < x < f + 1.0
    ensures 2.0 * rest <= d - 1.0 ==> x < f + 0.5
    ensures 2.0 * rest >= d + 1.0 ==> x > f + 0.5
  {
    FactorOrder(x, f, 0.0, d, product);
    FactorOrder(x, f, 0.5, d, product);
    FactorOrder(x, f, 1.0, d, product);
  }

  lemma ErrorIsSmall(e: real, a: int)
    requires Abs(a) < TWO_52 && AbsReal(e) * (2 * TWO_52) as real <= Abs(a) as real
    ensures -0.5 < e < 0.5
  {
  }

  // A quotient that is no tie stays on its side of the tie.
  lemma StaysOnItsSide(x: real, a: int, b: int, floor: int, rest: int)
    requires b >= 1 && Abs(a) < TWO_52 && NearQuotient(x, a, b)
    requires a == floor * b + rest && 0 < rest < b && 2 * rest != b
    ensures floor as real < x < floor as real + 1.0
    ensures 2 * rest < b ==> x < floor as real + 0.5
    ensures 2 * rest > b ==> x > floor as real + 0.5
  {
    var d, f, product := b as real, floor as real, x * b as real;
    assert a as real == f * d + rest as real;
    ErrorIsSmall(product - a as real, a);
    hide *;
    Between(x, d, f, rest as real, product);
  }

  lemma SmallHalves(a: int, b: int, half: int)
    requires b >= 1 && 2 * a == half * b
    ensures Abs(half) <= 2 * Abs(a)
  {
    if half >= 0 {
      assert half * b >= half;
    } else {
      assert half * b <= half;
    }
  }

  // Below 2^52 cents the floating-point quotient rounds like the exact one.
  lemma RoundsLikeExact(divide: (int, int) -> real, a: int, b: int)
    requires Stored(a, b) && Abs(a) < TWO_52 && RoundsToNearest(divide)
    ensures Round(divide(a, b)) == RoundedQuotient(a, b)
  {
    var floor, rest := a / b, a % b;
    assert a == floor * b + rest;
    assert NearQuotient(divide(a, b), a, b);
    if rest == 0 {
      assert 2 * a == (2 * floor) * b;
      assert ExactOnHalf(divide(a, b), a, b, 2 * floor);
      SmallHalves(a, b, 2 * floor);
    } else if 2 * rest == b {
      assert 2 * a == (2 * floor + 1) * b;
      assert ExactOnHalf(divide(a, b), a, b, 2 * floor + 1);
      SmallHalves(a, b, 2 * floor + 1);
    } else {
      StaysOnItsSide(divide(a, b), a, b, floor, rest);
    }
    hide NearQuotient, RoundsToNearest;
  }

  function BurdenOf(db: Db, s: nat, divide: (int, int) -> real): int
    requires s in db.subs
  {
    var row := db.subs[s];
    if KindOf(db, row).Expense? then Round(divide(row.amount, Interval(row))) else 0
  }

  function Burden(db: Db, order: seq<nat>, divide: (int, int) -> real): int
    requires Known(db, order)
  {
    if |order| == 0 then 0
    else Burden(db, order[..|order| - 1], divide) + BurdenOf(db, order[|order| - 1], divide)
  }

  // The same sum without rounding.
  function ExactBurden(db: Db, order: seq<nat>): real
    requires Known(db, order)
  {
    if |order| == 0 then 0.0
    else
      var row := db.subs[order[|order| - 1]];
      ExactBurden(db, order[..|order| - 1])
      + (if KindOf(db, row).Expense? then (row.amount as real) / (Interval(row) as real) else 0.0)
  }

  // Half a cent; a subscription of 2^52 cents or more adds 2^-53 of its share.
  function SlackOf(amount: int, interval: int): real
    requires interval >= 1
  {
    if Abs(amount) < TWO_52 then 0.5
    else 0.5 + Abs(amount) as real / (interval as real * (2 * TWO_52) as real)
  }

  function Slack(db: Db, order: seq<nat>): real
    requires Known(db, order)
  {
    if |order| == 0 then 0.0
    else
      var row := db.subs[order[|order| - 1]];
      Slack(db, order[..|order| - 1])
      + (if KindOf(db, row).Expense? then SlackOf(row.amount, Interval(row)) else 0.0)
  }

  lemma QuotientBound(n: int, d: int)
    requires d >= 1 && -d <= 2 * n <= d
    ensures -0.5 <= (n as real) / (d as real) <= 0.5
  {
    var q := (n as real) / (d as real);
    assert q * (d as real) == n as real;
    assert ((2 * n) as real) <= d as real && -(d as real) <= ((2 * n) as real);
    if q > 0.5 {
      assert q * (d as real) > 0.5 * (d as real);
    }
  }

  lemma RoundingError(amount: int, interval: int)
    requires interval >= 1
    ensures -0.5 <= (RoundedQuotient(amount, interval) as real) - (amount as real) / (interval as real) <= 0.5
  {
    var r, d := RoundedQuotient(amount, interval), interval as real;
    QuotientBound(r * interval - amount, interval);
    assert ((r * interval - amount) as real) == (r as real) * d - (amount as real);
    assert ((r as real) * d - (amount as real)) / d == (r as real) - (amount as real) / d;
  }

  lemma AtMostQuotient(x: real, y: real, d: real)
    requires d > 0.0 && x * d <= y
    ensures x <= y / d
  {
    assert (y / d) * d == y;
    if x > y / d {
      OrderOfProducts(y / d, x, d);
    }
  }

  lemma ScaledAbs(x: real, d: real)
    requires d > 0.0
    ensures AbsReal(x * d) == AbsReal(x) * d
  {
  }

  lemma DivisionError(x: real, a: int, b: int)
    requires b >= 1 && NearQuotient(x, a, b)
    ensures AbsReal(x - a as real / b as real) <= Abs(a) as real / (b as real * (2 * TWO_52) as real)
  {
    var d, scale := b as real, (2 * TWO_52) as real;
    var gap := x - a as real / d;
    assert (a as real / d) * d == a as real;
    assert gap * d == x * d - a as real;
    ScaledAbs(gap, d);
    assert AbsReal(gap) * d * scale <= Abs(a) as real;
    assert AbsReal(gap) * d * scale == AbsReal(gap) * (d * scale);
    hide NearQuotient, AbsReal, Abs;
    AtMostQuotient(AbsReal(gap), Abs(a) as real, d * scale);
  }

  lemma RoundMovesLittle(x: real)
    ensures AbsReal(Round(x) as real - x) <= 0.5
  {
  }

  lemma TermIsClose(divide: (int, int) -> real, a: int, b: int)
    requires Stored(a, b) && RoundsToNearest(divide)
    ensures AbsReal(Round(divide(a, b)) as real - a as real / b as real) <= SlackOf(a, b)
  {
    if Abs(a) < TWO_52 {
      RoundsLikeExact(divide, a, b);
      RoundingError(a, b);
    } else {
      assert NearQuotient(divide(a, b), a, b);
      DivisionError(divide(a, b), a, b);
      RoundMovesLittle(divide(a, b));
    }
    hide NearQuotient, ExactOnHalf, RoundedQuotient, Round;
  }

  // The burden is off by at most half a cent per expense subscription, and by
  // hardly more for those of 2^52 cents and above.
  lemma {:induction false} BurdenIsClose(db: Db, order: seq<nat>, divide: (int, int) -> real)
    requires Known(db, order) && StoredRows(db, order) && RoundsToNearest(divide)
    ensures AbsReal(Burden(db, order, divide) as real - ExactBurden(db, order)) <= Slack(db, order)
  {
    hide Round, SlackOf, RoundsToNearest, Stored;
    if |order| == 0 {
    } else {
      BurdenIsClose(db, order[..|order| - 1], divide);
      var row := db.subs[order[|order| - 1]];
      TermIsClose(divide, row.amount, Interval(row));
    }
  }

  // ---- The projection ----

  function StartingBalance(db: Db): int {
    var primary := PrimaryAccount(db);
    if primary.Some? then db.accounts[primary.value].balance else 0
  }

  lemma OneSubMore(db: Db, order: seq<nat>, k: nat, today: Date, end: Date, divide: (int, int) -> real)
    requires Known(db, order) && k < |order|
    ensures AllEvents(db, order[..k + 1], today, end)
            == AllEvents(db, order[..k], today, end) + Listed(db, order[k], today, end, CURSOR_LIMIT)
    ensures Burden(db, order[..k + 1], divide)
            == Burden(db, order[..k], divide)
               + (if KindOf(db, db.subs[order[k]]).Expense?
                  then Round(divide(db.subs[order[k]].amount, Max(db.subs[order[k]].interval, 1))) else 0)
  {
    hide Listed, Round, KindOf;
    assert order[..k + 1][..k] == order[..k];
  }

  lemma NoSubs(db: Db, order: seq<nat>, today: Date, end: Date, divide: (int, int) -> real)
    ensures AllEvents(db, order[..0], today, end) == [] && Burden(db, order[..0], divide) == 0
  {
  }

  method CashflowProjection(db: Db, order: seq<nat>, horizonDays: int, today: Date, divide: (int, int) -> real)
      returns (r: Projection)
    requires ListsActive(db, order)
    ensures r.starting == StartingBalance(db) && r.burden == Burden(db, order, divide)
    ensures Carries(r.timeline, r.starting, Sorted(AllEvents(db, order, today, AddDays(today, horizonDays))))
  {
    var end := AddDays(today, horizonDays);
    assert Known(db, order);
    hide AllEvents, Burden, BurdenOf, Listed, Carries, ListsActive, ActiveSub, Sorted, Round, StartingBalance, KindOf,
      Interval, Max, AddDays;
    NoSubs(db, order, today, end, divide);
    var events := [];
    var burden := 0;
    for k := 0 to |order|
      invariant events == AllEvents(db, order[..k], today, end) && burden == Burden(db, order[..k], divide)
    {
      OneSubMore(db, order, k, today, end, divide);
      var row := db.subs[order[k]];
      var interval := Max(row.interval, 1);
      if KindOf(db, row).Expense? {
        burden := burden + Round(divide(row.amount, interval));
      }
      var more := ProjectSub(db, order[k], today, end);
      events := events + more;
    }
    assert order[..|order|] == order;
    var timeline := RunBalance(StartingBalance(db), Sorted(events));
    r := Projection(StartingBalance(db), burden, timeline);
  }

  // The timeline holds exactly the charges of active subscriptions between
  // today and the horizon that lie within the first thousand cursors, each
  // once, in the order of date and subscription.
  lemma TimelineIsExact(db: Db, order: seq<nat>, today: Date, end: Date)
    requires ListsActive(db, order)
    ensures var events := Sorted(AllEvents(db, order, today, end));
            && Ascending(events)
            && forall e :: e in events
                 <==> ActiveSub(db, e.sub) && e == EventAt(db, e.sub, e.date) && Within(today, e.date, end)
                      && Charged(db.subs[e.sub], e.date, CURSOR_LIMIT)
  {
    var all := AllEvents(db, order, today, end);
    hide SameKey, KeyBefore, Charged, Within, Sorted, AllEvents;
    AllEventsDistinct(db, order, today, end);
    SortedIsAscending(all);
    forall e
      ensures e in Sorted(all)
        <==> ActiveSub(db, e.sub) && e == EventAt(db, e.sub, e.date) && Within(today, e.date, end)
             && Charged(db.subs[e.sub], e.date, CURSOR_LIMIT)
    {
      assert e in Sorted(all) <==> e in multiset(Sorted(all));
      AllEventsExactly(db, order, today, end, e);
    }
  }

  // With at most a thousand cursors up to the horizon, no charge is missed.
  lemma LimitMissesNothing(row: Subscription, d: Date, end: Date, n: nat)
    requires Before(end, Cursor(row, CURSOR_LIMIT)) && AtMost(d, end)
    ensures Charged(row, d, n) ==> Charged(row, d, CURSOR_LIMIT)
  {
    if Charged(row, d, n) {
      var k :| 0 <= k < n && Cursor(row, k) == d;
      CursorsAscend(row, CURSOR_LIMIT, k);
      hide Cursor;
    }
  }
}
