/** Runs of the bootstrap quota that reach its bounds, and runs that show why the bounds
    need their conditions.
  */
module BootstrapExamples {
  import opened Schema
  import opened Finite
  import opened Bootstrap

  // ------------------------------------------------------------------
  // Runs in batches, of one source
  // ------------------------------------------------------------------

  /** Three runs: consumptions in order; consumptions a millisecond behind; and consumptions in
      order with a prune whose clock is a millisecond too far ahead. */
  datatype Script = InOrder | Behind | Pruned

  function Created(s: Script, i: nat): Instant {
    match s
    case InOrder => if i < 10 then 0 else if i < 19 then MINUTE_MS else 2 * MINUTE_MS
    case Behind =>
      if i < 10 then 2 - MINUTE_MS else if i < 19 then 2
      else if i < 29 then DAY_MS + 1 - 2 * MINUTE_MS else if i < 39 then DAY_MS + 1 - MINUTE_MS else DAY_MS + 1
    case Pruned =>
      if i < 10 then 2 - MINUTE_MS else if i < 19 then MINUTE_MS else if i < 29 then 2 * MINUTE_MS else DAY_MS
  }

  function Used(s: Script, i: nat): Instant {
    match s
    case InOrder => Created(s, i)
    case Behind => if i < 19 then 1 else if i < 29 then DAY_MS - MINUTE_MS else DAY_MS
    case Pruned => if i < 10 then 1 else Created(s, i)
  }

  /** How many challenges had been issued when challenge `i` was consumed. */
  function Before(s: Script, i: nat): nat {
    match s
    case InOrder => if i < 10 then 10 else if i < 19 then 19 else 29
    case Behind => if i < 19 then 19 else if i < 29 then 39 else 49
    case Pruned => if i < 10 then 10 else if i < 19 then 19 else if i < 29 then 29 else 39
  }

  const PRUNE_CLOCK: Instant := DAY_MS + DAILY_LEAD_MS + 1

  /** After `n` issues and `m` consumptions, with the rows below `from` pruned. */
  ghost function Table(s: Script, n: nat, m: nat, from: nat): Quota {
    Quota(
      seq(n, i requires 0 <= i < n =>
        Row("s", Created(s, i), if i < m then Some(Consumption(Used(s, i), Before(s, i))) else None)),
      Interval(from, n), if from == 0 then None else Some(PRUNE_CLOCK))
  }

  ghost predicate Reaches(states: seq<Quota>, events: seq<Event>, lead: int, q: Quota) {
    IsRun(states, events, lead) && states[|events|] == q
  }

  lemma Extend(states: seq<Quota>, events: seq<Event>, lead: int, q: Quota, e: Event)
    returns (states': seq<Quota>, events': seq<Event>)
    requires Reaches(states, events, lead, q) && (e.Issue? ==> Punctual(q, e.now, lead))
    ensures Reaches(states', events', lead, Next(q, e))
  {
    hide Next, Punctual;
    states', events' := states + [Next(q, e)], events + [e];
    forall i | 0 <= i < |events'|
      ensures states'[i + 1] == Next(states'[i], events'[i])
      ensures (events'[i].Issue? ==> Punctual(states'[i], events'[i].now, lead))
    {
      if i < |events| {
        assert states'[i] == states[i] && states'[i + 1] == states[i + 1] && events'[i] == events[i];
      }
    }
  }

  lemma Begin(s: Script, lead: int) returns (states: seq<Quota>, events: seq<Event>)
    ensures Reaches(states, events, lead, Table(s, 0, 0, 0))
  {
    states, events := [Quota([], {}, None)], [];
    assert Interval(0, 0) == {};
  }

  /** Up to ten issues at `now`, the rows from `first` on: no earlier row is within the minute,
      and fewer than 20 enrollments, those from `lo` on, are within the day. */
  lemma {:induction false} IssueBatch(states: seq<Quota>, events: seq<Event>, lead: int, s: Script, n: nat, n': nat,
      m: nat, from: nat, now: Instant, lo: nat, first: nat)
    returns (states': seq<Quota>, events': seq<Event>)
    requires Reaches(states, events, lead, Table(s, n, m, from))
    requires lo <= m <= first <= n <= n' <= first + 10 && m - lo < 20 && from <= n
    requires forall j | n <= j < n' :: Created(s, j) == now
    requires forall i | from <= i < first :: Created(s, i) <= now - MINUTE_MS
    requires forall i | from <= i < m && Used(s, i) > now - DAY_MS :: lo <= i
    requires from == 0 || PRUNE_CLOCK <= now + lead
    ensures Reaches(states', events', lead, Table(s, n', m, from))
    decreases n' - n
  {
    hide Reaches, Create, Created, Used, Table;
    states', events' := states, events;
    if n < n' {
      TableIssues(s, n, m, from, now, lo, first, lead);
      states', events' := Extend(states, events, lead, Table(s, n, m, from), Issue("s", now));
      states', events' := IssueBatch(states', events', lead, s, n + 1, n', m, from, now, lo, first);
    }
  }

  lemma TableIssues(s: Script, n: nat, m: nat, from: nat, now: Instant, lo: nat, first: nat, lead: int)
    requires lo <= m <= first <= n < first + 10 && m - lo < 20 && from <= n && Created(s, n) == now
    requires forall i | from <= i < first :: Created(s, i) <= now - MINUTE_MS
    requires forall i | from <= i < m && Used(s, i) > now - DAY_MS :: lo <= i
    requires from == 0 || PRUNE_CLOCK <= now + lead
    ensures Punctual(Table(s, n, m, from), now, lead)
    ensures Create(Table(s, n, m, from), "s", now).0 == Table(s, n + 1, m, from)
  {
    hide Created, Used, Before;
    TableCounts(s, n, m, from, now, lo, first);
    hide LocalCount, GlobalCount, DailyCount;
    assert Table(s, n, m, from).rows + [Row("s", now, None)] == Table(s, n + 1, m, from).rows;
    assert Interval(from, n) + {n} == Interval(from, n + 1);
  }

  lemma TableCounts(s: Script, n: nat, m: nat, from: nat, now: Instant, lo: nat, first: nat)
    requires lo <= m <= first <= n < first + 10 && m - lo < 20
    requires forall i | from <= i < first :: Created(s, i) <= now - MINUTE_MS
    requires forall i | from <= i < m && Used(s, i) > now - DAY_MS :: lo <= i
    ensures LocalCount(Table(s, n, m, from), "s", now) < LOCAL_LIMIT
    ensures GlobalCount(Table(s, n, m, from), now) < GLOBAL_LIMIT
    ensures DailyCount(Table(s, n, m, from), "s", now) < DAILY_LIMIT
  {
    hide Created, Used, Before;
    var q := Table(s, n, m, from);
    IntervalSize(first, n);
    IntervalSize(lo, m);
    SubsetSize((set i | i in q.kept && i < |q.rows| && RecentFrom(q.rows[i], "s", now)), Interval(first, n));
    SubsetSize((set i | i in q.kept && i < |q.rows| && Recent(q.rows[i], now)), Interval(first, n));
    SubsetSize((set i | i in q.kept && i < |q.rows| && Enrolled(q.rows[i], "s", now)), Interval(lo, m));
  }

  lemma {:induction false} UseBatch(states: seq<Quota>, events: seq<Event>, lead: int, s: Script, n: nat, m: nat,
      m': nat, from: nat)
    returns (states': seq<Quota>, events': seq<Event>)
    requires Reaches(states, events, lead, Table(s, n, m, from)) && from <= m <= m' <= n
    requires forall i | m <= i < m' :: Before(s, i) == n && Used(s, i) < Created(s, i) + MINUTE_MS
    ensures Reaches(states', events', lead, Table(s, n, m', from))
    decreases m' - m
  {
    hide Reaches, Consume, Created, Used, Before, Table;
    states', events' := states, events;
    if m < m' {
      TableUses(s, n, m, from);
      states', events' := Extend(states, events, lead, Table(s, n, m, from), Use(m, "s", Used(s, m)));
      states', events' := UseBatch(states', events', lead, s, n, m + 1, m', from);
    }
  }

  lemma TableUses(s: Script, n: nat, m: nat, from: nat)
    requires from <= m < n && Before(s, m) == n && Used(s, m) < Created(s, m) + MINUTE_MS
    ensures Consume(Table(s, n, m, from), m, "s", Used(s, m)).0 == Table(s, n, m + 1, from)
  {
    hide Created, Used, Before;
    assert Consume(Table(s, n, m, from), m, "s", Used(s, m)).0.rows == Table(s, n, m + 1, from).rows;
  }

  lemma AllEnrolled(s: Script, n: nat, from: nat, after: Instant)
    requires forall i | 0 <= i < n :: after < Used(s, i) <= after + DAY_MS
    ensures |EnrolledIn(Table(s, n, n, from).rows, "s", after)| == n
  {
    hide Created, Used, Before;
    IntervalSize(0, n);
    assert EnrolledIn(Table(s, n, n, from).rows, "s", after) == Interval(0, n);
  }

  // ------------------------------------------------------------------
  // The daily limit
  // ------------------------------------------------------------------

  /** A source that completes 29 enrollments in one day, although issuance stops at 20. */
  lemma DailyLimitIsReached() returns (states: seq<Quota>, events: seq<Event>)
    ensures IsRun(states, events, DAILY_LEAD_MS) && UsesFollow(states[|events|].rows, 0)
    ensures |EnrolledIn(states[|events|].rows, "s", -1)| == 29
  {
    var lead := DAILY_LEAD_MS;
    states, events := Begin(InOrder, lead);
    assert UsesFollow(Table(InOrder, 29, 29, 0).rows, 0);
    AllEnrolled(InOrder, 29, 0, -1);
    hide Table, IsRun;
    states, events := IssueBatch(states, events, lead, InOrder, 0, 10, 0, 0, 0, 0, 0);
    states, events := UseBatch(states, events, lead, InOrder, 10, 0, 10, 0);
    states, events := IssueBatch(states, events, lead, InOrder, 10, 19, 10, 0, MINUTE_MS, 0, 10);
    states, events := UseBatch(states, events, lead, InOrder, 19, 10, 19, 0);
    states, events := IssueBatch(states, events, lead, InOrder, 19, 29, 19, 0, 2 * MINUTE_MS, 0, 19);
    states, events := UseBatch(states, events, lead, InOrder, 29, 19, 29, 0);
  }

  /** With consumptions a millisecond behind, one source completes 49: 19 at the very start of
      the day, twenty whose last is issued before the first of them completes, and ten issued
      just after its end. */
  lemma DailyLimitNeedsOrder() returns (states: seq<Quota>, events: seq<Event>)
    ensures IsRun(states, events, DAILY_LEAD_MS) && UsesFollow(states[|events|].rows, 1)
    ensures |EnrolledIn(states[|events|].rows, "s", 0)| == 49 == DailyBound(1)
  {
    var lead := DAILY_LEAD_MS;
    states, events := Begin(Behind, lead);
    assert UsesFollow(Table(Behind, 49, 49, 0).rows, 1);
    AllEnrolled(Behind, 49, 0, 0);
    hide Table, IsRun;
    states, events := IssueBatch(states, events, lead, Behind, 0, 10, 0, 0, 2 - MINUTE_MS, 0, 0);
    states, events := IssueBatch(states, events, lead, Behind, 10, 19, 0, 0, 2, 0, 10);
    states, events := UseBatch(states, events, lead, Behind, 19, 0, 19, 0);
    states, events := IssueBatch(states, events, lead, Behind, 19, 29, 19, 0, DAY_MS + 1 - 2 * MINUTE_MS, 0, 19);
    states, events := IssueBatch(states, events, lead, Behind, 29, 39, 19, 0, DAY_MS + 1 - MINUTE_MS, 0, 29);
    states, events := UseBatch(states, events, lead, Behind, 39, 19, 29, 0);
    states, events := IssueBatch(states, events, lead, Behind, 39, 49, 29, 0, DAY_MS + 1, 19, 39);
    states, events := UseBatch(states, events, lead, Behind, 49, 29, 49, 0);
  }

  lemma PrunedFirst()
    ensures Prune(Table(Pruned, 29, 29, 0), Interval(0, 10), PRUNE_CLOCK) == Table(Pruned, 29, 29, 10)
  {
    assert Interval(0, 29) - Interval(0, 10) == Interval(10, 29);
  }

  /** One millisecond beyond its lead the daily limit fails: a prune with a fast clock removes
      ten enrollments that still count, and 39 complete. */
  lemma DailyLimitNeedsLead() returns (states: seq<Quota>, events: seq<Event>)
    ensures IsRun(states, events, DAILY_LEAD_MS + 1) && UsesFollow(states[|events|].rows, 0)
    ensures |EnrolledIn(states[|events|].rows, "s", 0)| == 39
  {
    var lead := DAILY_LEAD_MS + 1;
    states, events := Begin(Pruned, lead);
    assert UsesFollow(Table(Pruned, 39, 39, 10).rows, 0);
    AllEnrolled(Pruned, 39, 10, 0);
    PrunedFirst();
    hide Table, IsRun, Prune;
    states, events := IssueBatch(states, events, lead, Pruned, 0, 10, 0, 0, 2 - MINUTE_MS, 0, 0);
    states, events := UseBatch(states, events, lead, Pruned, 10, 0, 10, 0);
    states, events := IssueBatch(states, events, lead, Pruned, 10, 19, 10, 0, MINUTE_MS, 0, 10);
    states, events := UseBatch(states, events, lead, Pruned, 19, 10, 19, 0);
    states, events := IssueBatch(states, events, lead, Pruned, 19, 29, 19, 0, 2 * MINUTE_MS, 0, 19);
    states, events := UseBatch(states, events, lead, Pruned, 29, 19, 29, 0);
    states, events := Extend(states, events, lead, Table(Pruned, 29, 29, 0), Clean(Interval(0, 10), PRUNE_CLOCK));
    states, events := IssueBatch(states, events, lead, Pruned, 29, 39, 29, 10, DAY_MS, 10, 29);
    states, events := UseBatch(states, events, lead, Pruned, 39, 29, 39, 10);
  }

  // ------------------------------------------------------------------
  // The minute limit
  // ------------------------------------------------------------------

  /** `n` challenges issued at once, before and after all of them are pruned. */
  ghost function Burst(n: nat, kept: bool): Quota {
    Quota(seq(n, i requires 0 <= i < n => Row("s", 0, None)), if kept then Interval(0, n) else {},
          if kept then None else Some(PRUNE_AGE_MS + 1))
  }

  lemma BurstIssues(n: nat)
    requires n < 10
    ensures Create(Burst(n, true), "s", 0).0 == Burst(n + 1, true)
  {
    var q := Burst(n, true);
    IntervalSize(0, n);
    SubsetSize((set i | i in q.kept && i < |q.rows| && RecentFrom(q.rows[i], "s", 0)), Interval(0, n));
    SubsetSize((set i | i in q.kept && i < |q.rows| && Recent(q.rows[i], 0)), Interval(0, n));
    SubsetSize((set i | i in q.kept && i < |q.rows| && Enrolled(q.rows[i], "s", 0)), Interval(0, n));
    hide LocalCount, GlobalCount, DailyCount;
    assert q.rows + [Row("s", 0, None)] == Burst(n + 1, true).rows;
    assert Interval(0, n) + {n} == Interval(0, n + 1);
  }

  lemma BurstPruned()
    ensures Prune(Burst(10, true), Interval(0, 10), PRUNE_AGE_MS + 1) == Burst(10, false)
    ensures Create(Burst(10, false), "s", MINUTE_MS - 1).1
    ensures Create(Burst(10, false), "s", MINUTE_MS - 1).0.rows ==
      Burst(10, false).rows + [Row("s", MINUTE_MS - 1, None)]
  {
    CountsWithinKept(Burst(10, false), "s", MINUTE_MS - 1);
    hide LocalCount, GlobalCount, DailyCount;
  }

  /** One millisecond beyond its lead the minute limit fails: an eleventh challenge follows
      ten that a prune with a fast clock has removed. */
  lemma MinuteLimitNeedsLead() returns (states: seq<Quota>, events: seq<Event>)
    ensures IsRun(states, events, MINUTE_LEAD_MS + 1)
    ensures |IssuedIn(states[|events|].rows, "s", -1)| == 11
  {
    hide Create, Prune, Burst;
    var last := Create(Burst(10, false), "s", MINUTE_MS - 1).0;
    states := seq(11, k requires 0 <= k < 11 => Burst(k, true)) + [Burst(10, false), last];
    events := seq(10, k requires 0 <= k < 10 => Issue("s", 0)) + [Clean(Interval(0, 10), PRUNE_AGE_MS + 1),
      Issue("s", MINUTE_MS - 1)];
    BurstPruned();
    BurstClocks();
    forall k | 0 <= k < |events|
      ensures states[k + 1] == Next(states[k], events[k])
      ensures (events[k].Issue? ==> Punctual(states[k], events[k].now, MINUTE_LEAD_MS + 1))
    {
      if k < 10 {
        BurstIssues(k);
      }
    }
    BurstFull(last.rows);
  }

  lemma BurstClocks()
    ensures Burst(0, true) == Quota([], {}, None)
    ensures forall n: nat :: Burst(n, true).prunedAt.None?
    ensures Punctual(Burst(10, false), MINUTE_MS - 1, MINUTE_LEAD_MS + 1)
  {
    assert Interval(0, 0) == {};
  }

  lemma BurstFull(rows: seq<Row>)
    requires rows == Burst(10, false).rows + [Row("s", MINUTE_MS - 1, None)]
    ensures |IssuedIn(rows, "s", -1)| == 11
  {
    IntervalSize(0, 11);
    assert IssuedIn(rows, "s", -1) == Interval(0, 11);
  }
}
