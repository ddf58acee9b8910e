/** The bootstrap-challenge quota. Rows are numbered in the order of their commits, which
    the quota's transaction lock makes a total order; their times are transaction start
    times and need not follow it.
  */
module Bootstrap {
  import opened Schema
  import opened Finite

  const LOCAL_LIMIT: nat := 10
  const GLOBAL_LIMIT: nat := 100
  const DAILY_LIMIT: nat := 20
  const PRUNE_AGE_MS: int := 2 * DAY_MS

  /** How far a prune's clock may run ahead of a later issue's without removing a row that
      the issue counts: two days less a minute, or less a day and a minute. The comparisons
      are strict, hence the extra milliseconds. */
  const MINUTE_LEAD_MS: int := PRUNE_AGE_MS - MINUTE_MS + 1
  const DAILY_LEAD_MS: int := PRUNE_AGE_MS - DAY_MS - MINUTE_MS + 2

  /** `before` is the number of rows there were when the challenge was consumed. */
  datatype Consumption = Consumption(at: Instant, before: nat)

  datatype Row = Row(source: string, created: Instant, consumed: Option<Consumption>)

  /** Every row ever inserted, and which of them the table still holds. `prunedAt` is the
      latest clock of a prune. */
  datatype Quota = Quota(rows: seq<Row>, kept: set<nat>, prunedAt: Option<Instant>)

  // ------------------------------------------------------------------
  // The counts of one issue
  // ------------------------------------------------------------------

  predicate RecentFrom(row: Row, source: string, now: Instant) {
    row.source == source && row.created > now - MINUTE_MS
  }

  predicate Recent(row: Row, now: Instant) {
    row.created > now - MINUTE_MS
  }

  /** A completed enrollment as the query selects it. */
  predicate Enrolled(row: Row, source: string, now: Instant) {
    row.source == source && row.created > now - DAY_MS - MINUTE_MS && row.consumed.Some?
      && row.consumed.value.at > now - DAY_MS
  }

  /** Over the table. */
  function LocalCount(q: Quota, source: string, now: Instant): nat {
    |set i | i in q.kept && i < |q.rows| && RecentFrom(q.rows[i], source, now)|
  }

  function GlobalCount(q: Quota, now: Instant): nat {
    |set i | i in q.kept && i < |q.rows| && Recent(q.rows[i], now)|
  }

  function DailyCount(q: Quota, source: string, now: Instant): nat {
    |set i | i in q.kept && i < |q.rows| && Enrolled(q.rows[i], source, now)|
  }

  /** Over the whole history. */
  ghost function LocalHistory(rows: seq<Row>, source: string, now: Instant): set<nat> {
    set i: nat | i < |rows| && RecentFrom(rows[i], source, now)
  }

  ghost function GlobalHistory(rows: seq<Row>, now: Instant): set<nat> {
    set i: nat | i < |rows| && Recent(rows[i], now)
  }

  ghost function DailyHistory(rows: seq<Row>, source: string, now: Instant): set<nat> {
    set i: nat | i < |rows| && rows[i].source == source && rows[i].consumed.Some?
      && rows[i].consumed.value.at > now - DAY_MS
  }

  // ------------------------------------------------------------------
  // The operations
  // ------------------------------------------------------------------

  function Create(q: Quota, source: string, now: Instant): (Quota, bool) {
    if LocalCount(q, source, now) >= LOCAL_LIMIT || GlobalCount(q, now) >= GLOBAL_LIMIT
      || DailyCount(q, source, now) >= DAILY_LIMIT
    then (q, false)
    else (q.(rows := q.rows + [Row(source, now, None)], kept := q.kept + {|q.rows|}), true)
  }

  function Consume(q: Quota, i: nat, source: string, now: Instant): (Quota, bool) {
    if i < |q.rows| && i in q.kept && q.rows[i].source == source && q.rows[i].created + MINUTE_MS > now
      && q.rows[i].consumed.None?
    then (q.(rows := q.rows[i := q.rows[i].(consumed := Some(Consumption(now, |q.rows|)))]), true)
    else (q, false)
  }

  predicate Prunable(q: Quota, victims: set<nat>, now: Instant) {
    victims <= q.kept && forall i | i in victims && i < |q.rows| :: q.rows[i].created < now - PRUNE_AGE_MS
  }

  function Prune(q: Quota, victims: set<nat>, now: Instant): Quota {
    if !Prunable(q, victims, now) then q
    else q.(kept := q.kept - victims, prunedAt := Some(if q.prunedAt.Some? then MaxOf(q.prunedAt.value, now) else now))
  }

  /** The table, its rows updated in place. `next` numbers the rows; the primary key is a
      random nonce. */
  class Challenges {
    var table: map<nat, Row>
    var next: nat
    ghost var history: seq<Row>
    ghost var prunedAt: Option<Instant>

    ghost predicate Valid()
      reads this
    {
      next == |history| && forall i | i in table :: i < next && table[i] == history[i]
    }

    ghost function View(): Quota
      reads this
    {
      Quota(history, table.Keys, prunedAt)
    }

    constructor ()
      ensures Valid() && View() == Quota([], {}, None)
    {
      table, next, history, prunedAt := map[], 0, [], None;
    }

    method CreateChallenge(source: string, now: Instant) returns (issued: bool)
      requires Valid()
      modifies this
      ensures Valid() && (View(), issued) == Create(old(View()), source, now)
    {
      hide LocalCount, GlobalCount, DailyCount, RecentFrom, Recent, Enrolled;
      SameCounts(View(), table, source, now);
      var local := |set i | i in table && RecentFrom(table[i], source, now)|;
      var overall := |set i | i in table && Recent(table[i], now)|;
      var daily := |set i | i in table && Enrolled(table[i], source, now)|;
      issued := !(local >= LOCAL_LIMIT || overall >= GLOBAL_LIMIT || daily >= DAILY_LIMIT);
      if issued {
        history := history + [Row(source, now, None)];
        table, next := table[next := Row(source, now, None)], next + 1;
        assert table.Keys == old(table.Keys) + {old(next)};
      }
    }

    method ConsumeChallenge(key: nat, source: string, now: Instant) returns (consumed: bool)
      requires Valid()
      modifies this
      ensures Valid() && (View(), consumed) == Consume(old(View()), key, source, now)
    {
      consumed := key in table && table[key].source == source && table[key].created + MINUTE_MS > now
        && table[key].consumed.None?;
      if consumed {
        var row := table[key].(consumed := Some(Consumption(now, next)));
        history := history[key := row];
        table := table[key := row];
        assert table.Keys == old(table.Keys);
      }
    }

    /** Deletes up to `limit` of the rows past the quota windows, the oldest first; all of them
        if the limit allows. */
    method PruneChallenges(limit: int, now: Instant) returns (r: Result<nat>, ghost victims: set<nat>)
      requires Valid()
      modifies this
      ensures Valid() && victims <= old(table.Keys) && Prunable(old(View()), victims, now)
      ensures !(1 <= limit <= 10000) ==> r == Err(InvalidRequest) && View() == old(View())
      ensures 1 <= limit <= 10000 ==>
        r == Ok(|victims|) && |victims| <= limit && View() == Prune(old(View()), victims, now)
      ensures 1 <= limit <= 10000 && |victims| < limit ==>
        forall i | i in table :: table[i].created >= now - PRUNE_AGE_MS
      ensures forall v, i | v in victims && i in table :: NoYounger(old(table), v, i)
    {
      if !(1 <= limit <= 10000) {
        return Err(InvalidRequest), {};
      }
      var chosen := OldestRows(table, limit, now);
      table := table - chosen;
      prunedAt := Some(if prunedAt.Some? then MaxOf(prunedAt.value, now) else now);
      return Ok(|chosen|), chosen;
    }
  }

  /** Up to `limit` rows past the quota windows, the oldest ones; all if there are no more. */
  method OldestRows(table: map<nat, Row>, limit: nat, now: Instant) returns (chosen: set<nat>)
    ensures chosen <= table.Keys && |chosen| <= limit
    ensures forall i | i in chosen :: table[i].created < now - PRUNE_AGE_MS
    ensures |chosen| < limit ==> forall i | i in table && i !in chosen :: table[i].created >= now - PRUNE_AGE_MS
    ensures forall v, i | v in chosen && i in table && i !in chosen :: NoYounger(table, v, i)
  {
    chosen := {};
    var todo := set i | i in table && table[i].created < now - PRUNE_AGE_MS;
    ghost var due := todo;
    while todo != {} && |chosen| < limit
      invariant chosen + todo == due && todo !! chosen && |chosen| <= limit
      invariant forall v, i | v in chosen && i in todo :: NoYounger(table, v, i)
      decreases |todo|
    {
      ghost var oldest := OldestRow(table, todo);
      var i :| i in todo && forall j | j in todo :: NoYounger(table, i, j);
      todo, chosen := todo - {i}, chosen + {i};
    }
  }

  predicate NoYounger(table: map<nat, Row>, i: nat, j: nat) {
    i in table && j in table ==> table[i].created <= table[j].created
  }

  lemma {:induction false} OldestRow(table: map<nat, Row>, todo: set<nat>) returns (i: nat)
    requires todo != {} && todo <= table.Keys
    ensures i in todo && forall j | j in todo :: NoYounger(table, i, j)
    decreases |todo|
  {
    i :| i in todo;
    var rest := todo - {i};
    assert todo == rest + {i};
    if rest != {} {
      var least := OldestRow(table, rest);
      if !NoYounger(table, i, least) {
        i := least;
      }
    }
  }

  /** A challenge is issued exactly while the table shows fewer than 10 of its source and 100 of
      all in the last minute and fewer than 20 enrollments of its source in the last day. */
  lemma CreateExact(q: Quota, source: string, now: Instant)
    ensures var (q', issued) := Create(q, source, now);
      && (issued <==>
            LocalCount(q, source, now) < 10 && GlobalCount(q, now) < 100 && DailyCount(q, source, now) < 20)
      && (!issued ==> q' == q)
      && (issued ==>
            && q'.rows == q.rows + [Row(source, now, None)] && q'.kept == q.kept + {|q.rows|}
            && q'.prunedAt == q.prunedAt)
  {
    hide LocalCount, GlobalCount, DailyCount;
  }

  /** A challenge is consumed exactly once, by its own source, in the minute after it was issued. */
  lemma ConsumeExact(q: Quota, i: nat, source: string, now: Instant)
    ensures var (q', consumed) := Consume(q, i, source, now);
      && (consumed <==>
            && i in q.kept && i < |q.rows| && q.rows[i].source == source
            && q.rows[i].consumed.None? && now < q.rows[i].created + 60000)
      && (!consumed ==> q' == q)
      && (consumed ==>
            && |q'.rows| == |q.rows| && q' == q.(rows := q'.rows)
            && q'.rows[i] == q.rows[i].(consumed := Some(Consumption(now, |q.rows|)))
            && forall j | 0 <= j < |q.rows| && j != i :: q'.rows[j] == q.rows[j])
  {
  }

  lemma SameCounts(q: Quota, table: map<nat, Row>, source: string, now: Instant)
    requires q.kept == table.Keys && forall i | i in table :: i < |q.rows| && table[i] == q.rows[i]
    ensures LocalCount(q, source, now) == |set i | i in table && RecentFrom(table[i], source, now)|
    ensures GlobalCount(q, now) == |set i | i in table && Recent(table[i], now)|
    ensures DailyCount(q, source, now) == |set i | i in table && Enrolled(table[i], source, now)|
  {
    assert (set i | i in q.kept && i < |q.rows| && RecentFrom(q.rows[i], source, now)) == set i | i in table
      && RecentFrom(table[i], source, now);
    assert (set i | i in q.kept && i < |q.rows| && Recent(q.rows[i], now)) == set i | i in table
      && Recent(table[i], now);
    assert (set i | i in q.kept && i < |q.rows| && Enrolled(q.rows[i], source, now)) == set i | i in table
      && Enrolled(table[i], source, now);
  }

  // ------------------------------------------------------------------
  // Runs
  // ------------------------------------------------------------------

  datatype Event =
    | Issue(source: string, now: Instant)
    | Use(key: nat, source: string, now: Instant)
    | Clean(victims: set<nat>, now: Instant)

  function Next(q: Quota, e: Event): Quota {
    match e
    case Issue(source, now) => Create(q, source, now).0
    case Use(key, source, now) => Consume(q, key, source, now).0
    case Clean(victims, now) => Prune(q, victims, now)
  }

  /** No prune's clock ran more than `lead` ahead of this issue. */
  predicate Punctual(q: Quota, now: Instant, lead: int) {
    q.prunedAt.Some? ==> q.prunedAt.value <= now + lead
  }

  ghost predicate IsRun(states: seq<Quota>, events: seq<Event>, lead: int) {
    && |states| == |events| + 1 && states[0] == Quota([], {}, None)
    && forall i | 0 <= i < |events| ::
         states[i + 1] == Next(states[i], events[i]) && (events[i].Issue? ==> Punctual(states[i], events[i].now, lead))
  }

  // ------------------------------------------------------------------
  // Pruning is invisible
  // ------------------------------------------------------------------

  ghost predicate RowsInv(q: Quota) {
    && (forall i | i in q.kept :: i < |q.rows|)
    && (forall i | 0 <= i < |q.rows| && i !in q.kept ::
          q.prunedAt.Some? && q.rows[i].created < q.prunedAt.value - PRUNE_AGE_MS)
    && (forall i | 0 <= i < |q.rows| && q.rows[i].consumed.Some? ::
          q.rows[i].consumed.value.at < q.rows[i].created + MINUTE_MS
            && i < q.rows[i].consumed.value.before <= |q.rows|)
  }

  /** The counts over the pruned table are those over all history, within each count's own
      lead, and the daily query's bound on `created_at` excludes nothing. */
  lemma PruningInvisible(q: Quota, source: string, now: Instant)
    requires RowsInv(q)
    ensures Punctual(q, now, MINUTE_LEAD_MS) ==> LocalCount(q, source, now) == |LocalHistory(q.rows, source, now)|
    ensures Punctual(q, now, MINUTE_LEAD_MS) ==> GlobalCount(q, now) == |GlobalHistory(q.rows, now)|
    ensures Punctual(q, now, DAILY_LEAD_MS) ==> DailyCount(q, source, now) == |DailyHistory(q.rows, source, now)|
  {
    if Punctual(q, now, MINUTE_LEAD_MS) {
      assert (set i | i in q.kept && i < |q.rows| && RecentFrom(q.rows[i], source, now)) ==
        LocalHistory(q.rows, source, now);
      assert (set i | i in q.kept && i < |q.rows| && Recent(q.rows[i], now)) == GlobalHistory(q.rows, now);
    }
    if Punctual(q, now, DAILY_LEAD_MS) {
      assert (set i | i in q.kept && i < |q.rows| && Enrolled(q.rows[i], source, now)) ==
        DailyHistory(q.rows, source, now);
    }
  }

  /** One millisecond beyond its lead and a prune does change the daily count. */
  lemma LateIssueMissesEnrollment(source: string, now: Instant)
    ensures var row := Row(source, now - DAY_MS - MINUTE_MS + 2, Some(Consumption(now - DAY_MS + 1, 1)));
      var pruned := Prune(Quota([row], {0}, None), {0}, now + DAILY_LEAD_MS + 1);
      && RowsInv(Quota([row], {0}, None)) && RowsInv(pruned)
      && DailyHistory(pruned.rows, source, now) == {0} && DailyCount(pruned, source, now) == 0
  {
    var row := Row(source, now - DAY_MS - MINUTE_MS + 2, Some(Consumption(now - DAY_MS + 1, 1)));
    var pruned := Prune(Quota([row], {0}, None), {0}, now + DAILY_LEAD_MS + 1);
    assert pruned.kept == {};
    CountsWithinKept(pruned, source, now);
  }

  lemma CountsWithinKept(q: Quota, source: string, now: Instant)
    ensures LocalCount(q, source, now) <= |q.kept| && GlobalCount(q, now) <= |q.kept|
    ensures DailyCount(q, source, now) <= |q.kept|
  {
    SubsetSize((set i | i in q.kept && i < |q.rows| && RecentFrom(q.rows[i], source, now)), q.kept);
    SubsetSize((set i | i in q.kept && i < |q.rows| && Recent(q.rows[i], now)), q.kept);
    SubsetSize((set i | i in q.kept && i < |q.rows| && Enrolled(q.rows[i], source, now)), q.kept);
  }

  // ------------------------------------------------------------------
  // What every run keeps
  // ------------------------------------------------------------------

  ghost function EarlierFrom(rows: seq<Row>, k: nat): set<nat>
    requires k < |rows|
  {
    set i: nat | i < k && RecentFrom(rows[i], rows[k].source, rows[k].created)
  }

  ghost function EarlierAll(rows: seq<Row>, k: nat): set<nat>
    requires k < |rows|
  {
    set i: nat | i < k && Recent(rows[i], rows[k].created)
  }

  predicate EnrolledBefore(rows: seq<Row>, i: nat, k: nat)
    requires i < |rows| && k < |rows|
  {
    && rows[i].source == rows[k].source && rows[i].consumed.Some?
    && rows[i].consumed.value.before <= k && rows[i].consumed.value.at > rows[k].created - DAY_MS
  }

  /** The enrollments that were complete when row `k` was issued. */
  ghost function EarlierEnrolled(rows: seq<Row>, k: nat): set<nat>
    requires k < |rows|
  {
    set i: nat | i < k && EnrolledBefore(rows, i, k)
  }

  /** Row `k` was below the limits when it was issued. */
  ghost predicate MinuteAdmitted(rows: seq<Row>, k: nat)
    requires k < |rows|
  {
    |EarlierFrom(rows, k)| < LOCAL_LIMIT && |EarlierAll(rows, k)| < GLOBAL_LIMIT
  }

  ghost predicate DailyAdmitted(rows: seq<Row>, k: nat)
    requires k < |rows|
  {
    |EarlierEnrolled(rows, k)| < DAILY_LIMIT
  }

  ghost predicate Inv(q: Quota, lead: int) {
    && RowsInv(q)
    && (lead <= MINUTE_LEAD_MS ==> forall k: nat | k < |q.rows| :: MinuteAdmitted(q.rows, k))
    && (lead <= DAILY_LEAD_MS ==> forall k: nat | k < |q.rows| :: DailyAdmitted(q.rows, k))
  }

  /** Row `k`'s sets do not change when rows are added or consumed after it. */
  lemma AdmittedStays(rows: seq<Row>, rows': seq<Row>, k: nat)
    requires k < |rows| <= |rows'|
    requires forall i | 0 <= i < |rows| :: rows'[i].source == rows[i].source && rows'[i].created == rows[i].created
    requires forall i | 0 <= i < |rows| && rows'[i].consumed != rows[i].consumed ::
      rows[i].consumed.None? && rows'[i].consumed.Some? && rows'[i].consumed.value.before > k
    ensures MinuteAdmitted(rows, k) ==> MinuteAdmitted(rows', k)
    ensures DailyAdmitted(rows, k) ==> DailyAdmitted(rows', k)
  {
    assert EarlierFrom(rows', k) == EarlierFrom(rows, k);
    assert EarlierAll(rows', k) == EarlierAll(rows, k);
    assert EarlierEnrolled(rows', k) == EarlierEnrolled(rows, k);
  }

  lemma CreateKeeps(q: Quota, source: string, now: Instant, lead: int)
    requires Inv(q, lead) && Punctual(q, now, lead)
    ensures Inv(Create(q, source, now).0, lead)
  {
    hide LocalCount, GlobalCount, DailyCount, MinuteAdmitted, DailyAdmitted, LocalHistory, GlobalHistory, DailyHistory;
    var q' := Create(q, source, now).0;
    if q' != q {
      PruningInvisible(q, source, now);
      var k := |q.rows|;
      forall j: nat | j < k
        ensures MinuteAdmitted(q.rows, j) ==> MinuteAdmitted(q'.rows, j)
        ensures DailyAdmitted(q.rows, j) ==> DailyAdmitted(q'.rows, j)
      {
        AdmittedStays(q.rows, q'.rows, j);
      }
      NewRowAdmitted(q.rows, Row(source, now, None));
    }
  }

  lemma NewRowAdmitted(rows: seq<Row>, row: Row)
    requires forall i | 0 <= i < |rows| && rows[i].consumed.Some? :: rows[i].consumed.value.before <= |rows|
    ensures
      (|LocalHistory(rows, row.source, row.created)| < LOCAL_LIMIT
       && |GlobalHistory(rows, row.created)| < GLOBAL_LIMIT) ==>
        MinuteAdmitted(rows + [row], |rows|)
    ensures |DailyHistory(rows, row.source, row.created)| < DAILY_LIMIT ==> DailyAdmitted(rows + [row], |rows|)
  {
    var rows', k := rows + [row], |rows|;
    assert EarlierFrom(rows', k) == LocalHistory(rows, row.source, row.created);
    assert EarlierAll(rows', k) == GlobalHistory(rows, row.created);
    assert EarlierEnrolled(rows', k) == DailyHistory(rows, row.source, row.created);
  }

  lemma ConsumeKeeps(q: Quota, key: nat, source: string, now: Instant, lead: int)
    requires Inv(q, lead)
    ensures Inv(Consume(q, key, source, now).0, lead)
  {
    hide MinuteAdmitted, DailyAdmitted;
    var q' := Consume(q, key, source, now).0;
    forall k: nat | k < |q.rows|
      ensures MinuteAdmitted(q.rows, k) ==> MinuteAdmitted(q'.rows, k)
      ensures DailyAdmitted(q.rows, k) ==> DailyAdmitted(q'.rows, k)
    {
      AdmittedStays(q.rows, q'.rows, k);
    }
  }

  lemma {:induction false} RunInv(states: seq<Quota>, events: seq<Event>, lead: int, n: nat)
    requires IsRun(states, events, lead) && n < |states|
    ensures Inv(states[n], lead)
  {
    hide MinuteAdmitted, DailyAdmitted, Create, Consume;
    if n > 0 {
      RunInv(states, events, lead, n - 1);
      var q, e := states[n - 1], events[n - 1];
      assert states[n] == Next(q, e);
      match e
      case Issue(source, now) => CreateKeeps(q, source, now, lead);
      case Use(key, source, now) => ConsumeKeeps(q, key, source, now, lead);
      case Clean(victims, now) =>
    }
  }

  // ------------------------------------------------------------------
  // The limits over sliding windows of the whole history
  // ------------------------------------------------------------------

  lemma Largest(s: set<nat>) returns (k: nat)
    requires s != {}
    ensures k in s && forall i | i in s :: i <= k
    decreases |s|
  {
    var x :| x in s;
    if s == {x} {
      k := x;
    } else {
      assert s - {x} != {} by {
        assert s == (s - {x}) + {x};
      }
      var m := Largest(s - {x});
      k := if m < x then x else m;
    }
  }

  ghost function IssuedIn(rows: seq<Row>, source: string, after: Instant): set<nat> {
    set i: nat | i < |rows| && rows[i].source == source && after < rows[i].created <= after + MINUTE_MS
  }

  ghost function AllIssuedIn(rows: seq<Row>, after: Instant): set<nat> {
    set i: nat | i < |rows| && after < rows[i].created <= after + MINUTE_MS
  }

  /** Any sliding minute holds at most 10 challenges per source and 100 overall, even though
      their times need not follow the order in which they were counted, as long as no prune
      runs two days less a minute ahead. */
  lemma MinuteLimits(states: seq<Quota>, events: seq<Event>, lead: int, n: nat, source: string, after: Instant)
    requires IsRun(states, events, lead) && lead <= MINUTE_LEAD_MS && n < |states|
    ensures |IssuedIn(states[n].rows, source, after)| <= 10
    ensures |AllIssuedIn(states[n].rows, after)| <= 100
  {
    hide IsRun, RowsInv;
    RunInv(states, events, lead, n);
    SourceLimit(states[n].rows, source, after);
    OverallLimit(states[n].rows, after);
  }

  lemma SourceLimit(rows: seq<Row>, source: string, after: Instant)
    requires forall k: nat | k < |rows| :: MinuteAdmitted(rows, k)
    ensures |IssuedIn(rows, source, after)| <= 10
  {
    var local := IssuedIn(rows, source, after);
    if local != {} {
      var k := Largest(local);
      assert MinuteAdmitted(rows, k);
      hide EarlierAll;
      SubsetSize(local, EarlierFrom(rows, k) + {k});
    }
  }

  lemma OverallLimit(rows: seq<Row>, after: Instant)
    requires forall k: nat | k < |rows| :: MinuteAdmitted(rows, k)
    ensures |AllIssuedIn(rows, after)| <= 100
  {
    var all := AllIssuedIn(rows, after);
    if all != {} {
      var k := Largest(all);
      assert MinuteAdmitted(rows, k);
      hide EarlierFrom;
      SubsetSize(all, EarlierAll(rows, k) + {k});
    }
  }

  /** The minutes that `length` milliseconds begin. */
  function Minutes(length: nat): nat {
    (length + MINUTE_MS - 1) / MINUTE_MS
  }

  ghost function CreatedIn(rows: seq<Row>, source: string, after: Instant, length: int): set<nat> {
    set i: nat | i < |rows| && rows[i].source == source && after < rows[i].created <= after + length
  }

  /** Ten rows for each started minute of any longer window. */
  lemma {:induction false} LongWindow(rows: seq<Row>, source: string, after: Instant, length: nat)
    requires forall k: nat | k < |rows| :: MinuteAdmitted(rows, k)
    ensures |CreatedIn(rows, source, after, length)| <= 10 * Minutes(length)
    decreases length
  {
    hide MinuteAdmitted;
    var all := CreatedIn(rows, source, after, length);
    SourceLimit(rows, source, after);
    if length == 0 {
      assert all == {};
    } else if length <= MINUTE_MS {
      SubsetSize(all, IssuedIn(rows, source, after));
    } else {
      LongWindow(rows, source, after + MINUTE_MS, length - MINUTE_MS);
      SubsetSize(all, IssuedIn(rows, source, after) + CreatedIn(rows, source, after + MINUTE_MS, length - MINUTE_MS));
    }
  }

  /** Consumptions run at most `lag` behind the issues committed before them. */
  ghost predicate UsesFollow(rows: seq<Row>, lag: int) {
    forall i, k | 0 <= i < |rows| && 0 <= k < |rows| && rows[i].consumed.Some? && k < rows[i].consumed.value.before
      && rows[k].source == rows[i].source ::
      rows[k].created <= rows[i].consumed.value.at + lag
  }

  ghost function EnrolledIn(rows: seq<Row>, source: string, after: Instant): set<nat> {
    set i: nat | i < |rows| && rows[i].source == source && rows[i].consumed.Some?
      && after < rows[i].consumed.value.at <= after + DAY_MS
  }

  /** 19 that the last issue inside the day counted, 9 issued in its minute and still open
      then, and that one itself. A lag adds, for each minute it begins, ten that stayed open
      longer and ten issued after the day's end. */
  function DailyBound(lag: nat): nat {
    19 + 9 + 1 + 20 * Minutes(lag)
  }

  /** The enrollments of one source that complete in any sliding day: 29 when consumptions do
      not run behind issues committed before them, 49 when they do by up to a minute. */
  lemma DailyLimit(states: seq<Quota>, events: seq<Event>, lead: int, n: nat, source: string, after: Instant, lag: nat)
    requires IsRun(states, events, lead) && lead <= DAILY_LEAD_MS && n < |states| && UsesFollow(states[n].rows, lag)
    ensures |EnrolledIn(states[n].rows, source, after)| <= DailyBound(lag)
    ensures lag == 0 ==> |EnrolledIn(states[n].rows, source, after)| <= 29
    ensures lag <= MINUTE_MS ==> |EnrolledIn(states[n].rows, source, after)| <= 49
  {
    hide MinuteAdmitted, DailyAdmitted;
    RunInv(states, events, lead, n);
    hide IsRun, UsesFollow;
    EnrolledBound(states[n].rows, source, after, lag);
  }

  /** Enrollments whose challenge was issued by the end of the day. */
  ghost function Regular(rows: seq<Row>, source: string, after: Instant): set<nat> {
    set i | i in EnrolledIn(rows, source, after) && rows[i].created <= after + DAY_MS
  }

  lemma EnrolledBound(rows: seq<Row>, source: string, after: Instant, lag: nat)
    requires forall k: nat | k < |rows| :: MinuteAdmitted(rows, k) && DailyAdmitted(rows, k)
    requires forall i | 0 <= i < |rows| && rows[i].consumed.Some? ::
      rows[i].consumed.value.at < rows[i].created + MINUTE_MS && i < rows[i].consumed.value.before
    requires UsesFollow(rows, lag)
    ensures |EnrolledIn(rows, source, after)| <= DailyBound(lag)
  {
    hide MinuteAdmitted, DailyAdmitted, Minutes;
    var regular, late := Regular(rows, source, after), CreatedIn(rows, source, after + DAY_MS, lag);
    forall i | i in EnrolledIn(rows, source, after) ensures i in regular || i in late {
      assert rows[i].created <= rows[i].consumed.value.at + lag;
    }
    SubsetSize(EnrolledIn(rows, source, after), regular + late);
    LongWindow(rows, source, after + DAY_MS, lag);
    RegularBound(rows, source, after, lag);
  }

  lemma RegularBound(rows: seq<Row>, source: string, after: Instant, lag: nat)
    requires forall k: nat | k < |rows| :: MinuteAdmitted(rows, k) && DailyAdmitted(rows, k)
    requires forall i | 0 <= i < |rows| && rows[i].consumed.Some? ::
      rows[i].consumed.value.at < rows[i].created + MINUTE_MS && i < rows[i].consumed.value.before
    requires UsesFollow(rows, lag)
    ensures |Regular(rows, source, after)| <= 29 + 10 * Minutes(lag)
  {
    hide EarlierFrom, EarlierEnrolled, EarlierAll, CreatedIn, MinuteAdmitted, DailyAdmitted, UsesFollow, Minutes;
    var regular := Regular(rows, source, after);
    if regular != {} {
      var k := Largest(regular);
      AdmittedSizes(rows, k);
      LongWindow(rows, source, rows[k].created - lag - MINUTE_MS, lag);
      var counted, open := EarlierEnrolled(rows, k), EarlierFrom(rows, k);
      var slow := CreatedIn(rows, source, rows[k].created - lag - MINUTE_MS, lag);
      forall i | i in regular && i != k ensures i in counted || i in open || i in slow {
        WhichBound(rows, source, after, lag, i, k);
      }
      CoveredSize(regular, counted, open, slow, k);
    }
  }

  lemma AdmittedSizes(rows: seq<Row>, k: nat)
    requires k < |rows| && MinuteAdmitted(rows, k) && DailyAdmitted(rows, k)
    ensures |EarlierFrom(rows, k)| <= 9 && |EarlierEnrolled(rows, k)| <= 19
  {
    hide EarlierFrom, EarlierEnrolled, EarlierAll;
  }

  lemma CoveredSize(all: set<nat>, a: set<nat>, b: set<nat>, c: set<nat>, k: nat)
    requires forall i | i in all && i != k :: i in a || i in b || i in c
    ensures |all| <= |a| + |b| + |c| + 1
  {
    SubsetSize(all, a + b + c + {k});
  }

  lemma WhichBound(rows: seq<Row>, source: string, after: Instant, lag: nat, i: nat, k: nat)
    requires i < k && i in Regular(rows, source, after) && k in Regular(rows, source, after)
    requires UsesFollow(rows, lag)
    requires forall j | 0 <= j < |rows| && rows[j].consumed.Some? ::
      rows[j].consumed.value.at < rows[j].created + MINUTE_MS && j < rows[j].consumed.value.before
    ensures || i in EarlierEnrolled(rows, k) || i in EarlierFrom(rows, k)
      || i in CreatedIn(rows, source, rows[k].created - lag - MINUTE_MS, lag)
  {
    if rows[i].consumed.value.before <= k {
      assert EnrolledBefore(rows, i, k);
    } else {
      assert rows[k].created <= rows[i].consumed.value.at + lag;
    }
  }
}
