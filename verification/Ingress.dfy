/** The gateway's admission quota: a window that starts over once a minute has passed,
    with a total and a count per source.
  */
module Ingress {
  import opened Schema
  import opened Finite

  const WINDOW_MS: int := 60000
  const TOTAL_LIMIT: nat := 5000
  const SOURCE_LIMIT: nat := 120

  function CountOf(counts: map<string, nat>, source: string): nat {
    if source in counts then counts[source] else 0
  }

  // ------------------------------------------------------------------
  // Conservation: the per-source counts add up to the total
  // ------------------------------------------------------------------

  ghost function Sum(counts: map<string, nat>): nat
    decreases |counts|
  {
    if counts == map[] then 0
    else
      var k :| k in counts;
      assert counts.Keys == (counts - {k}).Keys + {k};
      counts[k] + Sum(counts - {k})
  }

  lemma SumNothing()
    ensures Sum(map[]) == 0
  {
  }

  lemma Smaller(counts: map<string, nat>, k: string)
    requires k in counts
    ensures |counts - {k}| < |counts|
  {
    assert counts.Keys == (counts - {k}).Keys + {k};
  }

  /** The key the sum takes first. */
  lemma Picked(counts: map<string, nat>) returns (j: string)
    requires counts != map[]
    ensures j in counts && Sum(counts) == counts[j] + Sum(counts - {j})
  {
    j :| j in counts && Sum(counts) == counts[j] + Sum(counts - {j});
  }

  lemma {:induction false} SumWithout(counts: map<string, nat>, k: string)
    requires k in counts
    ensures |counts - {k}| < |counts| && Sum(counts) == counts[k] + Sum(counts - {k})
    decreases |counts|
  {
    Smaller(counts, k);
    var j := Picked(counts);
    hide Sum;
    if j != k {
      Smaller(counts, j);
      SumWithout(counts - {j}, k);
      SumWithout(counts - {k}, j);
      assert (counts - {j}) - {k} == (counts - {k}) - {j};
    }
  }

  lemma SumAdds(counts: map<string, nat>, source: string)
    ensures Sum(counts[source := CountOf(counts, source) + 1]) == Sum(counts) + 1
  {
    var counts' := counts[source := CountOf(counts, source) + 1];
    SumWithout(counts', source);
    if source in counts {
      SumWithout(counts, source);
      assert counts' - {source} == counts - {source};
    } else {
      assert counts' - {source} == counts;
    }
  }

  // ------------------------------------------------------------------
  // The quota
  // ------------------------------------------------------------------

  /** An admitted connection: when, from where, and in which window. */
  datatype Admission = Admission(source: string, at: Instant, window: nat)

  /** The window an arrival is counted in: a new one once a minute of the last has passed. */
  function NextWindow(start: Instant, window: nat, now: Instant): (Instant, nat) {
    if now - start >= WINDOW_MS then (now, window + 1) else (start, window)
  }

  class IngressQuota {
    var start: Instant
    var total: nat
    var counts: map<string, nat>
    ghost var window: nat
    ghost var ordered: bool
    ghost var starts: seq<Instant>
    ghost var admitted: seq<Admission>

    ghost predicate Valid()
      reads this
    {
      && History(starts, admitted) && (ordered ==> InOrder(starts, admitted)) && window + 1 == |starts|
      && start == starts[window]
      && total == |InWindow(admitted, window)| && Sum(counts) == total
      && Tallies(counts, admitted, window)
    }

    constructor (now: Instant)
      ensures Valid() && ordered && admitted == [] && start == now && window == 0
    {
      start, total, counts, window, ordered, starts, admitted := now, 0, map[], 0, true, [now], [];
      new;
      assert InWindow([], 0) == {};
      forall s ensures CountOf(counts, s) == |FromIn([], s, 0)| {
        assert FromIn([], s, 0) == {};
      }
    }

    /** Refuses exactly when the source or the gateway has used up its current window. */
    method AllowAt(source: string, now: Instant) returns (allowed: bool)
      requires Valid()
      modifies this
      ensures Valid() && start <= MaxOf(old(start), now)
      ensures ordered == (old(ordered) && old(start) <= now)
      ensures (start, window) == NextWindow(old(start), old(window), now)
      ensures allowed <==>
        |InWindow(old(admitted), window)| < TOTAL_LIMIT && |FromIn(old(admitted), source, window)| < SOURCE_LIMIT
      ensures admitted == if allowed then old(admitted) + [Admission(source, now, window)] else old(admitted)
    {
      hide History, InWindow, FromIn, InOrder, Sum, Tallies, CountOf;
      SumNothing();
      ordered := ordered && start <= now;
      if now - start >= WINDOW_MS {
        NewWindow(starts, admitted, now);
        StillInOrder(starts, admitted, now);
        start, total, counts, window, starts := now, 0, map[], window + 1, starts + [now];
      }
      TallyAt(counts, admitted, source, window);
      if total >= TOTAL_LIMIT || CountOf(counts, source) >= SOURCE_LIMIT {
        return false;
      }
      Admit(starts, admitted, Admission(source, now, window));
      AdmitInOrder(starts, admitted, Admission(source, now, window));
      SumAdds(counts, source);
      TallyAdds(counts, admitted, Admission(source, now, window));
      total := total + 1;
      counts := counts[source := CountOf(counts, source) + 1];
      admitted := admitted + [Admission(source, now, window)];
      return true;
    }
  }

  // ------------------------------------------------------------------
  // Windows and admissions
  // ------------------------------------------------------------------

  ghost function InWindow(admitted: seq<Admission>, window: nat): set<nat> {
    set i: nat | i < |admitted| && admitted[i].window == window
  }

  ghost function FromIn(admitted: seq<Admission>, source: string, window: nat): set<nat> {
    set i: nat | i < |admitted| && admitted[i].window == window && admitted[i].source == source
  }

  /** Windows start at least a minute apart, an admission falls before its own window's
      minute is over, and no window exceeds its limits. */
  ghost predicate History(starts: seq<Instant>, admitted: seq<Admission>) {
    && (forall i, j | 0 <= i < j < |starts| :: starts[i] + WINDOW_MS <= starts[j])
    && (forall i | 0 <= i < |admitted| ::
          admitted[i].window < |starts| && admitted[i].at < starts[admitted[i].window] + WINDOW_MS)
    && (forall w: nat | w < |starts| :: |InWindow(admitted, w)| <= TOTAL_LIMIT)
    && (forall w: nat, s | w < |starts| :: |FromIn(admitted, s, w)| <= SOURCE_LIMIT)
  }

  lemma NewWindow(starts: seq<Instant>, admitted: seq<Admission>, now: Instant)
    requires History(starts, admitted) && starts != [] && starts[|starts| - 1] + WINDOW_MS <= now
    ensures History(starts + [now], admitted)
    ensures |InWindow(admitted, |starts|)| == 0 && Tallies(map[], admitted, |starts|)
  {
    var w := |starts|;
    assert InWindow(admitted, w) == {};
    forall s ensures FromIn(admitted, s, w) == {} {
    }
    var starts' := starts + [now];
    forall i | 0 <= i < w ensures starts[i] + WINDOW_MS <= now {
      if i < w - 1 {
        assert starts[i] + WINDOW_MS <= starts[w - 1];
      }
    }
  }

  lemma Admit(starts: seq<Instant>, admitted: seq<Admission>, a: Admission)
    requires History(starts, admitted) && starts != [] && a.window == |starts| - 1
    requires a.at < starts[a.window] + WINDOW_MS
    requires |InWindow(admitted, a.window)| < TOTAL_LIMIT && |FromIn(admitted, a.source, a.window)| < SOURCE_LIMIT
    ensures History(starts, admitted + [a])
    ensures |InWindow(admitted + [a], a.window)| == |InWindow(admitted, a.window)| + 1
  {
    hide InWindow, FromIn;
    forall w: nat ensures |InWindow(admitted + [a], w)| == |InWindow(admitted, w)| + if w == a.window then 1 else 0 {
      WindowGains(admitted, a, w);
    }
    forall w: nat, s
      ensures |FromIn(admitted + [a], s, w)| == |FromIn(admitted, s, w)| + if w == a.window && s == a.source then 1
        else 0
    {
      SourceGains(admitted, a, s, w);
    }
  }

  lemma WindowGains(admitted: seq<Admission>, a: Admission, w: nat)
    ensures |InWindow(admitted + [a], w)| == |InWindow(admitted, w)| + if w == a.window then 1 else 0
  {
    assert InWindow(admitted + [a], w) == InWindow(admitted, w) + if w == a.window then {|admitted|} else {};
  }

  lemma SourceGains(admitted: seq<Admission>, a: Admission, s: string, w: nat)
    ensures |FromIn(admitted + [a], s, w)| == |FromIn(admitted, s, w)| + if w == a.window && s == a.source then 1 else 0
  {
    assert FromIn(admitted + [a], s, w) == FromIn(admitted, s, w) + if w == a.window && s == a.source
      then {|admitted|} else {};
  }

  /** The counts are those of the current window. */
  ghost predicate Tallies(counts: map<string, nat>, admitted: seq<Admission>, window: nat) {
    forall s :: CountOf(counts, s) == |FromIn(admitted, s, window)|
  }

  lemma TallyAt(counts: map<string, nat>, admitted: seq<Admission>, source: string, window: nat)
    ensures Tallies(counts, admitted, window) ==> CountOf(counts, source) == |FromIn(admitted, source, window)|
  {
    hide FromIn;
  }

  lemma TallyAdds(counts: map<string, nat>, admitted: seq<Admission>, a: Admission)
    requires Tallies(counts, admitted, a.window)
    ensures Tallies(counts[a.source := CountOf(counts, a.source) + 1], admitted + [a], a.window)
  {
    hide FromIn;
    forall s
      ensures CountOf(counts[a.source := CountOf(counts, a.source) + 1], s) == |FromIn(admitted + [a], s, a.window)|
    {
      SourceGains(admitted, a, s, a.window);
    }
  }

  lemma StillInOrder(starts: seq<Instant>, admitted: seq<Admission>, now: Instant)
    requires History(starts, admitted)
    ensures InOrder(starts, admitted) ==> InOrder(starts + [now], admitted)
  {
    hide InWindow, FromIn;
  }

  lemma AdmitInOrder(starts: seq<Instant>, admitted: seq<Admission>, a: Admission)
    ensures InOrder(starts, admitted) && a.window < |starts| && starts[a.window] <= a.at ==>
      InOrder(starts, admitted + [a])
  {
  }

  // ------------------------------------------------------------------
  // Any sliding minute
  // ------------------------------------------------------------------

  ghost function Sliding(admitted: seq<Admission>, after: Instant): set<nat> {
    set i: nat | i < |admitted| && after < admitted[i].at <= after + WINDOW_MS
  }

  ghost function SlidingFrom(admitted: seq<Admission>, source: string, after: Instant): set<nat> {
    set i: nat | i < |admitted| && admitted[i].source == source && after < admitted[i].at <= after + WINDOW_MS
  }

  /** No admission read the clock before the window it was counted in had started. */
  ghost predicate InOrder(starts: seq<Instant>, admitted: seq<Admission>) {
    forall i | 0 <= i < |admitted| && admitted[i].window < |starts| :: starts[admitted[i].window] <= admitted[i].at
  }

  /** A sliding minute meets at most two windows, and they are adjacent. */
  lemma TwoWindows(starts: seq<Instant>, admitted: seq<Admission>, after: Instant) returns (w: nat)
    requires History(starts, admitted) && InOrder(starts, admitted)
    ensures w < |starts| || Sliding(admitted, after) == {}
    ensures forall i | i in Sliding(admitted, after) :: admitted[i].window == w || admitted[i].window == w + 1
  {
    hide InWindow, FromIn;
    var s := Sliding(admitted, after);
    w := |starts|;
    if s != {} {
      w := LeastWindow(admitted, s);
      forall i | i in s ensures admitted[i].window == w || admitted[i].window == w + 1 {
        var j :| j in s && admitted[j].window == w;
        Spaced(starts, w, admitted[i].window);
      }
    }
  }

  lemma Spaced(starts: seq<Instant>, w: nat, v: nat)
    requires forall i, j | 0 <= i < j < |starts| :: starts[i] + WINDOW_MS <= starts[j]
    ensures w + 1 < v < |starts| ==> starts[w] + 2 * WINDOW_MS <= starts[v]
  {
    if w + 1 < v < |starts| {
      assert starts[w] + WINDOW_MS <= starts[w + 1];
    }
  }

  lemma LeastWindow(admitted: seq<Admission>, s: set<nat>) returns (w: nat)
    requires s != {} && forall i | i in s :: i < |admitted|
    ensures exists i :: i in s && admitted[i].window == w
    ensures forall i | i in s :: w <= admitted[i].window
    decreases |s|
  {
    var x :| x in s;
    w := admitted[x].window;
    var rest := s - {x};
    assert s == rest + {x};
    if rest != {} {
      var v := LeastWindow(admitted, rest);
      if v < w {
        w := v;
      }
    }
  }

  /** At most 240 admissions per source and 10,000 overall in any sliding minute. */
  lemma SlidingLimits(starts: seq<Instant>, admitted: seq<Admission>, source: string, after: Instant)
    requires History(starts, admitted) && InOrder(starts, admitted)
    ensures |SlidingFrom(admitted, source, after)| <= 240
    ensures |Sliding(admitted, after)| <= 10000
  {
    var w := TwoWindows(starts, admitted, after);
    WindowLimits(starts, admitted, source, w);
    WindowLimits(starts, admitted, source, w + 1);
    assert SlidingFrom(admitted, source, after) <= Sliding(admitted, after);
    SubsetSize(SlidingFrom(admitted, source, after), FromIn(admitted, source, w) + FromIn(admitted, source, w + 1));
    SubsetSize(Sliding(admitted, after), InWindow(admitted, w) + InWindow(admitted, w + 1));
  }

  lemma WindowLimits(starts: seq<Instant>, admitted: seq<Admission>, source: string, w: nat)
    requires History(starts, admitted)
    ensures |FromIn(admitted, source, w)| <= SOURCE_LIMIT && |InWindow(admitted, w)| <= TOTAL_LIMIT
  {
    if w >= |starts| {
      assert InWindow(admitted, w) == {};
      assert FromIn(admitted, source, w) == {};
    }
  }

  /** A browser connection as the accept loop sees it. */
  datatype Arrival = Arrival(source: string, at: Instant)

  /** No sliding minute holds more than 240 admissions of a source or 10,000 overall. */
  ghost predicate Limited(admitted: seq<Admission>) {
    forall source, after :: |SlidingFrom(admitted, source, after)| <= 240 && |Sliding(admitted, after)| <= 10000
  }

  lemma LimitsHold(starts: seq<Instant>, admitted: seq<Admission>)
    requires History(starts, admitted) && InOrder(starts, admitted)
    ensures Limited(admitted)
  {
    hide History, InOrder, Sliding, SlidingFrom;
    forall source, after
      ensures |SlidingFrom(admitted, source, after)| <= 240 && |Sliding(admitted, after)| <= 10000
    {
      SlidingLimits(starts, admitted, source, after);
    }
  }

  // ------------------------------------------------------------------
  // The accept loop
  // ------------------------------------------------------------------

  /** The window after the first `k` arrivals; it depends on their times only. */
  function WindowAfter(since: Instant, arrivals: seq<Arrival>, k: nat): (Instant, nat)
    requires k <= |arrivals|
  {
    if k == 0 then (since, 0)
    else
      var (start, window) := WindowAfter(since, arrivals, k - 1);
      NextWindow(start, window, arrivals[k - 1].at)
  }

  /** Arrival `i` as it is counted if it is admitted. */
  function Counted(since: Instant, arrivals: seq<Arrival>, i: nat): Admission
    requires i < |arrivals|
  {
    Admission(arrivals[i].source, arrivals[i].at, WindowAfter(since, arrivals, i + 1).1)
  }

  /** The accepted arrivals among the first `k`, in order. */
  function Log(since: Instant, arrivals: seq<Arrival>, accepted: seq<bool>, k: nat): seq<Admission>
    requires k <= |accepted| <= |arrivals|
  {
    if k == 0 then []
    else Log(since, arrivals, accepted, k - 1) + if accepted[k - 1] then [Counted(since, arrivals, k - 1)] else []
  }

  ghost function EarlierIn(since: Instant, arrivals: seq<Arrival>, accepted: seq<bool>, k: nat): set<nat>
    requires k < |arrivals| && k <= |accepted| <= |arrivals|
  {
    set i: nat | i < k && accepted[i]
      && Counted(since, arrivals, i).window == Counted(since, arrivals, k).window
  }

  ghost function EarlierFrom(since: Instant, arrivals: seq<Arrival>, accepted: seq<bool>, k: nat): set<nat>
    requires k < |arrivals| && k <= |accepted| <= |arrivals|
  {
    set i: nat | i < k && accepted[i]
      && Counted(since, arrivals, i).window == Counted(since, arrivals, k).window
      && arrivals[i].source == arrivals[k].source
  }

  /** Arrival `k` is accepted exactly when neither its source nor the gateway has used up
      the window it falls in. */
  ghost predicate Decided(since: Instant, arrivals: seq<Arrival>, accepted: seq<bool>, k: nat)
    requires k < |accepted| <= |arrivals|
  {
    accepted[k] <==>
      && |EarlierIn(since, arrivals, accepted, k)| < TOTAL_LIMIT
      && |EarlierFrom(since, arrivals, accepted, k)| < SOURCE_LIMIT
  }

  ghost function AcceptedIn(arrivals: seq<Arrival>, accepted: seq<bool>, after: Instant): set<nat>
    requires |accepted| == |arrivals|
  {
    set i: nat | i < |arrivals| && accepted[i] && after < arrivals[i].at <= after + WINDOW_MS
  }

  ghost function AcceptedFrom(arrivals: seq<Arrival>, accepted: seq<bool>, source: string, after: Instant): set<nat>
    requires |accepted| == |arrivals|
  {
    set i: nat | i < |arrivals| && accepted[i] && arrivals[i].source == source
      && after < arrivals[i].at <= after + WINDOW_MS
  }

  /** No sliding minute holds more than 240 accepted arrivals of a source or 10,000 overall. */
  ghost predicate WithinLimits(arrivals: seq<Arrival>, accepted: seq<bool>)
    requires |accepted| == |arrivals|
  {
    forall source, after ::
      |AcceptedFrom(arrivals, accepted, source, after)| <= 240 && |AcceptedIn(arrivals, accepted, after)| <= 10000
  }

  ghost function LoggedThat(log: seq<Admission>, p: Admission -> bool): set<nat> {
    set i: nat | i < |log| && p(log[i])
  }

  ghost function ArrivalsThat(since: Instant, arrivals: seq<Arrival>, accepted: seq<bool>, k: nat,
      p: Admission -> bool): set<nat>
    requires k <= |accepted| <= |arrivals|
  {
    set i: nat | i < k && accepted[i] && p(Counted(since, arrivals, i))
  }

  /** Counting in the log is counting accepted arrivals. */
  lemma {:induction false} LogCounts(since: Instant, arrivals: seq<Arrival>, accepted: seq<bool>, k: nat,
      p: Admission -> bool)
    requires k <= |accepted| <= |arrivals|
    ensures |LoggedThat(Log(since, arrivals, accepted, k), p)| == |ArrivalsThat(since, arrivals, accepted, k, p)|
  {
    hide Counted, LoggedThat, ArrivalsThat;
    if k == 0 {
      NoneThat(since, arrivals, accepted, p);
    } else {
      LogCounts(since, arrivals, accepted, k - 1, p);
      ArrivalsGrow(since, arrivals, accepted, k - 1, p);
      assert Log(since, arrivals, accepted, k - 1) + [] == Log(since, arrivals, accepted, k - 1);
      if accepted[k - 1] {
        LoggedGrow(Log(since, arrivals, accepted, k - 1), Counted(since, arrivals, k - 1), p);
      }
    }
  }

  lemma NoneThat(since: Instant, arrivals: seq<Arrival>, accepted: seq<bool>, p: Admission -> bool)
    requires |accepted| <= |arrivals|
    ensures LoggedThat([], p) == {} && ArrivalsThat(since, arrivals, accepted, 0, p) == {}
  {
  }

  lemma LoggedGrow(log: seq<Admission>, a: Admission, p: Admission -> bool)
    ensures |LoggedThat(log + [a], p)| == |LoggedThat(log, p)| + if p(a) then 1 else 0
  {
    assert LoggedThat(log + [a], p) == LoggedThat(log, p) + if p(a) then {|log|} else {};
  }

  lemma ArrivalsGrow(since: Instant, arrivals: seq<Arrival>, accepted: seq<bool>, k: nat, p: Admission -> bool)
    requires k < |accepted| <= |arrivals|
    ensures |ArrivalsThat(since, arrivals, accepted, k + 1, p)| ==
      |ArrivalsThat(since, arrivals, accepted, k, p)| + if accepted[k] && p(Counted(since, arrivals, k)) then 1 else 0
  {
    hide Counted;
    assert ArrivalsThat(since, arrivals, accepted, k + 1, p) == ArrivalsThat(since, arrivals, accepted, k, p) +
      if accepted[k] && p(Counted(since, arrivals, k)) then {k} else {};
  }

  lemma LogDecides(since: Instant, arrivals: seq<Arrival>, accepted: seq<bool>, k: nat)
    requires k < |arrivals| && k <= |accepted| <= |arrivals|
    ensures var log, w := Log(since, arrivals, accepted, k), Counted(since, arrivals, k).window;
      && |InWindow(log, w)| == |EarlierIn(since, arrivals, accepted, k)|
      && |FromIn(log, arrivals[k].source, w)| == |EarlierFrom(since, arrivals, accepted, k)|
  {
    var log, w := Log(since, arrivals, accepted, k), Counted(since, arrivals, k).window;
    var source := arrivals[k].source;
    var all, own := (a: Admission) => a.window == w, (a: Admission) => a.window == w && a.source == source;
    LogCounts(since, arrivals, accepted, k, all);
    LogCounts(since, arrivals, accepted, k, own);
    hide Log;
    assert LoggedThat(log, all) == InWindow(log, w) && LoggedThat(log, own) == FromIn(log, source, w);
    assert ArrivalsThat(since, arrivals, accepted, k, all) == EarlierIn(since, arrivals, accepted, k);
    assert ArrivalsThat(since, arrivals, accepted, k, own) == EarlierFrom(since, arrivals, accepted, k);
  }

  lemma LogLimits(since: Instant, arrivals: seq<Arrival>, accepted: seq<bool>)
    requires |accepted| == |arrivals| && Limited(Log(since, arrivals, accepted, |arrivals|))
    ensures WithinLimits(arrivals, accepted)
  {
    hide Sliding, SlidingFrom, Log, AcceptedFrom, AcceptedIn;
    forall source, after
      ensures |AcceptedFrom(arrivals, accepted, source, after)| <= 240
      ensures |AcceptedIn(arrivals, accepted, after)| <= 10000
    {
      LogSliding(since, arrivals, accepted, source, after);
    }
  }

  lemma LogSliding(since: Instant, arrivals: seq<Arrival>, accepted: seq<bool>, source: string, after: Instant)
    requires |accepted| == |arrivals|
    ensures var log := Log(since, arrivals, accepted, |arrivals|);
      && |Sliding(log, after)| == |AcceptedIn(arrivals, accepted, after)|
      && |SlidingFrom(log, source, after)| == |AcceptedFrom(arrivals, accepted, source, after)|
  {
    var log, n := Log(since, arrivals, accepted, |arrivals|), |arrivals|;
    var all := (a: Admission) => after < a.at <= after + WINDOW_MS;
    var own := (a: Admission) => a.source == source && after < a.at <= after + WINDOW_MS;
    LogCounts(since, arrivals, accepted, n, all);
    LogCounts(since, arrivals, accepted, n, own);
    hide Log;
    assert LoggedThat(log, all) == Sliding(log, after) && LoggedThat(log, own) == SlidingFrom(log, source, after);
    assert ArrivalsThat(since, arrivals, accepted, n, all) == AcceptedIn(arrivals, accepted, after);
    assert ArrivalsThat(since, arrivals, accepted, n, own) == AcceptedFrom(arrivals, accepted, source, after);
  }

  /** Earlier decisions do not depend on later ones. */
  lemma DecidedStays(since: Instant, arrivals: seq<Arrival>, accepted: seq<bool>, more: bool, k: nat)
    requires k < |accepted| < |arrivals|
    ensures Decided(since, arrivals, accepted + [more], k) <==> Decided(since, arrivals, accepted, k)
  {
    hide Counted;
    assert EarlierIn(since, arrivals, accepted + [more], k) == EarlierIn(since, arrivals, accepted, k);
    assert EarlierFrom(since, arrivals, accepted + [more], k) == EarlierFrom(since, arrivals, accepted, k);
  }

  lemma {:induction false} LogStays(since: Instant, arrivals: seq<Arrival>, accepted: seq<bool>, more: bool, k: nat)
    requires k <= |accepted| < |arrivals|
    ensures Log(since, arrivals, accepted + [more], k) == Log(since, arrivals, accepted, k)
  {
    hide Counted;
    if k > 0 {
      LogStays(since, arrivals, accepted, more, k - 1);
    }
  }

  lemma DecideNext(since: Instant, arrivals: seq<Arrival>, accepted: seq<bool>, more: bool)
    requires |accepted| < |arrivals| && forall k | 0 <= k < |accepted| :: Decided(since, arrivals, accepted, k)
    requires var log, a := Log(since, arrivals, accepted, |accepted|), Counted(since, arrivals, |accepted|);
      more <==> |InWindow(log, a.window)| < TOTAL_LIMIT && |FromIn(log, a.source, a.window)| < SOURCE_LIMIT
    ensures forall k | 0 <= k < |accepted + [more]| :: Decided(since, arrivals, accepted + [more], k)
    ensures Log(since, arrivals, accepted + [more], |accepted| + 1) ==
      Log(since, arrivals, accepted, |accepted|) + if more then [Counted(since, arrivals, |accepted|)] else []
  {
    hide Decided, InWindow, FromIn;
    var n := |accepted|;
    forall k | 0 <= k < n ensures Decided(since, arrivals, accepted + [more], k) {
      DecidedStays(since, arrivals, accepted, more, k);
    }
    LogStays(since, arrivals, accepted, more, n);
    LogDecides(since, arrivals, accepted + [more], n);
    LastDecided(since, arrivals, accepted + [more], n);
  }

  lemma LastDecided(since: Instant, arrivals: seq<Arrival>, accepted: seq<bool>, k: nat)
    requires k < |accepted| <= |arrivals|
    requires accepted[k] <==>
      && |EarlierIn(since, arrivals, accepted, k)| < TOTAL_LIMIT
      && |EarlierFrom(since, arrivals, accepted, k)| < SOURCE_LIMIT
    ensures Decided(since, arrivals, accepted, k)
  {
    hide EarlierIn, EarlierFrom;
  }

  /** The accept loop asks the quota one connection at a time, so the monotonic clock's
      readings are in order. Each arrival is decided by its window alone, the quota's log is
      the accepted arrivals, and no sliding minute exceeds its limits. */
  method AcceptLoop(since: Instant, arrivals: seq<Arrival>) returns (quota: IngressQuota, accepted: seq<bool>)
    requires forall i | 0 <= i < |arrivals| :: since <= arrivals[i].at
    requires forall i, j | 0 <= i < j < |arrivals| :: arrivals[i].at <= arrivals[j].at
    ensures fresh(quota) && quota.Valid() && quota.ordered
    ensures |accepted| == |arrivals| && forall k | 0 <= k < |arrivals| :: Decided(since, arrivals, accepted, k)
    ensures quota.admitted == Log(since, arrivals, accepted, |arrivals|)
    ensures WithinLimits(arrivals, accepted)
  {
    hide History, InOrder, InWindow, FromIn, Limited, Sum, Log, Decided, WithinLimits;
    quota := new IngressQuota(since);
    accepted := [];
    LogEmpty(since, arrivals);
    for k := 0 to |arrivals|
      invariant fresh(quota) && quota.Valid() && quota.ordered && |accepted| == k
      invariant quota.start <= if k == 0 then since else arrivals[k - 1].at
      invariant (quota.start, quota.window) == WindowAfter(since, arrivals, k)
      invariant forall i | 0 <= i < k :: Decided(since, arrivals, accepted, i)
      invariant quota.admitted == Log(since, arrivals, accepted, k)
    {
      var allowed := quota.AllowAt(arrivals[k].source, arrivals[k].at);
      DecideNext(since, arrivals, accepted, allowed);
      accepted := accepted + [allowed];
    }
    LimitsHold(quota.starts, quota.admitted);
    LogLimits(since, arrivals, accepted);
  }

  lemma LogEmpty(since: Instant, arrivals: seq<Arrival>)
    ensures Log(since, arrivals, [], 0) == []
  {
  }

  // ------------------------------------------------------------------
  // The limits are reached
  // ------------------------------------------------------------------

  /** `n` arrivals in the last millisecond of the first window and `n` in the first of the
      second, from one source or each from its own. */
  function Surge(n: nat, apart: bool): seq<Arrival> {
    seq(2 * n, i requires 0 <= i < 2 * n =>
      Arrival(if apart then seq(i, _ => 's') else "s", if i < n then WINDOW_MS - 1 else WINDOW_MS))
  }

  function AllAccepted(n: nat): seq<bool> {
    seq(n, _ => true)
  }

  lemma {:induction false} SurgeWindows(n: nat, apart: bool, k: nat)
    requires k <= 2 * n
    ensures WindowAfter(0, Surge(n, apart), k) == if k <= n then (0, 0) else (WINDOW_MS, 1)
  {
    if k > 0 {
      SurgeWindows(n, apart, k - 1);
    }
  }

  lemma SurgeDecided(n: nat, apart: bool, k: nat)
    requires k < 2 * n && n <= TOTAL_LIMIT && (apart || n <= SOURCE_LIMIT)
    ensures Decided(0, Surge(n, apart), AllAccepted(2 * n), k)
  {
    var arrivals, accepted := Surge(n, apart), AllAccepted(2 * n);
    var first := if k < n then 0 else n;
    forall i | 0 <= i <= k ensures Counted(0, arrivals, i).window == if i < n then 0 else 1 {
      SurgeWindows(n, apart, i + 1);
    }
    hide Counted;
    IntervalSize(first, k);
    SubsetSize(EarlierIn(0, arrivals, accepted, k), Interval(first, k));
    if apart {
      forall i | 0 <= i < k ensures arrivals[i].source != arrivals[k].source {
        assert |arrivals[i].source| == i && |arrivals[k].source| == k;
      }
      assert EarlierFrom(0, arrivals, accepted, k) == {};
    } else {
      SubsetSize(EarlierFrom(0, arrivals, accepted, k), Interval(first, k));
    }
  }

  /** 240 accepted arrivals of one source, and 10,000 of all, in one sliding minute. */
  lemma SlidingLimitsAreReached()
    ensures var arrivals, accepted := Surge(120, false), AllAccepted(240);
      && (forall k | 0 <= k < 240 :: Decided(0, arrivals, accepted, k))
      && |AcceptedFrom(arrivals, accepted, "s", 0)| == 240
    ensures var arrivals, accepted := Surge(5000, true), AllAccepted(10000);
      && (forall k | 0 <= k < 10000 :: Decided(0, arrivals, accepted, k))
      && |AcceptedIn(arrivals, accepted, 0)| == 10000
  {
    hide Decided;
    forall k | 0 <= k < 240 ensures Decided(0, Surge(120, false), AllAccepted(240), k) {
      SurgeDecided(120, false, k);
    }
    forall k | 0 <= k < 10000 ensures Decided(0, Surge(5000, true), AllAccepted(10000), k) {
      SurgeDecided(5000, true, k);
    }
    IntervalSize(0, 240);
    assert AcceptedFrom(Surge(120, false), AllAccepted(240), "s", 0) == Interval(0, 240);
    IntervalSize(0, 10000);
    assert AcceptedIn(Surge(5000, true), AllAccepted(10000), 0) == Interval(0, 10000);
  }
}
