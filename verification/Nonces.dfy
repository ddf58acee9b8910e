/** Signed administration requests: a deadline the signer chose, checked on the server's
    clock, and a nonce recorded, and later pruned, on the database's clock.
  */
module Nonces {
  import opened Schema

  const MAX_DEADLINE_MS: int := 60000
  const RETENTION_MS: int := 300000

  /** How far, in whole milliseconds, the clocks and the delay between the check and the
      record may add up: the retention less the longest deadline, both bounds strict. */
  const MAX_DRIFT_MS: int := RETENTION_MS - MAX_DEADLINE_MS + 1

  /** A signed request; a valid signature binds all of it. */
  datatype Signed = Signed(installation: Uuid, nonce: string, deadline: Instant)

  datatype Key = Key(installation: Uuid, nonce: string)

  datatype Acceptance = Acceptance(request: Signed, verifiedAt: Instant, consumedAt: Instant)

  /** The nonce table, with every acceptance and the latest prune so far. */
  datatype Ledger = Ledger(table: map<Key, Instant>, accepted: seq<Acceptance>, prunedAt: Option<Instant>)

  predicate InTime(r: Signed, now: Instant) {
    now < r.deadline <= now + MAX_DEADLINE_MS
  }

  predicate NonceLength(nonce: string) {
    16 <= |nonce| <= 128
  }

  function Authorize(l: Ledger, r: Signed, verifiedAt: Instant, now: Instant): (Ledger, bool) {
    var key := Key(r.installation, r.nonce);
    if !InTime(r, verifiedAt) || !NonceLength(r.nonce) || key in l.table then (l, false)
    else (l.(table := l.table[key := now + RETENTION_MS], accepted := l.accepted + [Acceptance(r, verifiedAt, now)]),
      true)
  }

  /** Removes some of the expired nonces. */
  function Prune(l: Ledger, victims: set<Key>, now: Instant): Ledger {
    if exists k :: k in victims && k in l.table && l.table[k] >= now then l
    else l.(table := l.table - victims,
      prunedAt := Some(if l.prunedAt.Some? then MaxOf(l.prunedAt.value, now) else now))
  }

  class NonceStore {
    var table: map<Key, Instant>

    constructor ()
      ensures table == map[]
    {
      table := map[];
    }

    /** True for the first use of a nonce of acceptable length since it was last pruned. */
    method ConsumeNonce(installation: Uuid, nonce: string, now: Instant) returns (unused: bool)
      modifies this
      ensures unused == (16 <= |nonce| <= 128 && Key(installation, nonce) !in old(table))
      ensures table == if unused then old(table)[Key(installation, nonce) := now + RETENTION_MS] else old(table)
    {
      if |nonce| < 16 || |nonce| > 128 {
        return false;
      }
      unused := Key(installation, nonce) !in table;
      if unused {
        table := table[Key(installation, nonce) := now + RETENTION_MS];
      }
    }

    /** Verifies, then consumes; a request that fails the first check spends no nonce. */
    method AuthorizeAdmin(r: Signed, verifiedAt: Instant, now: Instant, ghost before: Ledger) returns (ok: bool)
      requires before.table == table
      modifies this
      ensures ok == Authorize(before, r, verifiedAt, now).1 && table == Authorize(before, r, verifiedAt, now).0.table
    {
      if r.deadline <= verifiedAt || r.deadline > verifiedAt + MAX_DEADLINE_MS {
        return false;
      }
      ok := ConsumeNonce(r.installation, r.nonce, now);
    }
  }

  /** A request is accepted exactly when its deadline is still to come and at most a minute away,
      its nonce is of 16 to 128 characters and not on record; the nonce is then on record for five
      minutes, and no other is touched. */
  lemma AuthorizeExact(l: Ledger, r: Signed, verifiedAt: Instant, now: Instant)
    ensures var (l', ok) := Authorize(l, r, verifiedAt, now);
      var key := Key(r.installation, r.nonce);
      && (ok <==>
            verifiedAt < r.deadline <= verifiedAt + 60000 && 16 <= |r.nonce| <= 128 && key !in l.table)
      && (!ok ==> l' == l)
      && (ok ==>
            && l'.table.Keys == l.table.Keys + {key} && l'.table[key] == now + 300000
            && (forall k | k in l.table :: l'.table[k] == l.table[k])
            && l'.accepted == l.accepted + [Acceptance(r, verifiedAt, now)] && l'.prunedAt == l.prunedAt)
  {
  }

  /** A prune removes only nonces that have expired. */
  lemma PruneExact(l: Ledger, victims: set<Key>, now: Instant)
    ensures var l' := Prune(l, victims, now);
      && l'.accepted == l.accepted && l'.table.Keys <= l.table.Keys
      && (forall k | k in l'.table :: l'.table[k] == l.table[k])
      && (forall k | k in l.table && k !in l'.table :: k in victims && l.table[k] < now)
      && ((forall k | k in victims && k in l.table :: l.table[k] < now) ==> l'.table.Keys == l.table.Keys - victims)
  {
  }

  // ------------------------------------------------------------------
  // Runs
  // ------------------------------------------------------------------

  datatype Event =
    | Submit(r: Signed, verifiedAt: Instant, now: Instant)
    | Clean(victims: set<Key>, now: Instant)

  function Next(l: Ledger, e: Event): Ledger {
    match e
    case Submit(r, verifiedAt, now) => Authorize(l, r, verifiedAt, now).0
    case Clean(victims, now) => Prune(l, victims, now)
  }

  /** The database runs at most `behind` behind the check that precedes a record, and no
      prune before the record runs more than `ahead` ahead of that check. */
  predicate Timely(l: Ledger, e: Event, ahead: int, behind: int) {
    e.Submit? ==> e.verifiedAt <= e.now + behind && (l.prunedAt.Some? ==> l.prunedAt.value <= e.verifiedAt + ahead)
  }

  ghost predicate IsRun(states: seq<Ledger>, events: seq<Event>, ahead: int, behind: int) {
    && |states| == |events| + 1 && states[0] == Ledger(map[], [], None)
    && forall i | 0 <= i < |events| ::
      states[i + 1] == Next(states[i], events[i]) && Timely(states[i], events[i], ahead, behind)
  }

  /** An accepted request's nonce is still recorded, or a prune's clock has passed its expiry. */
  ghost predicate AcceptanceOk(l: Ledger, a: Acceptance, behind: int) {
    && InTime(a.request, a.verifiedAt) && a.verifiedAt <= a.consumedAt + behind
    && (Key(a.request.installation, a.request.nonce) in l.table
        || (l.prunedAt.Some? && a.consumedAt + RETENTION_MS < l.prunedAt.value))
  }

  ghost predicate Inv(l: Ledger, behind: int) {
    && (forall i | 0 <= i < |l.accepted| :: AcceptanceOk(l, l.accepted[i], behind))
    && (forall i | 0 <= i < |l.accepted|
      && Key(l.accepted[i].request.installation, l.accepted[i].request.nonce) in l.table ::
          l.accepted[i].consumedAt +
            RETENTION_MS <= l.table[Key(l.accepted[i].request.installation, l.accepted[i].request.nonce)]
          || (l.prunedAt.Some? && l.accepted[i].consumedAt + RETENTION_MS < l.prunedAt.value))
    && (forall i, j | 0 <= i < j < |l.accepted| :: l.accepted[i].request != l.accepted[j].request)
  }

  lemma SubmitKeeps(l: Ledger, e: Event, ahead: int, behind: int)
    requires Inv(l, behind) && e.Submit? && Timely(l, e, ahead, behind) && ahead + behind <= MAX_DRIFT_MS
    ensures Inv(Next(l, e), behind)
  {
    var l' := Next(l, e);
    if l' != l {
      forall i | 0 <= i < |l.accepted| ensures l.accepted[i].request != e.r {
        assert AcceptanceOk(l, l.accepted[i], behind);
      }
      forall i | 0 <= i < |l'.accepted| ensures AcceptanceOk(l', l'.accepted[i], behind) {
        if i < |l.accepted| {
          assert AcceptanceOk(l, l.accepted[i], behind);
        }
      }
    }
  }

  lemma CleanKeeps(l: Ledger, e: Event, behind: int)
    requires Inv(l, behind) && e.Clean?
    ensures Inv(Next(l, e), behind)
  {
    var l' := Next(l, e);
    forall i | 0 <= i < |l'.accepted| ensures AcceptanceOk(l', l'.accepted[i], behind) {
      assert AcceptanceOk(l, l.accepted[i], behind);
    }
  }

  lemma {:induction false} RunInv(states: seq<Ledger>, events: seq<Event>, ahead: int, behind: int, n: nat)
    requires IsRun(states, events, ahead, behind) && ahead + behind <= MAX_DRIFT_MS && n < |states|
    ensures Inv(states[n], behind)
  {
    hide Next, Timely;
    if n > 0 {
      RunInv(states, events, ahead, behind, n - 1);
      hide Inv;
      if events[n - 1].Submit? {
        SubmitKeeps(states[n - 1], events[n - 1], ahead, behind);
      } else {
        CleanKeeps(states[n - 1], events[n - 1], behind);
      }
    }
  }

  /** Despite pruning, no signed request is accepted twice while clocks and delays add up
      to at most 240 seconds and a millisecond. */
  lemma AcceptedOnce(states: seq<Ledger>, events: seq<Event>, ahead: int, behind: int, n: nat, i: nat, j: nat)
    requires IsRun(states, events, ahead, behind) && ahead + behind <= 240001 && n < |states|
    requires i < |states[n].accepted| && j < |states[n].accepted|
    requires states[n].accepted[i].request == states[n].accepted[j].request
    ensures i == j
  {
    RunInv(states, events, ahead, behind, n);
  }

  /** One millisecond more, however it is divided, and a request can be accepted twice. */
  lemma DriftIsTight(ahead: int, behind: int, installation: Uuid, nonce: string)
    returns (states: seq<Ledger>, events: seq<Event>)
    requires ahead + behind == 240002 && NonceLength(nonce)
    ensures IsRun(states, events, ahead, behind) && |events| == 3
    ensures |states[3].accepted| == 2 && states[3].accepted[0].request == states[3].accepted[1].request
  {
    var r, key := Signed(installation, nonce, MAX_DEADLINE_MS), Key(installation, nonce);
    var consumed := -behind;
    var prune := consumed + RETENTION_MS + 1;
    var again := MAX_DEADLINE_MS - 1;
    var first := Submit(r, 0, consumed);
    var clean := Clean({key}, prune);
    var second := Submit(r, again, again - behind);
    var l0 := Ledger(map[], [], None);
    var l1 := Ledger(map[key := consumed + RETENTION_MS], [Acceptance(r, 0, consumed)], None);
    var l2 := Ledger(map[], [Acceptance(r, 0, consumed)], Some(prune));
    var l3 := Next(l2, second);
    assert Next(l0, first) == l1;
    assert Next(l1, clean).table == map[];
    states, events := [l0, l1, l2, l3], [first, clean, second];
  }
}
