/** The two sweeps: a selection, then one transaction per selected installation, with any
    transactions of other processes between them.
  */
module Sweeps {
  import opened Schema
  import T = Transactions
  import Fencing

  datatype Sweep = PendingSweep | ValueSweep

  /** The other transactions that commit before a sweep's next one, and the time of that one. */
  datatype Turn = Turn(others: seq<T.Action>, now: Instant)

  /** The rows a sweep selects and, when their own transaction runs, changes. */
  predicate Due(sweep: Sweep, row: Installation, now: Instant) {
    match sweep
    case PendingSweep => row.state.PendingDns? && row.createdAt < now - DAY_MS
    case ValueSweep => T.HasLapsed(row, now)
  }

  function SweepOne(sweep: Sweep, db: Db, id: Uuid, now: Instant): (Db, bool) {
    match sweep
    case PendingSweep => T.ExpirePendingAllocation(db, id, now)
    case ValueSweep => T.ExpireChallengeValues(db, id, now)
  }

  function After(db: Db, actions: seq<T.Action>): Db {
    if actions == [] then db else T.Step(After(db, actions[..|actions| - 1]), actions[|actions| - 1])
  }

  /** A sweep over `ids`, each in its own turn, with the number it changed. */
  function SweepAll(sweep: Sweep, db: Db, ids: seq<Uuid>, turns: seq<Turn>): (Db, nat)
    requires |turns| == |ids|
  {
    if ids == [] then (db, 0)
    else
      var n := |ids| - 1;
      var (db0, expired) := SweepAll(sweep, db, ids[..n], turns[..n]);
      var (db', changed) := SweepOne(sweep, After(db0, turns[n].others), ids[n], turns[n].now);
      (db', if changed then expired + 1 else expired)
  }

  /** The database in which the sweep's transaction on `ids[i]` runs. */
  function TurnDb(sweep: Sweep, db: Db, ids: seq<Uuid>, turns: seq<Turn>, i: nat): Db
    requires |turns| == |ids| && i < |ids|
  {
    After(SweepAll(sweep, db, ids[..i], turns[..i]).0, turns[i].others)
  }

  ghost predicate Distinct(ids: seq<Uuid>) {
    forall i, j | 0 <= i < j < |ids| :: ids[i] != ids[j]
  }

  // ------------------------------------------------------------------
  // The selection
  // ------------------------------------------------------------------

  predicate NoYounger(db: Db, a: Uuid, b: Uuid) {
    a in db.installations && b in db.installations ==> db.installations[a].createdAt <= db.installations[b].createdAt
  }

  /** The pending sweep takes the oldest first. */
  ghost predicate Oldest(db: Db, sweep: Sweep, ids: seq<Uuid>, rest: set<Uuid>) {
    sweep.PendingSweep? ==>
      && (forall i, j | 0 <= i < j < |ids| :: NoYounger(db, ids[i], ids[j]))
      && (forall i, id | 0 <= i < |ids| && id in rest :: NoYounger(db, ids[i], id))
  }

  /** `ids` are distinct due installations, the oldest first where that is asked for, and all
      of them unless the limit was hit. */
  ghost predicate Selected(db: Db, sweep: Sweep, ids: seq<Uuid>, limit: int, now: Instant) {
    && |ids| <= limit && Distinct(ids)
    && (forall id | id in ids :: id in db.installations && Due(sweep, db.installations[id], now))
    && (|ids| < limit ==> forall id | id in db.installations && Due(sweep, db.installations[id], now) :: id in ids)
    && Oldest(db, sweep, ids, set id | id in db.installations && Due(sweep, db.installations[id], now) && id !in ids)
  }

  lemma {:induction false} OldestOf(db: Db, todo: set<Uuid>) returns (id: Uuid)
    requires todo != {} && todo <= db.installations.Keys
    ensures id in todo && forall other | other in todo :: NoYounger(db, id, other)
    decreases |todo|
  {
    id :| id in todo;
    var rest := todo - {id};
    assert todo == rest + {id};
    if rest != {} {
      var least := OldestOf(db, rest);
      if !NoYounger(db, id, least) {
        id := least;
      }
    }
  }

  // ------------------------------------------------------------------
  // A sweep is a run of transactions
  // ------------------------------------------------------------------

  function SweepAction(sweep: Sweep, id: Uuid, now: Instant): T.Action {
    match sweep
    case PendingSweep => T.DoSweepPending(id, now)
    case ValueSweep => T.DoSweepValues(id, now)
  }

  /** All transactions of a sweep and of the others, in the order they commit. */
  function Interleaved(sweep: Sweep, ids: seq<Uuid>, turns: seq<Turn>): seq<T.Action>
    requires |turns| == |ids|
  {
    if ids == [] then []
    else
      var n := |ids| - 1;
      Interleaved(sweep, ids[..n], turns[..n]) + turns[n].others + [SweepAction(sweep, ids[n], turns[n].now)]
  }

  lemma {:induction false} AfterBoth(db: Db, a: seq<T.Action>, b: seq<T.Action>)
    ensures After(db, a + b) == After(After(db, a), b)
    decreases |b|
  {
    hide T.Step;
    if b == [] {
      assert a + b == a;
    } else {
      var n := |b| - 1;
      assert (a + b)[..|a + b| - 1] == a + b[..n];
      AfterBoth(db, a, b[..n]);
    }
  }

  lemma SweepOneSteps(sweep: Sweep, db: Db, id: Uuid, now: Instant)
    ensures After(db, [SweepAction(sweep, id, now)]) == SweepOne(sweep, db, id, now).0
  {
    hide T.ExpirePendingAllocation, T.ExpireChallengeValues;
    var a := [SweepAction(sweep, id, now)];
    assert a[..0] == [];
    assert After(db, a[..0]) == db;
  }

  /** So everything proved about runs of transactions holds of a sweep. */
  lemma {:induction false} SweepIsRun(sweep: Sweep, db: Db, ids: seq<Uuid>, turns: seq<Turn>)
    requires |turns| == |ids|
    ensures SweepAll(sweep, db, ids, turns).0 == After(db, Interleaved(sweep, ids, turns))
  {
    hide After, SweepOne, SweepAction;
    if ids == [] {
      AfterNothing(db);
    } else {
      var n := |ids| - 1;
      var before, own := Interleaved(sweep, ids[..n], turns[..n]), SweepAction(sweep, ids[n], turns[n].now);
      SweepIsRun(sweep, db, ids[..n], turns[..n]);
      AfterBoth(db, before, turns[n].others);
      AfterBoth(db, before + turns[n].others, [own]);
      SweepOneSteps(sweep, After(db, before + turns[n].others), ids[n], turns[n].now);
    }
  }

  lemma AfterNothing(db: Db)
    ensures After(db, []) == db
  {
  }

  // ------------------------------------------------------------------
  // What other transactions cannot undo
  // ------------------------------------------------------------------

  lemma {:induction false} AfterKeeps(db: Db, actions: seq<T.Action>)
    requires Fencing.Inv(db)
    ensures Fencing.Inv(After(db, actions))
  {
    hide Fencing.Inv, T.Step;
    if actions != [] {
      var n := |actions| - 1;
      AfterKeeps(db, actions[..n]);
      Fencing.StepAdvances(After(db, actions[..n]), actions[n]);
      Fencing.AdvanceKeepsInv(After(db, actions[..n]), After(db, actions), actions[n].id);
    }
  }

  /** An installation's age stays, and it never becomes pending again. */
  predicate Aged(row: Installation, row': Installation) {
    row'.createdAt == row.createdAt && (row'.state.PendingDns? ==> row.state.PendingDns?)
  }

  lemma {:induction false} AfterAges(db: Db, actions: seq<T.Action>, id: Uuid)
    requires Fencing.Inv(db) && id in db.installations
    ensures id in After(db, actions).installations
    ensures Aged(db.installations[id], After(db, actions).installations[id])
    ensures (forall a | a in actions :: a.id != id) ==> After(db, actions).installations[id] == db.installations[id]
  {
    hide Fencing.Inv, T.Step, Fencing.AuthorityOf, Fencing.RowInv;
    if actions != [] {
      var n := |actions| - 1;
      AfterAges(db, actions[..n], id);
      AfterKeeps(db, actions[..n]);
      Fencing.StepAdvances(After(db, actions[..n]), actions[n]);
      assert actions[n] in actions && forall a | a in actions[..n] :: a in actions;
    }
  }

  ghost predicate Untouched(turns: seq<Turn>, id: Uuid) {
    forall i, a | 0 <= i < |turns| && a in turns[i].others :: a.id != id
  }

  lemma {:induction false} InterleavedSpares(sweep: Sweep, ids: seq<Uuid>, turns: seq<Turn>, id: Uuid)
    requires |turns| == |ids| && Untouched(turns, id) && id !in ids
    ensures forall a | a in Interleaved(sweep, ids, turns) :: a.id != id
  {
    if ids != [] {
      var n := |ids| - 1;
      InterleavedSpares(sweep, ids[..n], turns[..n], id);
    }
  }

  /** An installation that neither the sweep nor another transaction touches stays as it is. */
  lemma SweepSpares(sweep: Sweep, db: Db, ids: seq<Uuid>, turns: seq<Turn>, id: Uuid)
    requires Fencing.Inv(db) && |turns| == |ids| && id in db.installations
    ensures id in SweepAll(sweep, db, ids, turns).0.installations
    ensures Aged(db.installations[id], SweepAll(sweep, db, ids, turns).0.installations[id])
    ensures Untouched(turns, id) && id !in ids ==>
      SweepAll(sweep, db, ids, turns).0.installations[id] == db.installations[id]
  {
    hide Fencing.Inv, SweepAll, After, Interleaved, Aged;
    SweepIsRun(sweep, db, ids, turns);
    AfterAges(db, Interleaved(sweep, ids, turns), id);
    if Untouched(turns, id) && id !in ids {
      InterleavedSpares(sweep, ids, turns, id);
    }
  }

  lemma SweepKeeps(sweep: Sweep, db: Db, ids: seq<Uuid>, turns: seq<Turn>)
    requires Fencing.Inv(db) && |turns| == |ids|
    ensures Fencing.Inv(SweepAll(sweep, db, ids, turns).0)
  {
    hide Fencing.Inv, SweepAll, After, Interleaved;
    SweepIsRun(sweep, db, ids, turns);
    AfterKeeps(db, Interleaved(sweep, ids, turns));
  }

  // ------------------------------------------------------------------
  // What a sweep does to each selected installation
  // ------------------------------------------------------------------

  /** What a sweep makes of a row that is due. */
  ghost predicate Swept(sweep: Sweep, row: Installation, row': Installation, now: Instant) {
    match sweep
    case PendingSweep => row'.state.Retired? && row'.generation == row.generation + 1
    case ValueSweep =>
      && row'.values == T.Live(row.values, now)
      && row'.state == row.state && row'.generation == row.generation
  }

  lemma SweepOneRow(sweep: Sweep, db: Db, id: Uuid, now: Instant)
    requires id in db.installations
    ensures var (db', changed) := SweepOne(sweep, db, id, now);
      && db'.installations == db.installations[id := db'.installations[id]]
      && changed == Due(sweep, db.installations[id], now)
      && if changed then Swept(sweep, db.installations[id], db'.installations[id], now) else db' == db
  {
    hide T.Live, T.HasLapsed;
  }

  /** Whatever commits in between, the sweep finds a selected installation again at its turn. If
      no other transaction touched it, it is then as it was selected, and what the sweep makes of
      it stays. */
  lemma {:induction false} SweepChanges(sweep: Sweep, db: Db, ids: seq<Uuid>, turns: seq<Turn>, i: nat)
    requires Fencing.Inv(db) && |turns| == |ids| && i < |ids| && ids[i] in db.installations
    ensures var before, final := TurnDb(sweep, db, ids, turns, i), SweepAll(sweep, db, ids, turns).0;
      && ids[i] in before.installations && ids[i] in final.installations
      && Aged(db.installations[ids[i]], before.installations[ids[i]])
      && var row, row' := before.installations[ids[i]], final.installations[ids[i]];
      && (sweep.PendingSweep? && Due(sweep, row, turns[i].now) ==> !row'.state.PendingDns?)
      && (!row.state.PendingDns? ==> !row'.state.PendingDns?)
      && (Distinct(ids) && Untouched(turns, ids[i]) ==>
            && row == db.installations[ids[i]]
            && if Due(sweep, row, turns[i].now) then Swept(sweep, row, row', turns[i].now) else row' == row)
  {
    hide Fencing.Inv, After, SweepOne, Due, Swept;
    var n, id := |ids| - 1, ids[i];
    if i == n {
      AtTurn(sweep, db, ids, turns);
      SweepOneRow(sweep, TurnDb(sweep, db, ids, turns, n), id, turns[n].now);
      var before, final := TurnDb(sweep, db, ids, turns, n), SweepAll(sweep, db, ids, turns).0;
      SweptEnds(sweep, before.installations[id], final.installations[id], turns[n].now);
    } else {
      SweepChanges(sweep, db, ids[..n], turns[..n], i);
      assert ids[..n][..i] == ids[..i] && turns[..n][..i] == turns[..i];
      AfterwardsAges(sweep, db, ids, turns, id);
    }
  }

  lemma SweptEnds(sweep: Sweep, row: Installation, row': Installation, now: Instant)
    ensures Swept(sweep, row, row', now) && (sweep.PendingSweep? || !row.state.PendingDns?) ==>
      !row'.state.PendingDns?
  {
  }

  /** The last turn begins with the installation no younger, and as it was if untouched. */
  lemma AtTurn(sweep: Sweep, db: Db, ids: seq<Uuid>, turns: seq<Turn>)
    requires Fencing.Inv(db) && |turns| == |ids| > 0 && ids[|ids| - 1] in db.installations
    ensures var id, before := ids[|ids| - 1], TurnDb(sweep, db, ids, turns, |ids| - 1);
      && id in before.installations && Aged(db.installations[id], before.installations[id])
      && (Distinct(ids) && Untouched(turns, id) ==> before.installations[id] == db.installations[id])
  {
    hide Fencing.Inv, SweepAll, After;
    var n, id := |ids| - 1, ids[|ids| - 1];
    SweepSpares(sweep, db, ids[..n], turns[..n], id);
    SweepKeeps(sweep, db, ids[..n], turns[..n]);
    AfterAges(SweepAll(sweep, db, ids[..n], turns[..n]).0, turns[n].others, id);
  }

  /** From one turn to the next an installation ages, and stays as it is if untouched. */
  lemma AfterwardsAges(sweep: Sweep, db: Db, ids: seq<Uuid>, turns: seq<Turn>, id: Uuid)
    requires Fencing.Inv(db) && |turns| == |ids| > 0 && id in db.installations
    ensures var n := |ids| - 1;
      var mid, final := SweepAll(sweep, db, ids[..n], turns[..n]).0, SweepAll(sweep, db, ids, turns).0;
      && id in mid.installations && id in final.installations
      && Aged(mid.installations[id], final.installations[id])
      && (ids[n] != id && Untouched(turns, id) ==> final.installations[id] == mid.installations[id])
  {
    hide Fencing.Inv, After, SweepOne, SweepAction;
    var n := |ids| - 1;
    var mid, own := SweepAll(sweep, db, ids[..n], turns[..n]).0, [SweepAction(sweep, ids[n], turns[n].now)];
    SweepSpares(sweep, db, ids[..n], turns[..n], id);
    SweepKeeps(sweep, db, ids[..n], turns[..n]);
    SweepOneSteps(sweep, After(mid, turns[n].others), ids[n], turns[n].now);
    AfterBoth(mid, turns[n].others, own);
    ActionId(sweep, ids[n], turns[n].now);
    AfterAges(mid, turns[n].others + own, id);
  }

  lemma ActionId(sweep: Sweep, id: Uuid, now: Instant)
    ensures SweepAction(sweep, id, now).id == id
  {
  }

  ghost function DueTurns(sweep: Sweep, db: Db, ids: seq<Uuid>, turns: seq<Turn>): set<nat>
    requires |turns| == |ids|
  {
    set i: nat | i < |ids| && DueAt(sweep, db, ids, turns, i)
  }

  /** Whether the installation is due when its turn comes. */
  ghost predicate DueAt(sweep: Sweep, db: Db, ids: seq<Uuid>, turns: seq<Turn>, i: nat)
    requires |turns| == |ids| && i < |ids|
  {
    var before := TurnDb(sweep, db, ids, turns, i);
    ids[i] in before.installations && Due(sweep, before.installations[ids[i]], turns[i].now)
  }

  /** The number reported is the number of selected installations that were due at their turn. */
  lemma {:induction false} SweepCounts(sweep: Sweep, db: Db, ids: seq<Uuid>, turns: seq<Turn>)
    requires Fencing.Inv(db) && |turns| == |ids| && forall i | 0 <= i < |ids| :: ids[i] in db.installations
    ensures SweepAll(sweep, db, ids, turns).1 == |DueTurns(sweep, db, ids, turns)|
  {
    hide Fencing.Inv, After, SweepOne, Due, Swept, DueAt;
    if ids == [] {
      assert DueTurns(sweep, db, ids, turns) == {};
    } else {
      var n := |ids| - 1;
      SweepCounts(sweep, db, ids[..n], turns[..n]);
      LastCounts(sweep, db, ids, turns);
      var before := DueTurns(sweep, db, ids[..n], turns[..n]);
      forall i: nat | i < n
        ensures DueAt(sweep, db, ids, turns, i) <==> DueAt(sweep, db, ids[..n], turns[..n], i)
      {
        SameTurn(sweep, db, ids, turns, i);
      }
      assert DueTurns(sweep, db, ids, turns) == if DueAt(sweep, db, ids, turns, n) then before + {n} else before;
    }
  }

  lemma LastCounts(sweep: Sweep, db: Db, ids: seq<Uuid>, turns: seq<Turn>)
    requires Fencing.Inv(db) && |turns| == |ids| > 0 && ids[|ids| - 1] in db.installations
    ensures var n := |ids| - 1;
      SweepAll(sweep, db, ids, turns).1 ==
        SweepAll(sweep, db, ids[..n], turns[..n]).1 + if DueAt(sweep, db, ids, turns, n) then 1 else 0
  {
    hide Fencing.Inv, After, SweepOne, Due, Swept;
    var n := |ids| - 1;
    AtTurn(sweep, db, ids, turns);
    SweepOneRow(sweep, TurnDb(sweep, db, ids, turns, n), ids[n], turns[n].now);
  }

  lemma SameTurn(sweep: Sweep, db: Db, ids: seq<Uuid>, turns: seq<Turn>, i: nat)
    requires |turns| == |ids| && i < |ids| - 1
    ensures var n := |ids| - 1;
      DueAt(sweep, db, ids, turns, i) <==> DueAt(sweep, db, ids[..n], turns[..n], i)
  {
    hide SweepAll, After, Due;
    var n := |ids| - 1;
    assert ids[..n][..i] == ids[..i] && turns[..n][..i] == turns[..i];
  }

  /** A sweep whose limit was not hit, and whose transactions start no earlier than its
      selection, misses nothing: an installation that was pending too long is no longer pending,
      whatever else happened, and one with lapsed values has none of them left unless another
      transaction touched it. */
  lemma SweepCompletes(db: Db, sweep: Sweep, ids: seq<Uuid>, limit: int, turns: seq<Turn>, now: Instant, id: Uuid)
    requires Fencing.Inv(db) && Selected(db, sweep, ids, limit, now) && |ids| < limit
    requires |turns| == |ids| && forall i | 0 <= i < |turns| :: now <= turns[i].now
    requires id in db.installations && Due(sweep, db.installations[id], now)
    ensures id in SweepAll(sweep, db, ids, turns).0.installations
    ensures sweep.PendingSweep? ==> !SweepAll(sweep, db, ids, turns).0.installations[id].state.PendingDns?
    ensures Untouched(turns, id) ==> !Due(sweep, SweepAll(sweep, db, ids, turns).0.installations[id], now)
  {
    hide SweepAll, Fencing.Inv, After;
    var i :| 0 <= i < |ids| && ids[i] == id;
    SweepChanges(sweep, db, ids, turns, i);
    DueStays(sweep, db.installations[id], now, turns[i].now);
  }

  lemma DueStays(sweep: Sweep, row: Installation, now: Instant, later: Instant)
    requires now <= later && Due(sweep, row, now)
    ensures Due(sweep, row, later)
  {
    if sweep.ValueSweep? {
      var v :| v in row.values && row.values[v] <= now;
      assert row.values[v] <= later;
    }
  }
}
