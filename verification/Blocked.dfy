/** When reconciliation cannot finish: a live installation whose placement's address list
    publication refuses. The environment accepts up to eight entries, repeats included;
    publication takes one to four.
  */
module Blocked {
  import opened Schema
  import opened Transactions
  import opened Reconcile
  import opened Convergence
  import Fencing

  // ------------------------------------------------------------------
  // A publication that cannot complete
  // ------------------------------------------------------------------

  /** An attempt whose provider call has already succeeded, or that needed none. */
  predicate Past(phase: Phase) {
    phase == Done(true) || (phase.Publish? && !phase.progress.Writing?)
  }

  /** An incomplete publication that no attempt has carried past its provider call. */
  predicate HeldBack(row: Installation, site: Site, job: nat) {
    && job in row.jobs && row.jobs[job] == Job(PublishName, false)
    && !(site.holder.Some? && site.holder.value.job == job && Past(site.holder.value.phase))
  }

  ghost predicate BlockedAt(s: System, id: Uuid) {
    && id in s.sites && id in s.db.installations && !Serviceable(s.db.installations[id], s.ingress)
    && exists job :: HeldBack(s.db.installations[id], s.sites[id], job)
  }

  /** No worker move gets such a publication past its provider call. */
  lemma MoveHoldsBack(db: Db, id: Uuid, site: Site, ingress: Ingress, m: Move, job: nat)
    requires id in db.installations && Coherent(db.installations[id], site, ingress)
    requires !Serviceable(db.installations[id], ingress)
    requires Enabled(db.installations[id], site, ingress, m) && HeldBack(db.installations[id], site, job)
    ensures site.holder.Some? || !(m.Mark? || m.RecordOutcome?)
    ensures id in MoveDb(db, id, site, m).installations
    ensures var row' := MoveDb(db, id, site, m).installations[id];
      HeldBack(row', MoveSite(db.installations[id], site, ingress, m), job) && !Serviceable(row', ingress)
  {
    hide Coherent, Serviceable, HeldBack, Enabled, MoveSite;
    if m.Mark? || m.RecordOutcome? {
      RecordHoldsBack(db, id, site, ingress, m, job);
    } else {
      ProviderHoldsBack(db.installations[id], site, ingress, m, job);
    }
  }

  lemma RecordHoldsBack(db: Db, id: Uuid, site: Site, ingress: Ingress, m: Move, job: nat)
    requires id in db.installations && Coherent(db.installations[id], site, ingress) && (m.Mark? || m.RecordOutcome?)
    requires !Serviceable(db.installations[id], ingress)
    requires Enabled(db.installations[id], site, ingress, m) && HeldBack(db.installations[id], site, job)
    ensures site.holder.Some? && id in MoveDb(db, id, site, m).installations
    ensures var row' := MoveDb(db, id, site, m).installations[id];
      HeldBack(row', MoveSite(db.installations[id], site, ingress, m), job) && !Serviceable(row', ingress)
  {
    hide Desired, ValidTarget, ReadinessOk, WakeUps, Publishable, KnownAccount, PartialWrite, Justified;
  }

  lemma ProviderHoldsBack(row: Installation, site: Site, ingress: Ingress, m: Move, job: nat)
    requires Coherent(row, site, ingress) && !(m.Mark? || m.RecordOutcome?) && !Serviceable(row, ingress)
    requires Enabled(row, site, ingress, m) && HeldBack(row, site, job)
    ensures HeldBack(row, MoveSite(row, site, ingress, m), job)
  {
    hide Desired, ValidTarget, ReadinessOk, WakeUps, Publishable, KnownAccount, PartialWrite, Justified;
  }

  // ------------------------------------------------------------------
  // Every reachable installation that cannot be serviced is blocked
  // ------------------------------------------------------------------

  predicate NewPublication(row: Installation, row': Installation, job: nat) {
    job !in row.jobs && job in row'.jobs && row'.jobs[job] == Job(PublishName, false)
  }

  /** A transaction drops and completes no job, and queues a publication whenever it changes
      what has to be published. */
  ghost predicate Grown(row: Installation, row': Installation) {
    && (forall j | j in row.jobs :: j in row'.jobs && row'.jobs[j] == row.jobs[j])
    && (row.state.Retired? ==> row'.state.Retired?)
    && ((row'.account == row.account && row'.placement == row.placement) || exists job ::
      NewPublication(row, row', job))
  }

  lemma EnsureGrows(db: Db, id: Uuid, g: nat, v: string, now: Instant)
    requires id in db.installations && Fencing.JobsInv(db.installations[id], db.nextJob)
    ensures var db' := EnsureChallengeValue(db, id, g, v, now).db;
      id in db'.installations && Grown(db.installations[id], db'.installations[id])
  {
    hide ValidChallengeValue, ChallengeBearer, Live, AddValueRow, Grown;
    var row := db.installations[id];
    AddedGrows(row, v, now, db.nextJob);
    RefreshedGrows(row, v, now);
    SameGrows(row, row);
  }

  lemma AddedGrows(row: Installation, v: string, now: Instant, job: nat)
    requires job !in row.jobs
    ensures Grown(row, AddValueRow(row, v, now, job))
  {
    hide Live;
  }

  lemma RefreshedGrows(row: Installation, v: string, now: Instant)
    ensures Grown(row, RefreshRow(WithChallengeState(row), v, now))
  {
  }

  lemma SweepGrows(db: Db, id: Uuid, now: Instant)
    requires id in db.installations && Fencing.JobsInv(db.installations[id], db.nextJob)
    ensures var db' := ExpireChallengeValues(db, id, now).0;
      id in db'.installations && Grown(db.installations[id], db'.installations[id])
    ensures var db' := ExpirePendingAllocation(db, id, now).0;
      id in db'.installations && Grown(db.installations[id], db'.installations[id])
  {
    hide Live, HasLapsed;
  }

  lemma RetireGrows(db: Db, id: Uuid, op: Uuid, now: Instant)
    requires id in db.installations && Fencing.JobsInv(db.installations[id], db.nextJob)
    ensures var db' := Retire(db, id, op, now).db;
      id in db'.installations && Grown(db.installations[id], db'.installations[id])
  {
  }

  lemma RelocateGrows(db: Db, id: Uuid, op: Uuid, placement: string, now: Instant)
    requires id in db.installations && Fencing.JobsInv(db.installations[id], db.nextJob)
    ensures var db' := Relocate(db, id, op, placement, now).db;
      id in db'.installations && Grown(db.installations[id], db'.installations[id])
  {
    hide ValidPlacement;
    var row, row' := db.installations[id], Relocate(db, id, op, placement, now).db.installations[id];
    if row'.placement != row.placement {
      assert NewPublication(row, row', db.nextJob);
    }
  }

  lemma RegisterGrows(db: Db, environment: AcmeEnvironment, id: Uuid, account: string)
    requires id in db.installations && Fencing.JobsInv(db.installations[id], db.nextJob)
    ensures var db' := RegisterAcmeAccount(db, environment, id, account).db;
      id in db'.installations && Grown(db.installations[id], db'.installations[id])
  {
    hide ValidAccountUri;
    var row, row' := db.installations[id], RegisterAcmeAccount(db, environment, id, account).db.installations[id];
    if row'.account != row.account {
      assert NewPublication(row, row', db.nextJob);
    }
  }

  lemma TransactGrows(db: Db, a: Action)
    requires Fencing.Inv(db) && !WorkerOnly(a) && a.id in db.installations
    ensures a.id in Step(db, a).installations && Grown(db.installations[a.id], Step(db, a).installations[a.id])
  {
    hide Fencing.Inv, Fencing.BearersInv, Fencing.LeaseInv, Fencing.ChallengeInv, Fencing.JobsInv, Grown;
    Fencing.RowAt(db, a.id);
    hide Allocate, EnsureChallengeValue, ExpireChallengeValues, ExpirePendingAllocation, Retire, Relocate,
      RegisterAcmeAccount,
      IssueBearer, RenewBearer, ClaimTunnel, RenewTunnel;
    SameGrows(db.installations[a.id], db.installations[a.id]);
    if a.DoAllocate? {
      AllocateElsewhere(db, a);
    } else if a.DoEnsure? {
      EnsureGrows(db, a.id, a.generation, a.value, a.now);
    } else if a.DoSweepValues? || a.DoSweepPending? {
      SweepGrows(db, a.id, a.now);
    } else if a.DoRetire? {
      RetireGrows(db, a.id, a.op, a.now);
    } else if a.DoRelocate? {
      RelocateGrows(db, a.id, a.op, a.placement, a.now);
    } else if a.DoRegister? {
      RegisterGrows(db, a.environment, a.id, a.account);
    } else {
      CredentialsGrow(db, a);
    }
  }

  lemma CredentialsGrow(db: Db, a: Action)
    requires (a.DoIssue? || a.DoRenew? || a.DoClaim? || a.DoRenewTunnel?) && a.id in db.installations
    ensures a.id in Step(db, a).installations && Grown(db.installations[a.id], Step(db, a).installations[a.id])
  {
    hide Step, Grown, SameDns;
    CredentialsApart(db, a);
    SameGrows(db.installations[a.id], Step(db, a).installations[a.id]);
  }

  lemma SameGrows(row: Installation, row': Installation)
    ensures SameDns(row, row') ==> Grown(row, row')
    ensures row == row' ==> Grown(row, row')
  {
  }

  /** After a transaction that leaves or makes the installation unserviceable, a publication
      is held back: the one that was, or the one just queued. */
  lemma GrownHoldsBack(row: Installation, row': Installation, site: Site, ingress: Ingress)
    requires LocksOk(row, site) && Grown(row, row') && !Serviceable(row', ingress)
    requires !Serviceable(row, ingress) ==> exists job :: HeldBack(row, site, job)
    ensures exists job :: HeldBack(row', site, job)
  {
    hide Publishable;
    if row'.account == row.account && row'.placement == row.placement {
      var job :| HeldBack(row, site, job);
      assert HeldBack(row', site, job);
    } else {
      var job :| NewPublication(row, row', job);
      assert HeldBack(row', site, job);
    }
  }

  ghost predicate BlockedInv(s: System) {
    forall id | id in s.sites && id in s.db.installations && !Serviceable(s.db.installations[id], s.ingress) ::
      BlockedAt(s, id)
  }

  lemma CoherentLocks(row: Installation, site: Site, ingress: Ingress)
    requires Coherent(row, site, ingress)
    ensures LocksOk(row, site)
  {
    hide HolderOk, WakeUps, ReadinessOk;
  }

  lemma TransactKeepsBlocked(s: System, a: Action)
    requires Inv(s) && BlockedInv(s) && CanStep(s, Transact(a))
    ensures BlockedInv(TakeStep(s, Transact(a)))
  {
    hide Inv, Step, Coherent, Enabled, MoveSite, MoveDb, Fencing.Inv, Fencing.Advance, Serviceable, LocksOk, HeldBack,
      Grown;
    InvParts(s);
    var s' := TakeStep(s, Transact(a));
    Fencing.StepAdvances(s.db, a);
    Elsewhere(s.db, s'.db, a.id);
    forall id | id in s'.sites && id in s'.db.installations && !Serviceable(s'.db.installations[id], s'.ingress)
      ensures BlockedAt(s', id)
    {
      if id == a.id && id in s.sites {
        InvAt(s, id);
        TransactGrows(s.db, a);
        CoherentLocks(s.db.installations[id], s.sites[id], s.ingress);
        GrownHoldsBack(s.db.installations[id], s'.db.installations[id], s.sites[id], s.ingress);
      } else if id == a.id {
        AllocatedServiceable(s.db, a, s.ingress);
      } else {
        assert BlockedAt(s, id);
      }
    }
  }

  lemma AllocatedServiceable(db: Db, a: Action, ingress: Ingress)
    requires a.id !in db.installations
    ensures a.id in Step(db, a).installations ==> Serviceable(Step(db, a).installations[a.id], ingress)
  {
    hide Publishable, ValidPlacement;
  }

  lemma WorkKeepsBlocked(s: System, id: Uuid, m: Move)
    requires Inv(s) && BlockedAt(s, id) && CanStep(s, Work(id, m))
    ensures BlockedAt(TakeStep(s, Work(id, m)), id)
  {
    hide Inv, Coherent, MoveSite, MoveDb, Fencing.Inv, Fencing.RowInv, Enabled, Serviceable, HeldBack;
    InvAt(s, id);
    var job :| HeldBack(s.db.installations[id], s.sites[id], job);
    MoveHoldsBack(s.db, id, s.sites[id], s.ingress, m, job);
  }

  /** A worker move changes neither what has to be published nor another installation. */
  lemma MoveServiceable(s: System, id: Uuid, m: Move)
    requires Inv(s) && CanStep(s, Work(id, m)) && id in s.db.installations
    ensures var s' := TakeStep(s, Work(id, m));
      && s'.ingress == s.ingress && s'.sites.Keys == s.sites.Keys && s'.db.installations.Keys == s.db.installations.Keys
      && (Serviceable(s'.db.installations[id], s.ingress) <==> Serviceable(s.db.installations[id], s.ingress))
      && (forall i | i in s.sites && i != id :: s'.sites[i] == s.sites[i])
      && (forall i | i in s.db.installations && i != id :: s'.db.installations[i] == s.db.installations[i])
  {
    hide Inv, Coherent, MoveSite, Enabled, Publishable;
    HolderNeeded(s.db.installations[id], s.sites[id], s.ingress, m);
  }

  lemma WorkKeepsBlockedInv(s: System, id: Uuid, m: Move)
    requires Inv(s) && BlockedInv(s) && CanStep(s, Work(id, m))
    ensures BlockedInv(TakeStep(s, Work(id, m)))
  {
    hide Inv, Coherent, Enabled, Serviceable, HeldBack, TakeStep;
    InvParts(s);
    MoveServiceable(s, id, m);
    var s' := TakeStep(s, Work(id, m));
    forall i | i in s'.sites && i in s'.db.installations && !Serviceable(s'.db.installations[i], s'.ingress)
      ensures BlockedAt(s', i)
    {
      if i == id {
        WorkKeepsBlocked(s, id, m);
      } else {
        assert BlockedAt(s, i);
      }
    }
  }

  lemma {:induction false} RunBlocked(states: seq<System>, steps: seq<SystemStep>, i: nat)
    requires IsRun(states, steps) && i < |states|
    ensures BlockedInv(states[i])
  {
    hide Inv, CanStep, TakeStep, BlockedAt;
    if i > 0 {
      RunBlocked(states, steps, i - 1);
      RunInv(states, steps, i - 1);
      hide BlockedInv;
      match steps[i - 1]
      case Transact(a) => TransactKeepsBlocked(states[i - 1], a);
      case Work(id, m) => WorkKeepsBlockedInv(states[i - 1], id, m);
    }
  }

  // ------------------------------------------------------------------
  // Exactly when reconciliation can finish
  // ------------------------------------------------------------------

  lemma {:induction false} DriveStaysBlocked(s: System, id: Uuid, moves: seq<Move>)
    requires Inv(s) && BlockedAt(s, id)
    ensures Drive(s, id, moves).Some? ==> BlockedAt(Drive(s, id, moves).value, id)
    decreases |moves|
  {
    hide Inv, BlockedAt, CanStep, TakeStep;
    if moves != [] && CanStep(s, Work(id, moves[0])) {
      WorkKeepsBlocked(s, id, moves[0]);
      WorkKeepsInv(s, id, moves[0]);
      DriveStaysBlocked(TakeStep(s, Work(id, moves[0])), id, moves[1..]);
    }
  }

  /** The schedule runs, and then the outbox is empty and DNS is what the rows call for. */
  ghost predicate Converges(s: System, id: Uuid, moves: seq<Move>) {
    && Drive(s, id, moves).Some?
    && var s' := Drive(s, id, moves).value;
    && id in s'.sites && id in s'.db.installations && Quiet(s'.db.installations[id])
    && s'.sites[id].serving == DesiredServing(s'.db.installations[id], s.ingress)
    && s'.sites[id].txt == DesiredTxt(s'.db.installations[id])
  }

  lemma BlockedNeverQuiet(s: System, id: Uuid)
    requires BlockedAt(s, id)
    ensures !Quiet(s.db.installations[id])
  {
  }

  /** From any reachable state the workers can finish exactly when the installation is
      retired, has no account, or has a placement with a publishable address list. */
  lemma ConvergesExactly(states: seq<System>, steps: seq<SystemStep>, i: nat, id: Uuid)
    requires IsRun(states, steps) && i < |states| && id in states[i].sites && id in states[i].db.installations
    ensures (exists moves :: Converges(states[i], id, moves)) <==>
      Serviceable(states[i].db.installations[id], states[i].ingress)
  {
    hide Inv, BlockedAt, CanStep, TakeStep, Serviceable, Drive;
    var s := states[i];
    RunInv(states, steps, i);
    if Serviceable(s.db.installations[id], s.ingress) {
      var moves, _ := CanAlwaysConverge(states, steps, i, id);
      assert Converges(s, id, moves);
    } else {
      RunBlocked(states, steps, i);
      forall moves ensures !Converges(s, id, moves) {
        DriveStaysBlocked(s, id, moves);
        if Drive(s, id, moves).Some? && BlockedAt(Drive(s, id, moves).value, id) {
          BlockedNeverQuiet(Drive(s, id, moves).value, id);
        }
      }
    }
  }

  /** And no schedule spoils it: whatever the workers have done so far, they can still finish. */
  lemma AnyScheduleCanStillConverge(states: seq<System>, steps: seq<SystemStep>, i: nat, id: Uuid, moves: seq<Move>)
    returns (more: seq<Move>)
    requires IsRun(states, steps) && i < |states| && id in states[i].sites && id in states[i].db.installations
    requires Serviceable(states[i].db.installations[id], states[i].ingress) && Drive(states[i], id, moves).Some?
    ensures Converges(states[i], id, moves + more)
  {
    hide Inv, CanStep, TakeStep, Serviceable, IsRun, Drive, DesiredServing, DesiredTxt;
    RunInv(states, steps, i);
    DriveSettles(states[i], id, moves);
    var s := Drive(states[i], id, moves).value;
    var s': System;
    more, s' := CanConverge(s, id);
    DriveOn(states[i], id, moves, more);
  }

  // ------------------------------------------------------------------
  // Refused address lists
  // ------------------------------------------------------------------

  /** A placement configured with a list that publication refuses: once an account is bound,
      no schedule of the workers ever finishes. */
  lemma RefusedListNeverConverges(list: seq<string>) returns (states: seq<System>, steps: seq<SystemStep>)
    requires !(1 <= |list| <= 4)
    ensures IsRun(states, steps) && |states| == 3 && states[2].ingress == map["p" := list]
    ensures 7 in states[2].sites && 7 in states[2].db.installations
    ensures forall moves :: !Converges(states[2], 7, moves)
  {
    var ingress: Ingress := map["p" := list];
    hide CanStep, TakeStep, StateWith, Converges, Serviceable, ValidAccountUri;
    RaceAccounts();
    RaceBegins(ingress);
    RaceRegisters(ingress, None, OLD_ACCOUNT, ONE_JOB, 1, 2, NEW_SITE);
    states, steps := [System(Db(map[], map[], 0, 1), map[], ingress)], [];
    StartsEmpty(ingress);
    assert IsRun(states, steps);
    hide IsRun;
    states, steps := Extend(states, steps, Transact(DoAllocate(3, "k", "p", 7, RaceLabel(), 0)));
    states, steps := Extend(states, steps, Transact(DoRegister(Production, 7, OLD_ACCOUNT)));
    RefusedUnserviceable(list);
    ConvergesExactly(states, steps, 2, 7);
  }

  lemma StartsEmpty(ingress: Ingress)
    ensures EmptyDb(System(Db(map[], map[], 0, 1), map[], ingress).db)
  {
  }

  lemma RefusedUnserviceable(list: seq<string>)
    requires !(1 <= |list| <= 4)
    ensures var s := StateWith(map["p" := list], Some(OLD_ACCOUNT), PendingDns, TWO_JOBS, 2, 3, NEW_SITE);
      7 in s.sites && 7 in s.db.installations && s.ingress == map["p" := list]
        && !Serviceable(s.db.installations[7], s.ingress)
  {
  }

  /** Five different addresses. */
  lemma FiveAddressesNeverConverge() returns (states: seq<System>, steps: seq<SystemStep>)
    ensures IsRun(states, steps) && |states| == 3 && 7 in states[2].sites
    ensures Addresses(states[2].ingress, "p") == {"192.0.2.1", "192.0.2.2", "192.0.2.3", "192.0.2.4", "192.0.2.5"}
    ensures forall moves :: !Converges(states[2], 7, moves)
  {
    hide IsRun, Converges;
    var list := ["192.0.2.1", "192.0.2.2", "192.0.2.3", "192.0.2.4", "192.0.2.5"];
    states, steps := RefusedListNeverConverges(list);
    assert AddressList(states[2].ingress, "p") == list;
    assert list[0] in list && list[1] in list && list[2] in list && list[3] in list && list[4] in list;
  }

  /** One address, five times: the entries are counted, not the addresses. */
  lemma RepeatedAddressNeverConverges() returns (states: seq<System>, steps: seq<SystemStep>)
    ensures IsRun(states, steps) && |states| == 3 && 7 in states[2].sites
    ensures Addresses(states[2].ingress, "p") == {"192.0.2.1"}
    ensures forall moves :: !Converges(states[2], 7, moves)
  {
    hide IsRun, Converges;
    var list := ["192.0.2.1", "192.0.2.1", "192.0.2.1", "192.0.2.1", "192.0.2.1"];
    states, steps := RefusedListNeverConverges(list);
    assert AddressList(states[2].ingress, "p") == list && list[0] in list;
  }
}
