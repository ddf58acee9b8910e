/** Reconciliation is never stuck: from every reachable state the workers alone can
    bring an installation's DNS to its desired state, whatever was interrupted.
  */
module Convergence {
  import opened Schema
  import opened Transactions
  import opened Reconcile
  import Fencing

  /** A schedule of worker moves for one installation, with no other step. */
  function Drive(s: System, id: Uuid, moves: seq<Move>): Option<System>
    decreases |moves|
  {
    if moves == [] then Some(s)
    else if CanStep(s, Work(id, moves[0])) then Drive(TakeStep(s, Work(id, moves[0])), id, moves[1..])
    else None
  }

  lemma {:induction false} DriveAppend(s: System, id: Uuid, moves: seq<Move>, m: Move)
    requires Drive(s, id, moves).Some? && CanStep(Drive(s, id, moves).value, Work(id, m))
    ensures Drive(s, id, moves + [m]) == Some(TakeStep(Drive(s, id, moves).value, Work(id, m)))
    decreases |moves|
  {
    hide CanStep, TakeStep;
    if moves == [] {
      var s' := TakeStep(s, Work(id, m));
      assert Drive(s', id, []) == Some(s');
      assert (moves + [m])[0] == m && (moves + [m])[1..] == [];
    } else {
      assert (moves + [m])[0] == moves[0] && (moves + [m])[1..] == moves[1..] + [m];
      DriveAppend(TakeStep(s, Work(id, moves[0])), id, moves[1..], m);
    }
  }

  /** A point on a schedule that began at `start`. */
  ghost predicate At(start: System, id: Uuid, moves: seq<Move>, s: System) {
    Drive(start, id, moves) == Some(s) && Inv(s) && id in s.sites && id in s.db.installations
      && s.ingress == start.ingress
  }

  lemma Go(start: System, id: Uuid, moves: seq<Move>, s: System, m: Move) returns (moves': seq<Move>, s': System)
    requires At(start, id, moves, s) && Enabled(s.db.installations[id], s.sites[id], s.ingress, m)
    ensures At(start, id, moves', s') && id in s'.sites && id in s'.db.installations && s'.ingress == s.ingress
    ensures s'.sites[id] == MoveSite(s.db.installations[id], s.sites[id], s.ingress, m)
    ensures (s.sites[id].holder.Some? || !(m.Mark? || m.RecordOutcome?)) && s'.db == MoveDb(s.db, id, s.sites[id], m)
    ensures Coherent(s'.db.installations[id], s'.sites[id], s'.ingress)
    ensures Fencing.RowInv(s'.db.installations[id], s'.db.nextJob)
  {
    hide Drive, Enabled, MoveSite, MoveDb, Inv, Coherent, Fencing.RowInv;
    HolderNeeded(s.db.installations[id], s.sites[id], s.ingress, m);
    WorkKeepsInv(s, id, m);
    DriveAppend(start, id, moves, m);
    moves', s' := moves + [m], TakeStep(s, Work(id, m));
    InvAt(s', id);
  }

  /** Everything about a row that completing a job leaves alone. */
  ghost predicate SameButJob(row: Installation, row': Installation, job: nat) {
    && job in row.jobs && row'.jobs == row.jobs[job := row.jobs[job].(completed := true)]
    && row'.placement == row.placement && row'.account == row.account && row'.state.Retired? == row.state.Retired?
  }

  ghost predicate Unlocked(site: Site) {
    site.holder.None? && site.waiting == map[]
  }

  lemma RecordDone(start: System, id: Uuid, moves: seq<Move>, s: System, job: nat)
    returns (moves': seq<Move>, s': System)
    requires At(start, id, moves, s) && s.sites[id].waiting == map[] && job in s.db.installations[id].jobs
    requires s.sites[id].holder == Some(Attempt(job, s.db.installations[id].placement, Done(true)))
    ensures At(start, id, moves', s') && Unlocked(s'.sites[id])
    ensures SameButJob(s.db.installations[id], s'.db.installations[id], job)
  {
    hide At, Coherent, Fencing.RowInv;
    AtHolds(start, id, moves, s);
    moves', s' := Go(start, id, moves, s, RecordOutcome);
    AtHolds(start, id, moves', s');
  }

  lemma AtHolds(start: System, id: Uuid, moves: seq<Move>, s: System)
    requires At(start, id, moves, s)
    ensures id in s.sites && id in s.db.installations && s.ingress == start.ingress
    ensures Coherent(s.db.installations[id], s.sites[id], s.ingress)
    ensures Fencing.RowInv(s.db.installations[id], s.db.nextJob)
  {
    hide Drive, Inv, Coherent, Fencing.RowInv;
    InvAt(s, id);
  }

  /** What remains of an attempt once its provider call has returned. */
  lemma FinishWritten(start: System, id: Uuid, moves: seq<Move>, s: System, job: nat)
    returns (moves': seq<Move>, s': System)
    requires At(start, id, moves, s) && s.sites[id].waiting == map[] && job in s.db.installations[id].jobs
    requires s.sites[id].holder.Some? && s.sites[id].holder.value.job == job
    requires s.sites[id].holder.value.placement == s.db.installations[id].placement
    requires ProgressOf(s.sites[id].holder.value.phase) == Some(Written)
    ensures At(start, id, moves', s') && Unlocked(s'.sites[id])
    ensures SameButJob(s.db.installations[id], s'.db.installations[id], job)
  {
    hide At, Coherent, Fencing.RowInv;
    AtHolds(start, id, moves, s);
    var m2, s2 := Go(start, id, moves, s, Look(true));
    if s.sites[id].holder.value.phase.Remove? {
      moves', s' := RecordDone(start, id, m2, s2, job);
    } else {
      var m3, s3 := Go(start, id, m2, s2, Mark);
      moves', s' := RecordDone(start, id, m3, s3, job);
    }
  }

  /** An attempt about to write can always finish, be observed and be recorded. */
  lemma FinishAttempt(start: System, id: Uuid, moves: seq<Move>, s: System, job: nat)
    returns (moves': seq<Move>, s': System)
    requires At(start, id, moves, s) && s.sites[id].waiting == map[] && job in s.db.installations[id].jobs
    requires s.sites[id].holder.Some? && s.sites[id].holder.value.job == job
    requires s.sites[id].holder.value.placement == s.db.installations[id].placement
    requires ProgressOf(s.sites[id].holder.value.phase) == Some(Writing)
    requires Serviceable(s.db.installations[id], s.ingress)
    ensures At(start, id, moves', s') && Unlocked(s'.sites[id])
    ensures SameButJob(s.db.installations[id], s'.db.installations[id], job)
  {
    hide At, Coherent, Desired, Serviceable, Fencing.RowInv, Enabled;
    AtHolds(start, id, moves, s);
    WriteIsPossible(s.db.installations[id], s.sites[id], s.ingress);
    var m1, s1 := Go(start, id, moves, s, FinishWrite);
    moves', s' := FinishWritten(start, id, m1, s1, job);
  }

  lemma WriteIsPossible(row: Installation, site: Site, ingress: Ingress)
    requires Coherent(row, site, ingress) && Held(row, site) && ProgressOf(site.holder.value.phase) == Some(Writing)
    requires Serviceable(row, ingress)
    ensures Enabled(row, site, ingress, FinishWrite)
  {
    hide ReadinessOk, WakeUps, Desired, ValidTarget;
  }

  /** Any incomplete job can be claimed and carried to completion. */
  lemma FinishJob(start: System, id: Uuid, moves: seq<Move>, s: System, job: nat)
    returns (moves': seq<Move>, s': System)
    requires At(start, id, moves, s) && Unlocked(s.sites[id])
    requires job in s.db.installations[id].jobs && !s.db.installations[id].jobs[job].completed
    requires Serviceable(s.db.installations[id], s.ingress)
    ensures At(start, id, moves', s') && Unlocked(s'.sites[id])
    ensures SameButJob(s.db.installations[id], s'.db.installations[id], job)
  {
    hide At, Coherent, Publishable, Fencing.RowInv;
    AtHolds(start, id, moves, s);
    var row := s.db.installations[id];
    var scope := if JobAllowed(Serving, row.jobs[job].kind) then Serving else Challenge;
    var m1, s1 := Go(start, id, moves, s, Claim(job, row.placement, scope));
    var m2, s2 := Go(start, id, m1, s1, Lock(job));
    assert s2.sites[id].waiting == map[];
    var m3, s3 := Go(start, id, m2, s2, ReadIdentity);
    AtHolds(start, id, m3, s3);
    if s3.sites[id].holder.value.phase.Done? {
      moves', s' := RecordDone(start, id, m3, s3, job);
    } else if s3.sites[id].holder.value.phase.Identified? {
      var m4, s4 := Go(start, id, m3, s3, ReadTarget);
      AtHolds(start, id, m4, s4);
      moves', s' := FinishAttempt(start, id, m4, s4, job);
    } else {
      moves', s' := FinishAttempt(start, id, m3, s3, job);
    }
  }

  function Incomplete(row: Installation): set<nat> {
    set j | j in row.jobs && !row.jobs[j].completed
  }

  lemma {:induction false} FinishAllJobs(start: System, id: Uuid, moves: seq<Move>, s: System)
    returns (moves': seq<Move>, s': System)
    requires At(start, id, moves, s) && Unlocked(s.sites[id]) && Serviceable(s.db.installations[id], s.ingress)
    ensures At(start, id, moves', s') && Unlocked(s'.sites[id]) && Quiet(s'.db.installations[id])
    ensures s'.db.installations[id].placement == s.db.installations[id].placement
    decreases |Incomplete(s.db.installations[id])|
  {
    hide At, Publishable, Coherent, Fencing.RowInv;
    AtHolds(start, id, moves, s);
    var row := s.db.installations[id];
    if Incomplete(row) == {} {
      assert forall j | j in row.jobs :: j in Incomplete(row) || row.jobs[j].completed;
      moves', s' := moves, s;
    } else {
      var job :| job in Incomplete(row);
      var m1, s1 := FinishJob(start, id, moves, s, job);
      AtHolds(start, id, m1, s1);
      assert Incomplete(s1.db.installations[id]) == Incomplete(row) - {job};
      moves', s' := FinishAllJobs(start, id, m1, s1);
    }
  }

  lemma {:induction false} AbandonWaiting(start: System, id: Uuid, moves: seq<Move>, s: System)
    returns (moves': seq<Move>, s': System)
    requires At(start, id, moves, s) && s.sites[id].holder.None?
    ensures At(start, id, moves', s') && Unlocked(s'.sites[id]) && s'.db == s.db
    decreases |s.sites[id].waiting|
  {
    hide At, Coherent, Fencing.RowInv;
    AtHolds(start, id, moves, s);
    if s.sites[id].waiting == map[] {
      moves', s' := moves, s;
    } else {
      var job :| job in s.sites[id].waiting;
      var m1, s1 := Go(start, id, moves, s, Abandon(job));
      AtHolds(start, id, m1, s1);
      assert s1.sites[id].waiting.Keys == s.sites[id].waiting.Keys - {job};
      assert |s1.sites[id].waiting.Keys| < |s.sites[id].waiting.Keys|;
      moves', s' := AbandonWaiting(start, id, m1, s1);
    }
  }

  // ------------------------------------------------------------------
  // Every schedule
  // ------------------------------------------------------------------

  /** No job appears or goes, and a completed job stays so. */
  ghost predicate JobsSettle(row: Installation, row': Installation) {
    row'.jobs.Keys == row.jobs.Keys && forall j | j in row.jobs ::
      row'.jobs[j].kind == row.jobs[j].kind && (row.jobs[j].completed ==> row'.jobs[j].completed)
  }

  lemma MoveSettles(s: System, id: Uuid, m: Move)
    requires Inv(s) && CanStep(s, Work(id, m))
    ensures var s' := TakeStep(s, Work(id, m));
      && s'.ingress == s.ingress && id in s'.sites && id in s'.db.installations
      && JobsSettle(s.db.installations[id], s'.db.installations[id])
      && (Serviceable(s.db.installations[id], s.ingress) <==> Serviceable(s'.db.installations[id], s.ingress))
  {
    hide Inv, Coherent, MoveSite, Publishable;
  }

  lemma {:induction false} DriveSettles(s: System, id: Uuid, moves: seq<Move>)
    requires Inv(s) && id in s.sites && id in s.db.installations && Drive(s, id, moves).Some?
    ensures var s' := Drive(s, id, moves).value;
      && At(s, id, moves, s') && JobsSettle(s.db.installations[id], s'.db.installations[id])
      && (Serviceable(s.db.installations[id], s.ingress) <==> Serviceable(s'.db.installations[id], s'.ingress))
    decreases |moves|
  {
    hide Inv, CanStep, TakeStep, Serviceable;
    if moves != [] {
      MoveSettles(s, id, moves[0]);
      WorkKeepsInv(s, id, moves[0]);
      DriveSettles(TakeStep(s, Work(id, moves[0])), id, moves[1..]);
    }
  }

  lemma {:induction false} DriveOn(s: System, id: Uuid, moves: seq<Move>, more: seq<Move>)
    requires Drive(s, id, moves).Some?
    ensures Drive(s, id, moves + more) == Drive(Drive(s, id, moves).value, id, more)
    decreases |moves|
  {
    hide CanStep, TakeStep;
    if moves == [] {
      assert moves + more == more;
    } else {
      assert (moves + more)[0] == moves[0] && (moves + more)[1..] == moves[1..] + more;
      DriveOn(TakeStep(s, Work(id, moves[0])), id, moves[1..], more);
    }
  }

  /** Whatever the workers do and in whatever order: once the jobs that were pending are
      complete, the outbox is empty and DNS is what the rows call for. */
  lemma EveryCompletionConverges(states: seq<System>, steps: seq<SystemStep>, i: nat, id: Uuid, moves: seq<Move>)
    requires IsRun(states, steps) && i < |states| && id in states[i].sites && id in states[i].db.installations
    requires Drive(states[i], id, moves).Some?
    ensures var row, s' := states[i].db.installations[id], Drive(states[i], id, moves).value;
      && id in s'.sites && id in s'.db.installations && s'.db.installations[id].jobs.Keys == row.jobs.Keys
      && ((forall j | j in row.jobs && !row.jobs[j].completed :: s'.db.installations[id].jobs[j].completed) ==>
            && Quiet(s'.db.installations[id])
            && s'.sites[id].serving == DesiredServing(s'.db.installations[id], states[i].ingress)
            && s'.sites[id].txt == DesiredTxt(s'.db.installations[id]))
  {
    hide IsRun, Inv, Drive, DesiredServing, DesiredTxt;
    RunInv(states, steps, i);
    DriveSettles(states[i], id, moves);
    var row, s' := states[i].db.installations[id], Drive(states[i], id, moves).value;
    if forall j | j in row.jobs && !row.jobs[j].completed :: s'.db.installations[id].jobs[j].completed {
      QuietSettles(states[i], id, moves, s');
    }
  }

  /** From every reachable state some worker schedule empties the installation's outbox
      and leaves DNS equal to what its rows call for, provided that can be written. */
  lemma CanAlwaysConverge(states: seq<System>, steps: seq<SystemStep>, i: nat, id: Uuid)
    returns (moves: seq<Move>, s': System)
    requires IsRun(states, steps) && i < |states| && id in states[i].sites && id in states[i].db.installations
    requires Serviceable(states[i].db.installations[id], states[i].ingress)
    ensures Drive(states[i], id, moves) == Some(s') && id in s'.sites && id in s'.db.installations
    ensures Quiet(s'.db.installations[id]) && Unlocked(s'.sites[id])
    ensures s'.sites[id].serving == DesiredServing(s'.db.installations[id], states[i].ingress)
    ensures s'.sites[id].txt == DesiredTxt(s'.db.installations[id])
  {
    hide IsRun, Inv, DesiredServing, DesiredTxt, Drive, Serviceable;
    RunInv(states, steps, i);
    moves, s' := CanConverge(states[i], id);
  }

  lemma CanConverge(s0: System, id: Uuid) returns (moves: seq<Move>, s': System)
    requires Inv(s0) && id in s0.sites && id in s0.db.installations && Serviceable(s0.db.installations[id], s0.ingress)
    ensures Drive(s0, id, moves) == Some(s') && id in s'.sites && id in s'.db.installations
    ensures Quiet(s'.db.installations[id]) && Unlocked(s'.sites[id])
    ensures s'.sites[id].serving == DesiredServing(s'.db.installations[id], s0.ingress)
    ensures s'.sites[id].txt == DesiredTxt(s'.db.installations[id])
  {
    hide Inv, Publishable, Coherent, Fencing.RowInv;
    assert At(s0, id, [], s0);
    hide At;
    var m1, s1 := [], s0;
    if s0.sites[id].holder.Some? {
      m1, s1 := Go(s0, id, [], s0, Crash);
    }
    var m2, s2 := AbandonWaiting(s0, id, m1, s1);
    moves, s' := FinishAllJobs(s0, id, m2, s2);
    QuietSettles(s0, id, moves, s');
  }

  lemma QuietSettles(start: System, id: Uuid, moves: seq<Move>, s: System)
    requires At(start, id, moves, s) && Quiet(s.db.installations[id])
    ensures s.sites[id].serving == DesiredServing(s.db.installations[id], start.ingress)
    ensures s.sites[id].txt == DesiredTxt(s.db.installations[id])
  {
    hide At, HolderOk, ReadinessOk, Fencing.RowInv;
    AtHolds(start, id, moves, s);
  }

  // ------------------------------------------------------------------
  // A race the design does not exclude
  // ------------------------------------------------------------------

  const RACE_INGRESS: Ingress := map["p" := ["192.0.2.1"]]
  const OLD_ACCOUNT := "https://acme-v02.api.letsencrypt.org/acme/acct/1"
  const NEW_ACCOUNT := "https://acme-v02.api.letsencrypt.org/acme/acct/2"

  function RaceLabel(): Label {
    seq(26, i requires 0 <= i < 26 => 'a')
  }

  function RaceState(account: Option<string>, state: Lifecycle, jobs: map<nat, Job>, nextJob: nat, fence: nat,
      site: Site): System
  {
    StateWith(RACE_INGRESS, account, state, jobs, nextJob, fence, site)
  }

  function StateWith(ingress: Ingress, account: Option<string>, state: Lifecycle, jobs: map<nat, Job>,
      nextJob: nat, fence: nat, site: Site): System
  {
    var host := HostnameOf(RaceLabel());
    System(Db(map[7 := Installation(host, "k", "p", 1, state, account, 0, map[], None, None, map[], jobs)],
              map[3 := Operation(7, AllocateRequest, NoReceipt, 0)], nextJob, fence),
           map[7 := site], ingress)
  }

  function RaceSite(phase: Option<Phase>, serving: set<Record>): Site {
    Site(map[], if phase.Some? then Some(Attempt(0, "p", phase.value)) else None, serving, {}, {})
  }

  const ONE_JOB: map<nat, Job> := map[0 := Job(PublishName, false)]
  const TWO_JOBS: map<nat, Job> := ONE_JOB[1 := Job(PublishName, false)]
  const THREE_JOBS: map<nat, Job> := TWO_JOBS[2 := Job(PublishName, false)]

  lemma RaceBegins(ingress: Ingress)
    ensures var s0 := System(Db(map[], map[], 0, 1), map[], ingress);
      && var a0 := Transact(DoAllocate(3, "k", "p", 7, RaceLabel(), 0));
      CanStep(s0, a0) && TakeStep(s0, a0) == StateWith(ingress, None, PendingDns, ONE_JOB, 1, 2, NEW_SITE)
  {
    RaceAllocates();
    hide Enabled, MoveSite, MoveDb, Allocate, IssueBearer, RenewBearer, EnsureChallengeValue, Retire, Relocate,
      ClaimTunnel, ValidPlacement;
  }

  lemma RaceAllocates()
    ensures Allocate(Db(map[], map[], 0, 1), 3, "k", "p", 7, RaceLabel(), 0).db ==
      RaceState(None, PendingDns, ONE_JOB, 1, 2, NEW_SITE).db
  {
    assert ValidPlacement("p");
    hide ValidPlacement;
  }

  lemma RaceAccounts()
    ensures ValidAccountUri(Production, OLD_ACCOUNT) && ValidAccountUri(Production, NEW_ACCOUNT)
    ensures OLD_ACCOUNT != NEW_ACCOUNT
  {
    var prefix := AccountPrefix(Production);
    assert OLD_ACCOUNT == prefix + "1" && NEW_ACCOUNT == prefix + "2";
    assert OLD_ACCOUNT[|prefix|..] == "1" && NEW_ACCOUNT[|prefix|..] == "2";
  }

  lemma RaceRegisters(ingress: Ingress, before: Option<string>, after: string, jobs: map<nat, Job>,
      n: nat, fence: nat, site: Site)
    requires ValidAccountUri(Production, after)
    ensures var s := StateWith(ingress, before, PendingDns, jobs, n, fence, site);
      && var a := Transact(DoRegister(Production, 7, after));
      && CanStep(s, a)
      && TakeStep(s, a) ==
        StateWith(ingress, Some(after), PendingDns, jobs[n := Job(PublishName, false)], n + 1, fence + 1, site)
  {
  }

  /** The moves of the attempt, each from the state the last one left. */
  lemma RaceMoves(account: string, jobs: map<nat, Job>, n: nat, fence: nat)
    requires 0 in jobs && jobs[0] == Job(PublishName, false)
    ensures var s := RaceState(Some(account), PendingDns, jobs, n, fence, NEW_SITE);
      && var m := Work(7, Claim(0, "p", Serving));
      CanStep(s, m)
        && TakeStep(s, m) == RaceState(Some(account), PendingDns, jobs, n, fence, NEW_SITE.(waiting := map[0 := "p"]))
    ensures var s := RaceState(Some(account), PendingDns, jobs, n, fence, NEW_SITE.(waiting := map[0 := "p"]));
      CanStep(s, Work(7, Lock(0)))
        && TakeStep(s, Work(7, Lock(0))) ==
          RaceState(Some(account), PendingDns, jobs, n, fence, RaceSite(Some(Locked), {}))
    ensures var s := RaceState(Some(account), PendingDns, jobs, n, fence, RaceSite(Some(Locked), {}));
      && CanStep(s, Work(7, ReadIdentity))
      && TakeStep(s, Work(7, ReadIdentity)) ==
        RaceState(Some(account), PendingDns, jobs, n, fence, RaceSite(Some(Publish(account, Writing)), {}))
  {
    assert NEW_SITE.waiting == map[];
    assert map[0 := "p"] - {0} == map[];
  }

  lemma RaceWrites(bound: string, read: string, jobs: map<nat, Job>, n: nat, fence: nat)
    requires 0 in jobs && jobs[0] == Job(PublishName, false)
    ensures var zone, s := Desired(RACE_INGRESS, "p", read),
      RaceState(Some(bound), PendingDns, jobs, n, fence, RaceSite(Some(Publish(read, Writing)), {}));
      && CanStep(s, Work(7, FinishWrite))
      && TakeStep(s, Work(7, FinishWrite)) ==
        RaceState(Some(bound), PendingDns, jobs, n, fence, RaceSite(Some(Publish(read, Written)), zone))
    ensures var zone := Desired(RACE_INGRESS, "p", read);
      && var s := RaceState(Some(bound), PendingDns, jobs, n, fence, RaceSite(Some(Publish(read, Written)), zone));
      && CanStep(s, Work(7, Look(true)))
      && TakeStep(s, Work(7, Look(true))) ==
        RaceState(Some(bound), PendingDns, jobs, n, fence, RaceSite(Some(Publish(read, Observed)), zone))
  {
    hide Desired, Step;
  }

  lemma RaceMarks(bound: string, read: string, jobs: map<nat, Job>, n: nat, fence: nat, zone: set<Record>)
    requires 0 in jobs && jobs[0] == Job(PublishName, false)
    ensures var s := RaceState(Some(bound), PendingDns, jobs, n, fence, RaceSite(Some(Publish(read, Observed)), zone));
      && CanStep(s, Work(7, Mark))
      && TakeStep(s, Work(7, Mark)) ==
        RaceState(Some(bound), DnsReady, jobs, n, fence + 1, RaceSite(Some(Done(true)), zone))
  {
    hide Step, Desired;
  }

  lemma RaceEnds(account: Option<string>, jobs: map<nat, Job>, n: nat, fence: nat)
    ensures var zone := Desired(RACE_INGRESS, "p", OLD_ACCOUNT);
      && var ready := RaceState(account, DnsReady, jobs, n, fence, RaceSite(Some(Done(true)), zone));
      && 7 in ready.db.installations && 7 in ready.sites
      && ready.db.installations[7].state.DnsReady? && ready.db.installations[7].account == account
      && Issue(OLD_ACCOUNT) in ready.sites[7].serving && Issue(NEW_ACCOUNT) !in ready.sites[7].serving
    ensures EmptyDb(System(Db(map[], map[], 0, 1), map[], RACE_INGRESS).db)
  {
  }

  /** Rebinding the ACME account between a worker's identity read and its mark: the
      installation becomes ready while its CAA still names the old account. */
  lemma ReadyWithOldAccount() returns (states: seq<System>, steps: seq<SystemStep>)
    ensures IsRun(states, steps) && |states| == 10
    ensures var ready := states[9];
      && 7 in ready.db.installations && 7 in ready.sites
      && ready.db.installations[7].state.DnsReady? && ready.db.installations[7].account == Some(NEW_ACCOUNT)
      && Issue(OLD_ACCOUNT) in ready.sites[7].serving && Issue(NEW_ACCOUNT) !in ready.sites[7].serving
  {
    hide CanStep, TakeStep, Desired, StateWith, RaceSite;
    RaceAccounts();
    RaceBegins(RACE_INGRESS);
    RaceRegisters(RACE_INGRESS, None, OLD_ACCOUNT, ONE_JOB, 1, 2, NEW_SITE);
    RaceMoves(OLD_ACCOUNT, TWO_JOBS, 2, 3);
    RaceRegisters(RACE_INGRESS, Some(OLD_ACCOUNT), NEW_ACCOUNT, TWO_JOBS, 2, 3,
      RaceSite(Some(Publish(OLD_ACCOUNT, Writing)), {}));
    RaceWrites(NEW_ACCOUNT, OLD_ACCOUNT, THREE_JOBS, 3, 4);
    RaceMarks(NEW_ACCOUNT, OLD_ACCOUNT, THREE_JOBS, 3, 4, Desired(RACE_INGRESS, "p", OLD_ACCOUNT));
    RaceEnds(Some(NEW_ACCOUNT), THREE_JOBS, 3, 5);
    states, steps := [System(Db(map[], map[], 0, 1), map[], RACE_INGRESS)], [];
    assert IsRun(states, steps);
    hide IsRun;
    states, steps := Extend(states, steps, Transact(DoAllocate(3, "k", "p", 7, RaceLabel(), 0)));
    states, steps := Extend(states, steps, Transact(DoRegister(Production, 7, OLD_ACCOUNT)));
    states, steps := Extend(states, steps, Work(7, Claim(0, "p", Serving)));
    states, steps := Extend(states, steps, Work(7, Lock(0)));
    states, steps := Extend(states, steps, Work(7, ReadIdentity));
    states, steps := Extend(states, steps, Transact(DoRegister(Production, 7, NEW_ACCOUNT)));
    states, steps := Extend(states, steps, Work(7, FinishWrite));
    states, steps := Extend(states, steps, Work(7, Look(true)));
    states, steps := Extend(states, steps, Work(7, Mark));
  }

  lemma Extend(states: seq<System>, steps: seq<SystemStep>, step: SystemStep)
    returns (states': seq<System>, steps': seq<SystemStep>)
    requires |states| > 0 && IsRun(states, steps) && CanStep(states[|states| - 1], step)
    ensures |states'| == |states| + 1 && IsRun(states', steps')
    ensures states'[|states|] == TakeStep(states[|states| - 1], step)
  {
    hide CanStep, TakeStep;
    states', steps' := states + [TakeStep(states[|states| - 1], step)], steps + [step];
    forall i | 0 <= i < |steps'|
      ensures CanStep(states'[i], steps'[i]) && states'[i + 1] == TakeStep(states'[i], steps'[i])
    {
      if i < |steps| {
        assert states'[i] == states[i] && steps'[i] == steps[i] && states'[i + 1] == states[i + 1];
      }
    }
  }
}
