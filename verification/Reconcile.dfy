/** DNS reconciliation: store transactions, worker attempts and provider writes
    interleaved in any order, with crashes and partial provider writes.

    The outbox row lock of a claimed job is `waiting` or `holder`; the advisory
    lock of an installation is `holder`, at most one per installation. Provider
    records are indexed by installation: hostnames are unique and never change.
  */
module Reconcile {
  import opened Schema
  import opened Transactions
  import Fencing

  // ------------------------------------------------------------------
  // State
  // ------------------------------------------------------------------

  datatype Record = Address(ip: string) | Issue(account: string) | DenyWildcard

  datatype WorkerScope = Serving | Challenge

  datatype Progress = Writing | Written | Observed

  /** Where the attempt that holds an installation's lock stands. */
  datatype Phase =
    | Locked
    | Publish(account: string, progress: Progress)
    | Identified
    | SetTxt(revision: nat, values: set<string>, progress: Progress)
    | Remove(progress: Progress)
    | Done(completed: bool)

  datatype Attempt = Attempt(job: nat, placement: string, phase: Phase)

  /** One installation's attempts and provider records. `observed` remembers every
      challenge set, with its revision, that the observer has seen on DNS. */
  datatype Site = Site(
    waiting: map<nat, string>,
    holder: Option<Attempt>,
    serving: set<Record>,
    txt: set<string>,
    observed: set<(nat, set<string>)>)

  /** Each placement's configured address list, as given: repeats are not removed. */
  type Ingress = map<string, seq<string>>

  datatype System = System(db: Db, sites: map<Uuid, Site>, ingress: Ingress)

  const NEW_SITE := Site(map[], None, {}, {}, {})

  predicate JobAllowed(scope: WorkerScope, kind: JobKind) {
    match scope
    case Serving => kind.PublishName? || kind.RemoveRecords?
    case Challenge => kind.ReconcileTxt? || kind.RemoveTxtAll?
  }

  function AddressList(ingress: Ingress, placement: string): seq<string> {
    if placement in ingress then ingress[placement] else []
  }

  function Addresses(ingress: Ingress, placement: string): set<string> {
    set ip | ip in AddressList(ingress, placement)
  }

  function Desired(ingress: Ingress, placement: string, account: string): set<Record> {
    (set ip | ip in Addresses(ingress, placement) :: Address(ip)) + {Issue(account), DenyWildcard}
  }

  /** `publish_name` refuses an empty list and one of more than four entries, repeats included. */
  predicate Publishable(ingress: Ingress, placement: string) {
    1 <= |AddressList(ingress, placement)| <= 4
  }

  /** What the rows call for can be written: there is nothing to publish, or it is publishable. */
  predicate Serviceable(row: Installation, ingress: Ingress) {
    row.state.Retired? || row.account.None? || Publishable(ingress, row.placement)
  }

  /** `set_challenge` refuses an invalid or oversized set. */
  predicate ValidTarget(values: set<string>) {
    |values| <= MAX_LIVE_CHALLENGE_VALUES && forall v | v in values :: ValidChallengeValue(v)
  }

  /** An interrupted provider call: nothing wanted is lost and nothing else appears. */
  predicate PartialWrite<T>(before: set<T>, target: set<T>, after: set<T>) {
    before * target <= after <= before + target
  }

  // ------------------------------------------------------------------
  // Worker moves on one installation
  // ------------------------------------------------------------------

  datatype Move =
    | Claim(job: nat, placement: string, scope: WorkerScope)
    | Abandon(job: nat)
    | Lock(job: nat)
    | ReadIdentity
    | ReadTarget
    | WriteServing(serving: set<Record>)
    | WriteTxt(txt: set<string>)
    | FinishWrite
    | GiveUp
    | Look(visible: bool)
    | Mark
    | RecordOutcome
    | Crash

  function KindOf(row: Installation, site: Site): JobKind
    requires site.holder.Some? && site.holder.value.job in row.jobs
  {
    row.jobs[site.holder.value.job].kind
  }

  predicate Held(row: Installation, site: Site) {
    site.holder.Some? && site.holder.value.job in row.jobs
  }

  /** The records a serving write in progress is replacing the zone with. */
  function ServingTarget(row: Installation, site: Site, ingress: Ingress): Option<set<Record>> {
    if !Held(row, site) then None
    else
      match site.holder.value.phase
      case Publish(account, Writing) =>
        if Publishable(ingress, site.holder.value.placement)
          then Some(Desired(ingress, site.holder.value.placement, account)) else None
      case Remove(Writing) => if KindOf(row, site).RemoveRecords? then Some({}) else None
      case _ => None
  }

  /** The values a TXT write in progress is replacing the zone with. */
  function TxtTarget(row: Installation, site: Site): Option<set<string>> {
    if !Held(row, site) then None
    else
      match site.holder.value.phase
      case SetTxt(_, values, Writing) => if ValidTarget(values) then Some(values) else None
      case Remove(Writing) => if KindOf(row, site).RemoveTxtAll? then Some({}) else None
      case _ => None
  }

  function ProgressOf(phase: Phase): Option<Progress> {
    match phase
    case Publish(_, p) => Some(p)
    case SetTxt(_, _, p) => Some(p)
    case Remove(p) => Some(p)
    case _ => None
  }

  predicate Enabled(row: Installation, site: Site, ingress: Ingress, m: Move) {
    match m
    case Claim(job, placement, scope) =>
      && job in row.jobs && !row.jobs[job].completed && row.placement == placement
      && JobAllowed(scope, row.jobs[job].kind)
      && job !in site.waiting && !(site.holder.Some? && site.holder.value.job == job)
    case Abandon(job) => job in site.waiting
    case Lock(job) => job in site.waiting && site.holder.None?
    case ReadIdentity => Held(row, site) && site.holder.value.phase.Locked?
    case ReadTarget => Held(row, site) && site.holder.value.phase.Identified?
    case WriteServing(serving) =>
      var target := ServingTarget(row, site, ingress);
      target.Some? && PartialWrite(site.serving, target.value, serving)
    case WriteTxt(txt) =>
      var target := TxtTarget(row, site);
      target.Some? && PartialWrite(site.txt, target.value, txt)
    case FinishWrite => ServingTarget(row, site, ingress).Some? || TxtTarget(row, site).Some?
    case GiveUp => Held(row, site) && !site.holder.value.phase.Done?
    case Look(_) => Held(row, site) && ProgressOf(site.holder.value.phase) == Some(Written)
    case Mark => Held(row, site) && !site.holder.value.phase.Remove?
      && ProgressOf(site.holder.value.phase) == Some(Observed)
    case RecordOutcome => Held(row, site) && site.holder.value.phase.Done?
    case Crash => site.holder.Some?
  }

  function InPhase(site: Site, phase: Phase): Site
    requires site.holder.Some?
  {
    site.(holder := Some(site.holder.value.(phase := phase)))
  }

  /** `dns_identity` for publication and TXT, `retired_hostname` for removal. */
  function Identify(row: Installation, site: Site): Phase
    requires Held(row, site)
  {
    var kind := KindOf(row, site);
    if kind.RemoveRecords? || kind.RemoveTxtAll? then
      if row.state.Retired? then Remove(Writing) else Done(true)
    else if row.state.Retired? || row.account.None? then Done(true)
    else if row.placement != site.holder.value.placement then Done(false)
    else if kind.PublishName? then Publish(row.account.value, Writing)
    else Identified
  }

  function FinishedWrite(row: Installation, site: Site, ingress: Ingress): Site
    requires Held(row, site)
  {
    match site.holder.value.phase
    case Publish(account, _) =>
      InPhase(site, Publish(account, Written)).(serving := Desired(ingress, site.holder.value.placement, account))
    case SetTxt(r, values, _) => InPhase(site, SetTxt(r, values, Written)).(txt := values)
    case Remove(_) =>
      if KindOf(row, site).RemoveRecords? then InPhase(site, Remove(Written)).(serving := {})
      else InPhase(site, Remove(Written)).(txt := {})
    case _ => site
  }

  function Looked(site: Site, visible: bool): Site
    requires site.holder.Some?
  {
    if !visible then InPhase(site, Done(false))
    else
      match site.holder.value.phase
      case Publish(account, _) => InPhase(site, Publish(account, Observed))
      case SetTxt(r, values, _) =>
        InPhase(site, SetTxt(r, values, Observed)).(observed := site.observed + {(r, values)})
      case _ => InPhase(site, Done(true))
  }

  function MoveSite(row: Installation, site: Site, ingress: Ingress, m: Move): Site
    requires Enabled(row, site, ingress, m)
  {
    match m
    case Claim(job, placement, _) => site.(waiting := site.waiting[job := placement])
    case Abandon(job) => site.(waiting := site.waiting - {job})
    case Lock(job) => site.(waiting := site.waiting - {job}, holder := Some(Attempt(job, site.waiting[job], Locked)))
    case ReadIdentity => InPhase(site, Identify(row, site))
    case ReadTarget => InPhase(site, SetTxt(ChallengeTarget(row).0, ChallengeTarget(row).1, Writing))
    case WriteServing(serving) => site.(serving := serving)
    case WriteTxt(txt) => site.(txt := txt)
    case FinishWrite => FinishedWrite(row, site, ingress)
    case GiveUp => InPhase(site, Done(false))
    case Look(visible) => Looked(site, visible)
    case Mark => InPhase(site, Done(true))
    case RecordOutcome => site.(holder := None)
    case Crash => site.(holder := None)
  }

  /** The store transaction a move makes, if any. */
  function MoveDb(db: Db, id: Uuid, site: Site, m: Move): Db
    requires site.holder.Some? || !(m.Mark? || m.RecordOutcome?)
  {
    match m
    case Mark =>
      if site.holder.value.phase.SetTxt? then MarkChallengeReconciled(db, id, site.holder.value.phase.revision).0
      else MarkDnsReady(db, id)
    case RecordOutcome => if site.holder.value.phase == Done(true) then CompleteJob(db, id, site.holder.value.job)
      else db
    case _ => db
  }

  // ------------------------------------------------------------------
  // System steps and runs
  // ------------------------------------------------------------------

  datatype SystemStep = Transact(action: Action) | Work(id: Uuid, move: Move)

  /** Retirement, moves and pending expiry take the advisory lock. */
  predicate TakesLock(a: Action) {
    a.DoRetire? || a.DoRelocate? || a.DoSweepPending?
  }

  /** Only a worker records readiness or completes a job. */
  predicate WorkerOnly(a: Action) {
    a.DoMarkReady? || a.DoMarkReconciled? || a.DoComplete?
  }

  predicate CanStep(s: System, step: SystemStep) {
    match step
    case Transact(a) => !WorkerOnly(a) && (TakesLock(a) && a.id in s.sites ==> s.sites[a.id].holder.None?)
    case Work(id, m) =>
      && id in s.sites && id in s.db.installations
      && Enabled(s.db.installations[id], s.sites[id], s.ingress, m)
  }

  function TakeStep(s: System, step: SystemStep): System
    requires CanStep(s, step)
  {
    match step
    case Transact(a) =>
      var db' := Step(s.db, a);
      s.(db := db', sites := if a.id in db'.installations && a.id !in s.sites then s.sites[a.id := NEW_SITE]
        else s.sites)
    case Work(id, m) =>
      s.(db := MoveDb(s.db, id, s.sites[id], m),
      sites := s.sites[id := MoveSite(s.db.installations[id], s.sites[id], s.ingress, m)])
  }

  ghost predicate IsRun(states: seq<System>, steps: seq<SystemStep>) {
    && |states| == |steps| + 1
    && EmptyDb(states[0].db) && states[0].sites == map[]
    && forall i | 0 <= i < |steps| :: CanStep(states[i], steps[i]) && states[i + 1] == TakeStep(states[i], steps[i])
  }

  // ------------------------------------------------------------------
  // The invariant
  // ------------------------------------------------------------------

  ghost predicate Pending(row: Installation, kind: JobKind) {
    exists j :: j in row.jobs && row.jobs[j] == Job(kind, false)
  }

  ghost predicate PendingOther(row: Installation, kind: JobKind, job: nat) {
    exists j :: j in row.jobs && row.jobs[j] == Job(kind, false) && j != job
  }

  function ServingKind(row: Installation): JobKind {
    if row.state.Retired? then RemoveRecords else PublishName
  }

  function TxtKind(row: Installation): JobKind {
    if row.state.Retired? then RemoveTxtAll else ReconcileTxt
  }

  /** The serving records the current rows call for. */
  function DesiredServing(row: Installation, ingress: Ingress): set<Record> {
    if row.state.Retired? || row.account.None? then {} else Desired(ingress, row.placement, row.account.value)
  }

  /** The TXT values the current rows call for. */
  function DesiredTxt(row: Installation): set<string> {
    if row.state.Retired? then {} else row.values.Keys
  }

  ghost predicate ServingSettled(row: Installation, site: Site, ingress: Ingress) {
    site.serving == DesiredServing(row, ingress)
  }

  ghost predicate TxtSettled(row: Installation, site: Site) {
    && site.txt == DesiredTxt(row)
    && (!row.state.Retired? && row.challenge.Some? ==> row.challenge.value.ready == Some(row.challenge.value.revision))
  }

  /** Completing this job loses no wake-up. */
  ghost predicate Justified(row: Installation, site: Site, ingress: Ingress, job: nat, kind: JobKind) {
    && (kind == ServingKind(row) ==> ServingSettled(row, site, ingress) || PendingOther(row, kind, job))
    && (kind == TxtKind(row) ==> TxtSettled(row, site) || PendingOther(row, kind, job))
  }

  ghost predicate PublishOk(row: Installation, site: Site, ingress: Ingress, a: Attempt,
      account: string, p: Progress)
    requires a.job in row.jobs
  {
    && row.jobs[a.job].kind.PublishName? && !row.state.Retired? && row.account.Some? && row.placement == a.placement
    && KnownAccount(account)
    && (account == row.account.value || PendingOther(row, PublishName, a.job))
    && (!p.Writing? ==> site.serving == Desired(ingress, a.placement, account))
  }

  ghost predicate SetTxtOk(row: Installation, site: Site, a: Attempt, r: nat, values: set<string>, p: Progress)
    requires a.job in row.jobs
  {
    && row.jobs[a.job].kind.ReconcileTxt? && !row.state.Retired? && row.placement == a.placement && ValidTarget(values)
    && r <= ChallengeTarget(row).0
    && (r == ChallengeTarget(row).0 ==> values == row.values.Keys)
    && (r < ChallengeTarget(row).0 ==>
          && PendingOther(row, ReconcileTxt, a.job)
          && row.challenge.Some? && row.challenge.value.ready != Some(row.challenge.value.revision))
    && (!p.Writing? ==> site.txt == values)
    && (p.Observed? ==> (r, values) in site.observed)
  }

  ghost predicate HolderOk(row: Installation, site: Site, ingress: Ingress, a: Attempt)
    requires a.job in row.jobs
  {
    match a.phase
    case Locked => true
    case Publish(account, p) => PublishOk(row, site, ingress, a, account, p)
    case Identified => row.jobs[a.job].kind.ReconcileTxt? && !row.state.Retired? && row.placement == a.placement
    case SetTxt(r, values, p) => SetTxtOk(row, site, a, r, values, p)
    case Remove(p) =>
      && row.state.Retired?
      && (row.jobs[a.job].kind.RemoveRecords? || row.jobs[a.job].kind.RemoveTxtAll?)
      && (!p.Writing? ==> if row.jobs[a.job].kind.RemoveRecords? then site.serving == {} else site.txt == {})
    case Done(completed) => completed ==> Justified(row, site, ingress, a.job, row.jobs[a.job].kind)
  }

  ghost predicate LocksOk(row: Installation, site: Site) {
    && (forall j | j in site.waiting :: j in row.jobs && !row.jobs[j].completed)
    && (site.holder.Some? ==>
          && site.holder.value.job in row.jobs && !row.jobs[site.holder.value.job].completed
          && site.holder.value.job !in site.waiting)
  }

  /** Readiness recorded for the current revision means its set is on DNS and was observed. */
  ghost predicate ReadinessOk(row: Installation, site: Site) {
    !row.state.Retired? && row.challenge.Some? && row.challenge.value.ready == Some(row.challenge.value.revision) ==>
      site.txt == row.values.Keys && (row.challenge.value.revision, row.values.Keys) in site.observed
  }

  ghost predicate WakeUps(row: Installation, site: Site, ingress: Ingress) {
    && (Pending(row, ServingKind(row)) || ServingSettled(row, site, ingress))
    && (Pending(row, TxtKind(row)) || TxtSettled(row, site))
    && (row.account.None? && !row.state.Retired? ==> site.serving == {})
    && (row.challenge.None? && !row.state.Retired? ==> site.txt == {})
  }

  ghost predicate Coherent(row: Installation, site: Site, ingress: Ingress) {
    && LocksOk(row, site)
    && (site.holder.Some? ==> HolderOk(row, site, ingress, site.holder.value))
    && WakeUps(row, site, ingress)
    && ReadinessOk(row, site)
  }

  ghost predicate Inv(s: System) {
    && Fencing.Inv(s.db)
    && s.sites.Keys == s.db.installations.Keys
    && forall id | id in s.sites :: Coherent(s.db.installations[id], s.sites[id], s.ingress)
  }

  // ------------------------------------------------------------------
  // Store transactions keep an installation coherent
  // ------------------------------------------------------------------

  /** The fields of a row that reconciliation reads. */
  ghost predicate SameDns(row: Installation, row': Installation) {
    && row'.state == row.state && row'.placement == row.placement && row'.account == row.account
    && row'.challenge == row.challenge && row'.values.Keys == row.values.Keys && row'.jobs == row.jobs
  }

  lemma SameDnsKeeps(row: Installation, row': Installation, site: Site, ingress: Ingress)
    requires Coherent(row, site, ingress) && SameDns(row, row')
    ensures Coherent(row', site, ingress)
  {
    forall kind, job ensures Pending(row, kind) <==> Pending(row', kind)
      ensures PendingOther(row, kind, job) <==> PendingOther(row', kind, job)
    {
    }
  }

  /** Outbox rows only appear, under fresh ids. */
  lemma EnqueuedPends(row: Installation, row': Installation, job: nat, kind: JobKind)
    requires job !in row.jobs && row'.jobs == row.jobs[job := Job(kind, false)]
    ensures Pending(row', kind) && (forall j | j != job :: PendingOther(row', kind, j))
    ensures forall k :: Pending(row, k) ==> Pending(row', k)
    ensures forall k, j :: PendingOther(row, k, j) ==> PendingOther(row', k, j)
  {
    assert job in row'.jobs && row'.jobs[job] == Job(kind, false);
    forall k | Pending(row, k) ensures Pending(row', k) {
      var j :| j in row.jobs && row.jobs[j] == Job(k, false);
      assert j in row'.jobs;
    }
    forall k, j | PendingOther(row, k, j) ensures PendingOther(row', k, j) {
      var i :| i in row.jobs && row.jobs[i] == Job(k, false) && i != j;
      assert i in row'.jobs;
    }
  }

  lemma RegisterKeeps(row: Installation, site: Site, ingress: Ingress, account: string, job: nat)
    requires Coherent(row, site, ingress) && job !in row.jobs && !row.state.Retired?
    ensures Coherent(Enqueue(row.(account := Some(account)), job, PublishName), site, ingress)
  {
    EnqueuedPends(row, Enqueue(row.(account := Some(account)), job, PublishName), job, PublishName);
    hide Desired;
  }

  /** A membership change: the revision advances past any readiness already recorded. */
  ghost predicate SetChanged(row: Installation, row': Installation, job: nat) {
    && row'.state == row.state && row'.placement == row.placement && row'.account == row.account
    && row'.jobs == row.jobs[job := Job(ReconcileTxt, false)]
    && row'.challenge.Some?
    && row'.challenge.value.revision == ChallengeTarget(row).0 + 1
    && row'.challenge.value.ready != Some(row'.challenge.value.revision)
  }

  lemma SetChangedKeeps(row: Installation, row': Installation, site: Site, ingress: Ingress, job: nat)
    requires Coherent(row, site, ingress) && job !in row.jobs && !row.state.Retired? && SetChanged(row, row', job)
    ensures Coherent(row', site, ingress)
  {
    EnqueuedPends(row, row', job, ReconcileTxt);
    hide Desired;
  }

  lemma RetireKeeps(row: Installation, row': Installation, site: Site, ingress: Ingress, job: nat)
    requires Coherent(row, site, ingress) && job !in row.jobs && job + 1 !in row.jobs && site.holder.None?
    requires row'.state.Retired?
    requires row'.jobs == row.jobs[job := Job(RemoveRecords, false)][job + 1 := Job(RemoveTxtAll, false)]
    ensures Coherent(row', site, ingress)
  {
    assert job in row'.jobs && job + 1 in row'.jobs;
    assert row'.jobs[job] == Job(RemoveRecords, false) && row'.jobs[job + 1] == Job(RemoveTxtAll, false);
  }

  lemma RelocateKeeps(row: Installation, site: Site, ingress: Ingress, placement: string, job: nat)
    requires Coherent(row, site, ingress) && job !in row.jobs && row.state.DnsReady? && row.account.Some?
    requires site.holder.None?
    ensures Coherent(RelocateRow(row, placement, job), site, ingress)
  {
    EnqueuedPends(row, RelocateRow(row, placement, job), job, PublishName);
    hide Desired;
  }

  ghost predicate CoherentAt(db: Db, id: Uuid, site: Site, ingress: Ingress) {
    id in db.installations && Coherent(db.installations[id], site, ingress)
  }

  lemma CredentialsKeep(db: Db, a: Action, site: Site, ingress: Ingress)
    requires a.DoIssue? || a.DoRenew? || a.DoClaim? || a.DoRenewTunnel?
    requires CoherentAt(db, a.id, site, ingress)
    ensures CoherentAt(Step(db, a), a.id, site, ingress)
  {
    CredentialsApart(db, a);
    hide Coherent, Step, SameDns;
    SameDnsKeeps(db.installations[a.id], Step(db, a).installations[a.id], site, ingress);
  }

  lemma CredentialsApart(db: Db, a: Action)
    requires (a.DoIssue? || a.DoRenew? || a.DoClaim? || a.DoRenewTunnel?) && a.id in db.installations
    ensures a.id in Step(db, a).installations && SameDns(db.installations[a.id], Step(db, a).installations[a.id])
  {
    hide Replay, Revoke, Renewable, Newest;
  }

  lemma RefreshedSame(row: Installation, v: string, now: Instant)
    requires Fencing.ChallengeInv(row) && v in row.values
    ensures SameDns(row, RefreshRow(WithChallengeState(row), v, now))
  {
    hide ValidChallengeValue;
  }

  lemma AddedChanges(row: Installation, v: string, now: Instant, job: nat)
    requires Fencing.ChallengeInv(row)
    ensures SetChanged(row, AddValueRow(row, v, now, job), job)
  {
    hide ValidChallengeValue, Live;
  }

  lemma EnsureKeeps(db: Db, id: Uuid, g: nat, v: string, now: Instant, site: Site, ingress: Ingress)
    requires CoherentAt(db, id, site, ingress) && Fencing.RowInv(db.installations[id], db.nextJob)
    ensures CoherentAt(EnsureChallengeValue(db, id, g, v, now).db, id, site, ingress)
  {
    hide Coherent, Fencing.IdentityInv, Fencing.BearersInv, Fencing.LeaseInv, Fencing.ChallengeInv, ValidChallengeValue,
      ChallengeBearer, Live, RefreshRow, AddValueRow, WithChallengeState, SameDns, SetChanged;
    var row := db.installations[id];
    if v in row.values && row.values[v] > now {
      RefreshedSame(row, v, now);
      SameDnsKeeps(row, RefreshRow(WithChallengeState(row), v, now), site, ingress);
    } else if row.state.DnsReady? {
      AddedChanges(row, v, now, db.nextJob);
      SetChangedKeeps(row, AddValueRow(row, v, now, db.nextJob), site, ingress, db.nextJob);
    }
  }

  lemma SweepValuesKeeps(db: Db, id: Uuid, now: Instant, site: Site, ingress: Ingress)
    requires CoherentAt(db, id, site, ingress) && Fencing.RowInv(db.installations[id], db.nextJob)
    ensures CoherentAt(ExpireChallengeValues(db, id, now).0, id, site, ingress)
  {
    var row := db.installations[id];
    hide Coherent, Fencing.BearersInv, Fencing.LeaseInv, Live;
    if HasLapsed(row, now) {
      assert SetChanged(row, SweepRow(row, now, db.nextJob), db.nextJob);
      SetChangedKeeps(row, SweepRow(row, now, db.nextJob), site, ingress, db.nextJob);
    }
  }

  lemma SweepPendingKeeps(db: Db, id: Uuid, now: Instant, site: Site, ingress: Ingress)
    requires CoherentAt(db, id, site, ingress) && Fencing.RowInv(db.installations[id], db.nextJob) && site.holder.None?
    ensures CoherentAt(ExpirePendingAllocation(db, id, now).0, id, site, ingress)
  {
    var row := db.installations[id];
    hide Coherent, Fencing.BearersInv, Fencing.LeaseInv;
    RetireKeeps(row, ExpirePendingRow(row, db.nextJob), site, ingress, db.nextJob);
  }

  lemma RetirementKeeps(db: Db, id: Uuid, op: Uuid, now: Instant, site: Site, ingress: Ingress)
    requires CoherentAt(db, id, site, ingress) && Fencing.RowInv(db.installations[id], db.nextJob) && site.holder.None?
    ensures CoherentAt(Retire(db, id, op, now).db, id, site, ingress)
  {
    hide Coherent, Fencing.BearersInv, Fencing.LeaseInv;
    var row := db.installations[id];
    RetireKeeps(row, RetireRow(row, db.nextJob), site, ingress, db.nextJob);
  }

  lemma RelocationKeeps(db: Db, id: Uuid, op: Uuid, placement: string, now: Instant, site: Site,
      ingress: Ingress)
    requires CoherentAt(db, id, site, ingress) && Fencing.RowInv(db.installations[id], db.nextJob) && site.holder.None?
    ensures CoherentAt(Relocate(db, id, op, placement, now).db, id, site, ingress)
  {
    hide Coherent, Fencing.BearersInv, Fencing.LeaseInv, ValidPlacement, RelocateRow;
    var row := db.installations[id];
    if row.state.DnsReady? {
      RelocateKeeps(row, site, ingress, placement, db.nextJob);
    }
  }

  lemma RegistrationKeeps(db: Db, environment: AcmeEnvironment, id: Uuid, account: string, site: Site, ingress: Ingress)
    requires CoherentAt(db, id, site, ingress) && Fencing.RowInv(db.installations[id], db.nextJob)
    ensures CoherentAt(RegisterAcmeAccount(db, environment, id, account).db, id, site, ingress)
  {
    hide Coherent, Fencing.BearersInv, Fencing.LeaseInv, Enqueue, ValidAccountUri;
    var row := db.installations[id];
    if !row.state.Retired? {
      RegisterKeeps(row, site, ingress, account, db.nextJob);
    }
  }

  /** Any transaction that is not the worker's own keeps the installation coherent. */
  lemma TransactKeeps(db: Db, a: Action, site: Site, ingress: Ingress)
    requires Fencing.Inv(db) && !WorkerOnly(a) && (TakesLock(a) ==> site.holder.None?)
    requires CoherentAt(db, a.id, site, ingress)
    ensures CoherentAt(Step(db, a), a.id, site, ingress)
  {
    assert Fencing.RowInv(db.installations[a.id], db.nextJob);
    hide CoherentAt, Fencing.Inv, Fencing.RowInv, Allocate, EnsureChallengeValue, ExpireChallengeValues,
      ExpirePendingAllocation,
      Retire, Relocate, RegisterAcmeAccount;
    if a.DoAllocate? {
      AllocateElsewhere(db, a);
    } else if a.DoEnsure? {
      EnsureKeeps(db, a.id, a.generation, a.value, a.now, site, ingress);
    } else if a.DoSweepValues? {
      SweepValuesKeeps(db, a.id, a.now, site, ingress);
    } else if a.DoSweepPending? {
      SweepPendingKeeps(db, a.id, a.now, site, ingress);
    } else if a.DoRetire? {
      RetirementKeeps(db, a.id, a.op, a.now, site, ingress);
    } else if a.DoRelocate? {
      RelocationKeeps(db, a.id, a.op, a.placement, a.now, site, ingress);
    } else if a.DoRegister? {
      RegistrationKeeps(db, a.environment, a.id, a.account, site, ingress);
    } else {
      hide Step;
      CredentialsKeep(db, a, site, ingress);
    }
  }

  /** Allocation never reuses an installation's id. */
  lemma AllocateElsewhere(db: Db, a: Action)
    requires a.DoAllocate? && a.id in db.installations
    ensures Step(db, a) == db
  {
    hide ValidPlacement;
  }

  // ------------------------------------------------------------------
  // Worker moves keep an installation coherent
  // ------------------------------------------------------------------

  lemma QueueMoveKeeps(row: Installation, site: Site, ingress: Ingress, m: Move)
    requires Coherent(row, site, ingress) && Enabled(row, site, ingress, m)
    requires m.Claim? || m.Abandon? || m.Lock? || m.GiveUp? || m.Crash?
    ensures Coherent(row, MoveSite(row, site, ingress, m), ingress)
  {
    hide Desired;
  }

  lemma ReadIdentityKeeps(row: Installation, site: Site, ingress: Ingress)
    requires Coherent(row, site, ingress) && Enabled(row, site, ingress, ReadIdentity)
    requires Fencing.ChallengeInv(row) && Fencing.IdentityInv(row)
    ensures Coherent(row, MoveSite(row, site, ingress, ReadIdentity), ingress)
  {
    hide Desired;
  }

  lemma ReadTargetKeeps(row: Installation, site: Site, ingress: Ingress)
    requires Coherent(row, site, ingress) && Enabled(row, site, ingress, ReadTarget) && Fencing.ChallengeInv(row)
    ensures Coherent(row, MoveSite(row, site, ingress, ReadTarget), ingress)
  {
    hide Desired;
  }

  lemma WriteServingKeeps(row: Installation, site: Site, ingress: Ingress, serving: set<Record>)
    requires Coherent(row, site, ingress) && Enabled(row, site, ingress, WriteServing(serving))
    ensures Coherent(row, site.(serving := serving), ingress)
  {
    hide Desired, PartialWrite;
    assert Pending(row, row.jobs[site.holder.value.job].kind);
  }

  /** While a set is recorded ready, any write under the lock rewrites that same set. */
  lemma WriteTxtKeeps(row: Installation, site: Site, ingress: Ingress, txt: set<string>)
    requires Coherent(row, site, ingress) && Enabled(row, site, ingress, WriteTxt(txt)) && Fencing.ChallengeInv(row)
    ensures Coherent(row, site.(txt := txt), ingress)
  {
    hide Desired, ValidTarget;
    assert Pending(row, row.jobs[site.holder.value.job].kind);
    if site.holder.value.phase.SetTxt? && site.holder.value.phase.values == site.txt {
      assert txt == site.txt;
    }
  }

  lemma FinishWriteKeeps(row: Installation, site: Site, ingress: Ingress)
    requires Coherent(row, site, ingress) && Enabled(row, site, ingress, FinishWrite) && Fencing.ChallengeInv(row)
    ensures Coherent(row, FinishedWrite(row, site, ingress), ingress)
  {
    hide Desired, ValidTarget;
    assert Pending(row, row.jobs[site.holder.value.job].kind);
  }

  lemma LookKeeps(row: Installation, site: Site, ingress: Ingress, visible: bool)
    requires Coherent(row, site, ingress) && Enabled(row, site, ingress, Look(visible))
    ensures Coherent(row, MoveSite(row, site, ingress, Look(visible)), ingress)
  {
    hide Desired;
  }

  lemma SameJobsPend(row: Installation, row': Installation)
    requires row'.jobs == row.jobs
    ensures forall k, j :: PendingOther(row, k, j) <==> PendingOther(row', k, j)
    ensures forall k :: Pending(row, k) <==> Pending(row', k)
  {
  }

  lemma MarkPublishedKeeps(row: Installation, row': Installation, site: Site, ingress: Ingress)
    requires Coherent(row, site, ingress) && Enabled(row, site, ingress, Mark) && site.holder.value.phase.Publish?
    requires row' == row || (row.state.PendingDns? && row' == row.(state := DnsReady))
    ensures Coherent(row', InPhase(site, Done(true)), ingress)
  {
    hide Desired, KnownAccount;
    SameJobsPend(row, row');
    hide Pending, PendingOther;
  }

  /** The compare-and-swap: only the revision that was written is recorded ready. */
  lemma MarkReconciledKeeps(row: Installation, row': Installation, site: Site, ingress: Ingress)
    requires Coherent(row, site, ingress) && Enabled(row, site, ingress, Mark) && site.holder.value.phase.SetTxt?
    requires Fencing.ChallengeInv(row)
    requires row' == if row.challenge.Some? && row.challenge.value.revision == site.holder.value.phase.revision
                     then row.(challenge := Some(row.challenge.value.(ready := Some(site.holder.value.phase.revision))))
                     else row
    ensures Coherent(row', InPhase(site, Done(true)), ingress)
  {
    hide Desired, KnownAccount;
    SameJobsPend(row, row');
    hide Pending, PendingOther;
  }

  lemma MarkKeeps(db: Db, id: Uuid, site: Site, ingress: Ingress)
    requires CoherentAt(db, id, site, ingress) && Fencing.RowInv(db.installations[id], db.nextJob)
    requires Enabled(db.installations[id], site, ingress, Mark)
    ensures CoherentAt(MoveDb(db, id, site, Mark), id, InPhase(site, Done(true)), ingress)
  {
    assert site.holder.value.phase.Publish? || site.holder.value.phase.SetTxt?;
    hide Coherent, Fencing.BearersInv, Fencing.LeaseInv, Enabled, InPhase;
    var row, row' := db.installations[id], MoveDb(db, id, site, Mark).installations[id];
    if site.holder.value.phase.Publish? {
      MarkPublishedKeeps(row, row', site, ingress);
    } else {
      MarkReconciledKeeps(row, row', site, ingress);
    }
  }

  lemma RecordKeeps(db: Db, id: Uuid, site: Site, ingress: Ingress)
    requires CoherentAt(db, id, site, ingress) && Enabled(db.installations[id], site, ingress, RecordOutcome)
    ensures CoherentAt(MoveDb(db, id, site, RecordOutcome), id, site.(holder := None), ingress)
  {
    var row := db.installations[id];
    if site.holder.value.phase == Done(true) {
      CompletedKeeps(row,
        row.(jobs := row.jobs[site.holder.value.job := row.jobs[site.holder.value.job].(completed := true)]), site,
          ingress);
    } else {
      QueueMoveKeeps(row, site, ingress, Crash);
    }
    hide Coherent;
  }

  lemma CompletedKeeps(row: Installation, row': Installation, site: Site, ingress: Ingress)
    requires Coherent(row, site, ingress) && site.holder.Some? && site.holder.value.phase == Done(true)
    requires var job := site.holder.value.job; row' == row.(jobs := row.jobs[job := row.jobs[job].(completed := true)])
    ensures Coherent(row', site.(holder := None), ingress)
  {
    var job := site.holder.value.job;
    forall k | PendingOther(row, k, job) ensures Pending(row', k) {
      var j :| j in row.jobs && row.jobs[j] == Job(k, false) && j != job;
      assert j in row'.jobs;
    }
    forall k | Pending(row, k) && k != row.jobs[job].kind ensures Pending(row', k) {
      var j :| j in row.jobs && row.jobs[j] == Job(k, false);
      assert j in row'.jobs;
    }
    hide Desired, Pending, PendingOther;
  }

  lemma MoveKeeps(db: Db, id: Uuid, site: Site, ingress: Ingress, m: Move)
    requires CoherentAt(db, id, site, ingress) && Fencing.RowInv(db.installations[id], db.nextJob)
    requires Enabled(db.installations[id], site, ingress, m)
    ensures CoherentAt(MoveDb(db, id, site, m), id, MoveSite(db.installations[id], site, ingress, m), ingress)
  {
    var row := db.installations[id];
    hide Coherent, Fencing.BearersInv, Enabled;
    if m.Mark? {
      MarkKeeps(db, id, site, ingress);
    } else if m.RecordOutcome? {
      RecordKeeps(db, id, site, ingress);
    } else if m.WriteServing? {
      WriteServingKeeps(row, site, ingress, m.serving);
    } else if m.WriteTxt? {
      WriteTxtKeeps(row, site, ingress, m.txt);
    } else if m.FinishWrite? {
      FinishWriteKeeps(row, site, ingress);
    } else {
      hide MoveSite;
      match m
      case ReadIdentity => ReadIdentityKeeps(row, site, ingress);
      case ReadTarget => ReadTargetKeeps(row, site, ingress);
      case Look(visible) => LookKeeps(row, site, ingress, visible);
      case _ => QueueMoveKeeps(row, site, ingress, m);
    }
  }

  // ------------------------------------------------------------------
  // Every step keeps every installation coherent
  // ------------------------------------------------------------------

  lemma AllocatedCoherent(db: Db, a: Action, ingress: Ingress)
    requires a.id !in db.installations
    ensures a.id in Step(db, a).installations ==> Coherent(Step(db, a).installations[a.id], NEW_SITE, ingress)
  {
    if a.id in Step(db, a).installations {
      assert a.DoAllocate?;
      var row := Step(db, a).installations[a.id];
      assert row.jobs[db.nextJob] == Job(PublishName, false);
      hide Step;
    }
  }

  lemma InvAt(s: System, id: Uuid)
    requires Inv(s) && id in s.sites
    ensures CoherentAt(s.db, id, s.sites[id], s.ingress)
    ensures Fencing.Inv(s.db) && Fencing.RowInv(s.db.installations[id], s.db.nextJob)
  {
    hide Coherent, Fencing.RowInv;
  }

  /** A step that leaves one installation coherent and the others alone keeps the invariant. */
  lemma InvFrom(s: System, s': System, id: Uuid)
    requires Inv(s) && s'.ingress == s.ingress && Fencing.Inv(s.db) && Fencing.Advance(s.db, s'.db, id)
    requires s'.sites.Keys == s'.db.installations.Keys
    requires forall i | i in s.sites && i != id :: i in s'.sites && s'.sites[i] == s.sites[i]
    requires id in s'.sites ==> CoherentAt(s'.db, id, s'.sites[id], s'.ingress)
    ensures Inv(s')
  {
    hide Coherent, Fencing.Inv, Fencing.Advance, Fencing.RowInv;
    Fencing.AdvanceKeepsInv(s.db, s'.db, id);
    Elsewhere(s.db, s'.db, id);
  }

  lemma Elsewhere(db: Db, db': Db, id: Uuid)
    requires Fencing.Advance(db, db', id)
    ensures Fencing.SameElsewhere(db, db', id)
  {
    hide Fencing.RowInv, Fencing.OperationsInv, Fencing.AuthorityOf;
  }

  lemma TransactKeepsInv(s: System, a: Action)
    requires Inv(s) && CanStep(s, Transact(a))
    ensures Inv(TakeStep(s, Transact(a)))
  {
    hide Inv, Step, Coherent, Enabled, MoveSite, MoveDb, Fencing.Inv, Fencing.Advance, Fencing.RowInv;
    InvParts(s);
    var s' := TakeStep(s, Transact(a));
    Fencing.StepAdvances(s.db, a);
    Elsewhere(s.db, s'.db, a.id);
    if a.id in s.sites {
      InvAt(s, a.id);
      TransactKeeps(s.db, a, s.sites[a.id], s.ingress);
    } else {
      AllocatedCoherent(s.db, a, s.ingress);
    }
    InvFrom(s, s', a.id);
  }

  lemma MoveAdvances(db: Db, id: Uuid, site: Site, m: Move)
    requires Fencing.Inv(db) && (site.holder.Some? || !(m.Mark? || m.RecordOutcome?))
    ensures Fencing.Advance(db, MoveDb(db, id, site, m), id)
  {
    hide Fencing.Inv, Fencing.Advance, MarkChallengeReconciled, MarkDnsReady, CompleteJob;
    Fencing.Unchanged(db, id);
    if m.Mark? && site.holder.value.phase.SetTxt? {
      Fencing.MarkReconciledAdvances(db, id, site.holder.value.phase.revision);
    } else if m.Mark? {
      Fencing.MarkReadyAdvances(db, id);
    } else if m.RecordOutcome? {
      Fencing.CompleteAdvances(db, id, site.holder.value.job);
    }
  }

  lemma WorkKeepsInv(s: System, id: Uuid, m: Move)
    requires Inv(s) && CanStep(s, Work(id, m))
    ensures Inv(TakeStep(s, Work(id, m)))
  {
    hide Inv, Coherent, Step, MoveSite, MoveDb, Fencing.Inv, Fencing.Advance, Fencing.RowInv, Enabled;
    InvParts(s);
    var s' := TakeStep(s, Work(id, m));
    InvAt(s, id);
    HolderNeeded(s.db.installations[id], s.sites[id], s.ingress, m);
    MoveAdvances(s.db, id, s.sites[id], m);
    Elsewhere(s.db, s'.db, id);
    MoveKeeps(s.db, id, s.sites[id], s.ingress, m);
    InvFrom(s, s', id);
  }

  lemma HolderNeeded(row: Installation, site: Site, ingress: Ingress, m: Move)
    requires Enabled(row, site, ingress, m)
    ensures site.holder.Some? || !(m.Mark? || m.RecordOutcome?)
  {
  }

  lemma {:induction false} RunInv(states: seq<System>, steps: seq<SystemStep>, i: nat)
    requires IsRun(states, steps) && i < |states|
    ensures Inv(states[i])
  {
    hide Inv, CanStep, TakeStep;
    if i == 0 {
      EmptyInv(states[0]);
    } else {
      RunInv(states, steps, i - 1);
      match steps[i - 1]
      case Transact(a) => TransactKeepsInv(states[i - 1], a);
      case Work(id, m) => WorkKeepsInv(states[i - 1], id, m);
    }
  }

  lemma EmptyInv(s: System)
    requires EmptyDb(s.db) && s.sites == map[]
    ensures Inv(s)
  {
    hide Coherent;
  }

  lemma InvParts(s: System)
    requires Inv(s)
    ensures Fencing.Inv(s.db) && s.sites.Keys == s.db.installations.Keys
  {
    hide Coherent, Fencing.Inv;
  }

  lemma ReachedAt(states: seq<System>, steps: seq<SystemStep>, i: nat, id: Uuid)
    requires IsRun(states, steps) && i < |states| && (id in states[i].sites || id in states[i].db.installations)
    ensures id in states[i].sites && CoherentAt(states[i].db, id, states[i].sites[id], states[i].ingress)
    ensures Fencing.RowInv(states[i].db.installations[id], states[i].db.nextJob)
  {
    RunInv(states, steps, i);
    hide IsRun;
    assert states[i].sites.Keys == states[i].db.installations.Keys by {
      hide Coherent, Fencing.Inv;
    }
    hide Inv, CoherentAt, Fencing.RowInv;
    InvAt(states[i], id);
  }

  // ------------------------------------------------------------------
  // What every run guarantees
  // ------------------------------------------------------------------

  /** Readiness is sound: a value reported ready is on DNS now, as part of exactly the
      stored set, which was published and observed at the current revision. */
  lemma ReadinessSound(states: seq<System>, steps: seq<SystemStep>, i: nat, id: Uuid, v: string, r: nat, now: Instant)
    requires IsRun(states, steps) && i < |states| && ChallengeValueReady(states[i].db, id, v, r, now)
    ensures id in states[i].sites && v in states[i].sites[id].txt
    ensures states[i].sites[id].txt == states[i].db.installations[id].values.Keys
    ensures states[i].db.installations[id].challenge.value.revision >= r
    ensures (states[i].db.installations[id].challenge.value.revision,
      states[i].sites[id].txt) in states[i].sites[id].observed
    ensures states[i].db.installations[id].state.DnsReady?
  {
    hide IsRun;
    ReachedAt(states, steps, i, id);
  }

  /** No wake-up is lost: a side of DNS that differs from the stored desired state has
      an incomplete job of the kind that repairs it. */
  lemma NoLostWakeUp(states: seq<System>, steps: seq<SystemStep>, i: nat, id: Uuid)
    requires IsRun(states, steps) && i < |states| && id in states[i].sites
    ensures id in states[i].db.installations
    ensures var row, site := states[i].db.installations[id], states[i].sites[id];
      && (site.serving != DesiredServing(row, states[i].ingress) ==> Pending(row, ServingKind(row)))
      && (site.txt != DesiredTxt(row) ==> Pending(row, TxtKind(row)))
      && (!row.state.Retired? && row.challenge.Some? ==>
            row.challenge.value.ready == Some(row.challenge.value.revision) || Pending(row, ReconcileTxt))
  {
    hide IsRun;
    ReachedAt(states, steps, i, id);
  }

  ghost predicate Quiet(row: Installation) {
    forall j | j in row.jobs :: row.jobs[j].completed
  }

  /** Whatever the order, duplication, deferral or crash history: once an
      installation's outbox is empty, DNS is exactly what the rows call for, a
      retired name has no records, and readiness is recorded. */
  lemma QuietConverged(states: seq<System>, steps: seq<SystemStep>, i: nat, id: Uuid)
    requires IsRun(states, steps) && i < |states| && id in states[i].sites
    requires id in states[i].db.installations && Quiet(states[i].db.installations[id])
    ensures var row, site := states[i].db.installations[id], states[i].sites[id];
      && site.serving == DesiredServing(row, states[i].ingress)
      && site.txt == DesiredTxt(row)
      && (row.state.Retired? ==> site.serving == {} && site.txt == {})
      && (!row.state.Retired? && row.challenge.Some? ==>
            row.challenge.value.ready == Some(row.challenge.value.revision))
      && site.holder.None? && site.waiting == map[]
  {
    hide IsRun;
    NoLostWakeUp(states, steps, i, id);
    ReachedAt(states, steps, i, id);
  }

  /** Every challenge set a worker holds passes the provider's validation. */
  lemma TargetsAlwaysValid(states: seq<System>, steps: seq<SystemStep>, i: nat, id: Uuid)
    requires IsRun(states, steps) && i < |states| && id in states[i].sites && id in states[i].db.installations
    ensures ValidTarget(ChallengeTarget(states[i].db.installations[id]).1)
    ensures states[i].sites[id].holder.Some? && states[i].sites[id].holder.value.phase.SetTxt? ==>
      ValidTarget(states[i].sites[id].holder.value.phase.values)
  {
    hide IsRun;
    ReachedAt(states, steps, i, id);
  }

  /** Whatever a worker publishes, the hostname and the account it read pass the provider's
      validation. */
  lemma PublishesKnown(states: seq<System>, steps: seq<SystemStep>, i: nat, id: Uuid)
    requires IsRun(states, steps) && i < |states| && id in states[i].sites && id in states[i].db.installations
    ensures var row, site := states[i].db.installations[id], states[i].sites[id];
      && ValidHostname(row.hostname) && (row.account.Some? ==> KnownAccount(row.account.value))
      && (site.holder.Some? && site.holder.value.phase.Publish? ==> KnownAccount(site.holder.value.phase.account))
  {
    hide IsRun, ValidHostname, KnownAccount;
    ReachedAt(states, steps, i, id);
  }

  // ------------------------------------------------------------------
  // Fenced provider writes
  // ------------------------------------------------------------------

  /** What a single step may write for an installation whose row is `row`. */
  ghost predicate LawfulWrite(row: Installation, site: Site, site': Site, ingress: Ingress) {
    && (row.state.Retired? ==> site'.serving <= site.serving && site'.txt <= site.txt)
    && (forall ip :: Address(ip) in site'.serving - site.serving ==> ip in Addresses(ingress, row.placement))
    && (forall account :: Issue(account) in site'.serving - site.serving ==>
          Some(account) == row.account || Pending(row, PublishName))
  }

  lemma PublishedIsLawful(row: Installation, site: Site, site': Site, ingress: Ingress,
      account: string)
    requires !row.state.Retired? && (Some(account) == row.account || Pending(row, PublishName))
    requires site'.serving <= site.serving + Desired(ingress, row.placement, account)
    ensures LawfulWrite(row, site, site', ingress)
  {
  }

  lemma MoveWritesLawfully(row: Installation, site: Site, ingress: Ingress, m: Move)
    requires Coherent(row, site, ingress) && Enabled(row, site, ingress, m)
    ensures LawfulWrite(row, site, MoveSite(row, site, ingress, m), ingress)
  {
    hide Coherent, LawfulWrite, Enabled, MoveSite;
    if m.FinishWrite? {
      FinishWritesLawfully(row, site, ingress);
    } else if m.WriteServing? || m.WriteTxt? {
      CallWritesLawfully(row, site, ingress, m);
    } else {
      OthersWriteNothing(row, site, ingress, m);
    }
  }

  lemma OthersWriteNothing(row: Installation, site: Site, ingress: Ingress, m: Move)
    requires Enabled(row, site, ingress, m) && !m.WriteServing? && !m.WriteTxt? && !m.FinishWrite?
    ensures LawfulWrite(row, site, MoveSite(row, site, ingress, m), ingress)
  {
    hide Identify, Desired;
  }

  lemma CallWritesLawfully(row: Installation, site: Site, ingress: Ingress, m: Move)
    requires Coherent(row, site, ingress) && Enabled(row, site, ingress, m) && (m.WriteServing? || m.WriteTxt?)
    ensures LawfulWrite(row, site, MoveSite(row, site, ingress, m), ingress)
  {
    hide ReadinessOk, WakeUps, ValidTarget, Desired;
    if site.holder.value.phase.Publish? {
      PublishedIsLawful(row, site, MoveSite(row, site, ingress, m), ingress, site.holder.value.phase.account);
    }
  }

  lemma FinishWritesLawfully(row: Installation, site: Site, ingress: Ingress)
    requires Coherent(row, site, ingress) && Enabled(row, site, ingress, FinishWrite)
    ensures LawfulWrite(row, site, MoveSite(row, site, ingress, FinishWrite), ingress)
  {
    hide ReadinessOk, WakeUps, ValidTarget, Desired;
    if site.holder.value.phase.Publish? {
      PublishedIsLawful(row, site, MoveSite(row, site, ingress, FinishWrite), ingress, site.holder.value.phase.account);
    }
  }

  lemma StepWritesLawfully(states: seq<System>, steps: seq<SystemStep>, i: nat, id: Uuid)
    requires IsRun(states, steps) && i < |steps| && id in states[i].sites
    ensures id in states[i + 1].sites && id in states[i].db.installations
    ensures LawfulWrite(states[i].db.installations[id], states[i].sites[id], states[i + 1].sites[id], states[i].ingress)
  {
    hide Step, Enabled, MoveSite, MoveDb, Coherent, LawfulWrite;
    ReachedAt(states, steps, i, id);
    if steps[i].Work? && steps[i].id == id {
      MoveWritesLawfully(states[i].db.installations[id], states[i].sites[id], states[i].ingress, steps[i].move);
    } else {
      NothingWritten(states[i].db.installations[id], states[i].sites[id], states[i].ingress);
    }
  }

  lemma NothingWritten(row: Installation, site: Site, ingress: Ingress)
    ensures LawfulWrite(row, site, site, ingress)
  {
  }

  /** After a retirement or pending expiry commits, no step ever again publishes a
      serving or TXT record for that name. */
  lemma {:induction false} RetiredOnlyShrinks(states: seq<System>, steps: seq<SystemStep>, i: nat, j: nat, id: Uuid)
    requires IsRun(states, steps) && i <= j < |states| && id in states[i].sites
    requires id in states[i].db.installations && states[i].db.installations[id].state.Retired?
    ensures id in states[j].sites && id in states[j].db.installations && states[j].db.installations[id].state.Retired?
    ensures states[j].sites[id].serving <= states[i].sites[id].serving
    ensures states[j].sites[id].txt <= states[i].sites[id].txt
  {
    hide CanStep, TakeStep, Inv;
    if i < j {
      RetiredOnlyShrinks(states, steps, i, j - 1, id);
      StepWritesLawfully(states, steps, j - 1, id);
      RunInv(states, steps, j - 1);
      RetiredStays(states[j - 1], steps[j - 1], id);
    }
  }

  lemma RetiredStays(s: System, step: SystemStep, id: Uuid)
    requires Inv(s) && CanStep(s, step) && id in s.db.installations && s.db.installations[id].state.Retired?
    ensures id in TakeStep(s, step).db.installations && TakeStep(s, step).db.installations[id].state.Retired?
  {
    assert Fencing.Inv(s.db) by {
      hide Coherent, Fencing.Inv, Enabled;
    }
    hide Inv, Step, MoveDb, MoveSite, Coherent, Fencing.Inv, Fencing.RowInv, Fencing.OperationsInv, Fencing.AuthorityOf;
    match step
    case Transact(a) =>
      hide Enabled;
      Fencing.StepAdvances(s.db, a);
    case Work(i, m) =>
      HolderNeeded(s.db.installations[i], s.sites[i], s.ingress, m);
      hide Enabled;
      MoveAdvances(s.db, i, s.sites[i], m);
  }

  /** Every address a step adds belongs to the placement stored at that moment: after a
      move commits, nothing writes the old placement's addresses. */
  lemma WritesFollowPlacement(states: seq<System>, steps: seq<SystemStep>, i: nat, id: Uuid, ip: string)
    requires IsRun(states, steps) && i < |steps| && id in states[i].sites
    ensures id in states[i + 1].sites && id in states[i].db.installations
    ensures Address(ip) in states[i + 1].sites[id].serving && Address(ip) !in states[i].sites[id].serving ==>
      ip in Addresses(states[i].ingress, states[i].db.installations[id].placement)
      && !states[i].db.installations[id].state.Retired?
  {
    StepWritesLawfully(states, steps, i, id);
    hide IsRun;
  }

  // ------------------------------------------------------------------
  // Declaring serving DNS ready
  // ------------------------------------------------------------------

  /** When a worker declares an installation ready, its published records are those of
      the account it read, which are the wanted ones exactly when that is still the
      bound account. */
  lemma ReadyDeclaredExactly(states: seq<System>, steps: seq<SystemStep>, i: nat, id: Uuid)
    requires IsRun(states, steps) && i < |steps| && steps[i] == Work(id, Mark)
    requires states[i].sites[id].holder.value.phase.Publish?
    ensures id in states[i].db.installations && id in states[i + 1].db.installations && id in states[i + 1].sites
    ensures var row, row', account := states[i].db.installations[id], states[i + 1].db.installations[id],
      states[i].sites[id].holder.value.phase.account;
      && row'.state.DnsReady?
      && row.account.Some?
      && states[i + 1].sites[id].serving == Desired(states[i].ingress, row.placement, account)
      && (states[i + 1].sites[id].serving == DesiredServing(row', states[i].ingress) <==> account == row.account.value)
      && (account != row.account.value ==> Pending(row', PublishName))
  {
    hide Step, MoveSite, Coherent;
    ReachedAt(states, steps, i, id);
    var row, site := states[i].db.installations[id], states[i].sites[id];
    MarkedPublished(states[i].db, id, site, states[i].ingress);
    DesiredInjective(states[i].ingress, row.placement, site.holder.value.phase.account, row.account.value);
  }

  lemma DesiredInjective(ingress: Ingress, placement: string, a: string, b: string)
    ensures Desired(ingress, placement, a) == Desired(ingress, placement, b) <==> a == b
  {
    assert Issue(a) in Desired(ingress, placement, a);
    assert a != b ==> Issue(a) !in Desired(ingress, placement, b);
  }

  lemma MarkedPublished(db: Db, id: Uuid, site: Site, ingress: Ingress)
    requires CoherentAt(db, id, site, ingress) && Enabled(db.installations[id], site, ingress, Mark)
    requires site.holder.value.phase.Publish?
    requires Fencing.RowInv(db.installations[id], db.nextJob)
    ensures id in MoveDb(db, id, site, Mark).installations
    ensures var row, row', account := db.installations[id], MoveDb(db, id, site, Mark).installations[id],
      site.holder.value.phase.account;
      && MoveSite(row, site, ingress, Mark).serving == site.serving == Desired(ingress, row.placement, account)
      && row'.state.DnsReady? && row.account.Some? && row'.account == row.account && row'.placement == row.placement
      && (account != row.account.value ==> Pending(row', PublishName))
  {
    hide Desired, ReadinessOk, WakeUps, Fencing.RowInv;
    SameJobsPend(db.installations[id], MoveDb(db, id, site, Mark).installations[id]);
  }
}
