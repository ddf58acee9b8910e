/** Each store operation as a function on the database: one committed PostgreSQL
    transaction, or no change when the transaction rolls back. `now` is the
    transaction's start time, so it need not follow commit order.
  */
module Transactions {
  import opened Schema

  datatype Outcome<+T> = Outcome(db: Db, reply: Result<T>)

  function Fail<T>(db: Db, e: StoreError): Outcome<T> {
    Outcome(db, Err(e))
  }

  // ------------------------------------------------------------------
  // Effects on one installation's rows
  // ------------------------------------------------------------------

  function Revoke(bearers: map<BearerKey, Bearer>, scope: Scope): map<BearerKey, Bearer> {
    map k | k in bearers :: if k.scope == scope then bearers[k].(revoked := true) else bearers[k]
  }

  /** A rotation of the tunnel bearer also drops the tunnel lease. */
  function LeaseAfterRotation(row: Installation, scope: Scope): Option<Lease> {
    if scope.Tunnel? then None else row.lease
  }

  function IssueRow(row: Installation, scope: Scope, tokenHash: Digest, expiresAt: Instant): Installation {
    var g := row.generation + 1;
    row.(generation := g,
    bearers := Revoke(row.bearers, scope)[BearerKey(scope, g) := Bearer(tokenHash, expiresAt, false)],
    lease := LeaseAfterRotation(row, scope))
  }

  /** Renewal revokes only the renewed generation. */
  function RenewRow(row: Installation, scope: Scope, from: nat, tokenHash: Digest, expiresAt: Instant): Installation
    requires BearerKey(scope, from) in row.bearers
  {
    var g := row.generation + 1;
    var k := BearerKey(scope, from);
    var revoked := row.bearers[k := row.bearers[k].(revoked := true)];
    row.(generation := g,
    bearers := revoked[BearerKey(scope, g) := Bearer(tokenHash, expiresAt, false)],
    lease := LeaseAfterRotation(row, scope))
  }

  function Enqueue(row: Installation, job: nat, kind: JobKind): Installation {
    row.(jobs := row.jobs[job := Job(kind, false)])
  }

  predicate Newest(row: Installation, k: BearerKey) {
    k in row.bearers && forall n | n in row.bearers && n.scope == k.scope :: n.generation <= k.generation
  }

  /** The bearer row a renewal selects. */
  predicate Renewable(row: Installation, w: Windows, k: BearerKey, now: Instant) {
    && k in row.bearers
    && !row.bearers[k].revoked
    && row.bearers[k].expiresAt > now - 1000 * w.grace
    && row.state.DnsReady?
    && Newest(row, k)
  }

  function Live(values: map<string, Instant>, now: Instant): map<string, Instant> {
    map v | v in values && values[v] > now :: values[v]
  }

  /** Advance the set's revision and queue its reconciliation. */
  function ChallengeSetChanged(row: Installation, job: nat): Installation {
    var bumped := if row.challenge.Some?
                  then row.(challenge := Some(row.challenge.value.(revision := row.challenge.value.revision + 1)))
                  else row;
    Enqueue(bumped, job, ReconcileTxt)
  }

  function WithChallengeState(row: Installation): Installation {
    if row.challenge.Some? then row else row.(challenge := Some(ChallengeState(0, None)))
  }

  function RefreshRow(row: Installation, v: string, now: Instant): Installation {
    row.(values := row.values[v := now + CHALLENGE_VALUE_LIFETIME_MS])
  }

  function AddValueRow(row: Installation, v: string, now: Instant, job: nat): Installation {
    var kept := WithChallengeState(row).(values := Live(row.values, now)[v := now + CHALLENGE_VALUE_LIFETIME_MS]);
    ChallengeSetChanged(kept, job)
  }

  predicate HasLapsed(row: Installation, now: Instant) {
    exists v :: v in row.values && row.values[v] <= now
  }

  function SweepRow(row: Installation, now: Instant, job: nat): Installation {
    ChallengeSetChanged(row.(values := Live(row.values, now)), job)
  }

  function RetireRow(row: Installation, job: nat): Installation {
    Enqueue(Enqueue(row.(state := Retired, generation := row.generation + 1, lease := None, values := map[]),
            job, RemoveRecords), job + 1, RemoveTxtAll)
  }

  /** Pending expiry touches neither leases nor challenge values: a pending
      installation has none. */
  function ExpirePendingRow(row: Installation, job: nat): Installation {
    Enqueue(Enqueue(row.(state := Retired, generation := row.generation + 1),
            job, RemoveRecords), job + 1, RemoveTxtAll)
  }

  function RelocateRow(row: Installation, placement: string, job: nat): Installation {
    Enqueue(row.(placement := placement, generation := row.generation + 1, lease := None), job, PublishName)
  }

  // ------------------------------------------------------------------
  // Transactions
  // ------------------------------------------------------------------

  function Put(db: Db, id: Uuid, row: Installation): Db {
    db.(installations := db.installations[id := row])
  }

  /** Commit a row with its audit record, having taken `jobs` outbox ids. */
  function Audited(db: Db, id: Uuid, row: Installation, jobs: nat): Db {
    Put(db, id, row).(nextJob := db.nextJob + jobs, fence := db.fence + 1)
  }

  function Remember(db: Db, op: Uuid, o: Operation): Db {
    db.(operations := db.operations[op := o])
  }

  /** The answer an issue or renewal replay returns. */
  function Replay(known: Operation, id: Uuid, request: Request): Result<Receipt> {
    if known.installation != id || known.request != request then Err(Conflict)
    else if known.receipt.NoReceipt? then Err(InvalidRequest)
    else Ok(known.receipt)
  }

  function Allocate(db: Db, op: Uuid, adminKey: string, placement: string, id: Uuid, drawn: Label, now: Instant):
    Outcome<Uuid>
    // `id` and `drawn` are the random identities of a first use of `op`.
  {
    if !ValidPlacement(placement) then Fail(db, InvalidRequest)
    else if op in db.operations && db.operations[op].installation in db.installations then
      var known := db.operations[op].installation;
      var row := db.installations[known];
      if row.adminKey != adminKey || row.placement != placement then Fail(db, Conflict)
      else Outcome(db, Ok(known))
    else if id in db.installations || op in db.operations || HostnameTaken(db, HostnameOf(drawn))
    then Fail(db, Unavailable)
    else
      var row := Installation(HostnameOf(drawn), adminKey, placement, 1, PendingDns, None, now, map[], None, None,
                              map[], map[db.nextJob := Job(PublishName, false)]);
      Outcome(Remember(Audited(db, id, row, 1), op, Operation(id, AllocateRequest, NoReceipt, now)), Ok(id))
  }

  predicate HostnameTaken(db: Db, hostname: string) {
    exists i :: i in db.installations && db.installations[i].hostname == hostname
  }

  function IssueBearer(db: Db, w: Windows, id: Uuid, op: Uuid, scope: Scope, tokenHash: Digest, validity: int,
      now: Instant):
    Outcome<Receipt>
  {
    var request := IssueRequest(scope, validity, tokenHash);
    if scope.SurfaceAdmin? || !(60 <= validity <= 86400) then Fail(db, InvalidRequest)
    else if op in db.operations then Outcome(db, Replay(db.operations[op], id, request))
    else if id !in db.installations || db.installations[id].state.Retired? then Fail(db, Conflict)
    else
      var expiresAt := now + 1000 * MinOf(validity, w.validity);
      var row := IssueRow(db.installations[id], scope, tokenHash, expiresAt);
      var receipt := Receipt(row.generation, expiresAt);
      Outcome(Remember(Audited(db, id, row, 0), op, Operation(id, request, receipt, now)), Ok(receipt))
  }

  function RenewBearer(db: Db, w: Windows, id: Uuid, op: Uuid, scope: Scope, from: nat, token: string, newHash: Digest,
      now: Instant):
    Outcome<Receipt>
  {
    var request := RenewRequest(scope, from, Sha256(token), newHash);
    var k := BearerKey(scope, from);
    if scope.SurfaceAdmin? || !(43 <= |token| <= 128) then Fail(db, InvalidRequest)
    else if op in db.operations then
      if db.operations[op].createdAt > now - 300000 then Outcome(db, Replay(db.operations[op], id, request))
      else Fail(db, Conflict)
    else if id !in db.installations || !Renewable(db.installations[id], w, k, now)
            || db.installations[id].bearers[k].tokenHash != Sha256(token) then Fail(db, Unauthorized)
    else
      var expiresAt := now + 1000 * w.validity;
      var row := RenewRow(db.installations[id], scope, from, newHash, expiresAt);
      var receipt := Receipt(row.generation, expiresAt);
      Outcome(Remember(Audited(db, id, row, 0), op, Operation(id, request, receipt, now)), Ok(receipt))
  }

  /** Only an account of the store's own environment is bound. */
  function RegisterAcmeAccount(db: Db, environment: AcmeEnvironment, id: Uuid, account: string): Outcome<()> {
    if !ValidAccountUri(environment, account) then Fail(db, InvalidRequest)
    else if id !in db.installations || db.installations[id].state.Retired? then Fail(db, Conflict)
    else
      var row := Enqueue(db.installations[id].(account := Some(account)), db.nextJob, PublishName);
      Outcome(Audited(db, id, row, 1), Ok(()))
  }

  function MarkDnsReady(db: Db, id: Uuid): Db {
    if id in db.installations && db.installations[id].state.PendingDns? && db.installations[id].account.Some?
    then Audited(db, id, db.installations[id].(state := DnsReady), 0)
    else db
  }

  function ClaimTunnel(db: Db, id: Uuid, gateway: string, ttl: int, now: Instant): Outcome<nat> {
    if |gateway| == 0 || !(5 <= ttl <= 60) then Fail(db, InvalidRequest)
    else if id !in db.installations || !db.installations[id].state.DnsReady?
      || db.installations[id].placement != gateway
    then Fail(db, Conflict)
    else
      var row := db.installations[id];
      var g := row.generation + 1;
      Outcome(Audited(db, id, row.(generation := g, lease := Some(Lease(g, gateway, now + 1000 * ttl))), 0), Ok(g))
  }

  predicate TunnelIsCurrent(db: Db, id: Uuid, gateway: string, generation: nat, now: Instant) {
    && id in db.installations
    && db.installations[id].lease.Some?
    && db.installations[id].lease.value.gateway == gateway
    && db.installations[id].lease.value.generation == generation
    && db.installations[id].lease.value.expiresAt > now
  }

  function RenewTunnel(db: Db, id: Uuid, gateway: string, generation: nat, now: Instant): (r: (Db, bool)) {
    if TunnelIsCurrent(db, id, gateway, generation, now) then
      var row := db.installations[id];
      (Put(db, id, row.(lease := Some(row.lease.value.(expiresAt := now + 45000)))), true)
    else (db, false)
  }

  /** A DNS-challenge bearer that is current for an ensure. */
  predicate ChallengeBearer(row: Installation, generation: nat, now: Instant) {
    var k := BearerKey(DnsChallenge, generation);
    k in row.bearers && !row.bearers[k].revoked && row.bearers[k].expiresAt > now
  }

  function EnsureChallengeValue(db: Db, id: Uuid, generation: nat, v: string,
      now: Instant): Outcome<ChallengeValueState>
  {
    if !ValidChallengeValue(v) then Fail(db, InvalidRequest)
    else if id !in db.installations || !db.installations[id].state.DnsReady? then Fail(db, Conflict)
    else
      var row := db.installations[id];
      if !ChallengeBearer(row, generation, now) then Fail(db, Unauthorized)
      else if v in row.values && row.values[v] > now then
        var refreshed := RefreshRow(WithChallengeState(row), v, now);
        Outcome(Put(db, id, refreshed),
          Ok(ChallengeValueState(refreshed.challenge.value.revision, refreshed.values[v])))
      else if |Live(row.values, now)| >= MAX_LIVE_CHALLENGE_VALUES then Fail(db, Conflict)
      else
        var added := AddValueRow(row, v, now, db.nextJob);
        Outcome(Audited(db, id, added, 1), Ok(ChallengeValueState(added.challenge.value.revision, added.values[v])))
  }

  predicate ChallengeValueReady(db: Db, id: Uuid, v: string, revision: nat, now: Instant) {
    && id in db.installations
    && db.installations[id].challenge.Some?
    && v in db.installations[id].values
    && db.installations[id].values[v] > now
    && db.installations[id].challenge.value.ready == Some(db.installations[id].challenge.value.revision)
    && db.installations[id].challenge.value.revision >= revision
  }

  /** The revision and stored membership, in one snapshot. */
  function ChallengeTarget(row: Installation): (nat, set<string>) {
    (if row.challenge.Some? then row.challenge.value.revision else 0, row.values.Keys)
  }

  function MarkChallengeReconciled(db: Db, id: Uuid, revision: nat): (Db, bool) {
    if id in db.installations && db.installations[id].challenge.Some?
      && db.installations[id].challenge.value.revision == revision
    then
      var row := db.installations[id];
      (Put(db, id, row.(challenge := Some(row.challenge.value.(ready := Some(revision))))), true)
    else (db, false)
  }

  /** One installation's turn in the challenge sweep; true when values lapsed. */
  function ExpireChallengeValues(db: Db, id: Uuid, now: Instant): (Db, bool) {
    if id in db.installations && HasLapsed(db.installations[id], now)
    then (Audited(db, id, SweepRow(db.installations[id], now, db.nextJob), 1), true)
    else (db, false)
  }

  /** One installation's turn in the pending-allocation sweep. */
  function ExpirePendingAllocation(db: Db, id: Uuid, now: Instant): (Db, bool) {
    if id in db.installations && db.installations[id].state.PendingDns? && db.installations[id].createdAt < now - DAY_MS
    then (Audited(db, id, ExpirePendingRow(db.installations[id], db.nextJob), 2), true)
    else (db, false)
  }

  function Retire(db: Db, id: Uuid, op: Uuid, now: Instant): Outcome<()> {
    if op in db.operations then
      if db.operations[op].installation != id || !db.operations[op].request.RetireRequest? then Fail(db, Conflict)
      else Outcome(db, Ok(()))
    else if id !in db.installations then Fail(db, Conflict)
    else
      var changed := if db.installations[id].state.Retired? then db
                     else Audited(db, id, RetireRow(db.installations[id], db.nextJob), 2);
      Outcome(Remember(changed, op, Operation(id, RetireRequest(id), NoReceipt, now)), Ok(()))
  }

  function Relocate(db: Db, id: Uuid, op: Uuid, placement: string, now: Instant): Outcome<()> {
    if !ValidPlacement(placement) then Fail(db, InvalidRequest)
    else if op in db.operations then
      if db.operations[op].installation != id || db.operations[op].request != RelocateRequest(id, placement)
        then Fail(db, Conflict)
      else Outcome(db, Ok(()))
    else if id !in db.installations || !db.installations[id].state.DnsReady?
      || db.installations[id].placement == placement
    then Fail(db, Conflict)
    else
      var moved := Audited(db, id, RelocateRow(db.installations[id], placement, db.nextJob), 1);
      Outcome(Remember(moved, op, Operation(id, RelocateRequest(id, placement), NoReceipt, now)), Ok(()))
  }

  /** Record a claimed job as done. */
  function CompleteJob(db: Db, id: Uuid, job: nat): Db {
    if id in db.installations && job in db.installations[id].jobs then
      var row := db.installations[id];
      Put(db, id, row.(jobs := row.jobs[job := row.jobs[job].(completed := true)]))
    else db
  }

  // ------------------------------------------------------------------
  // Authentication
  // ------------------------------------------------------------------

  predicate BearerMatches(row: Installation, k: BearerKey, token: string, now: Instant) {
    k in row.bearers && row.bearers[k].tokenHash == Sha256(token) && !row.bearers[k].revoked
      && row.bearers[k].expiresAt > now
  }

  /** `g` is a generation that the query for a scoped bearer may return. */
  predicate Authenticates(db: Db, id: Uuid, scope: Scope, token: string, now: Instant, g: nat) {
    && !scope.SurfaceAdmin? && 43 <= |token| <= 128
    && id in db.installations
    && db.installations[id].state.DnsReady?
    && BearerMatches(db.installations[id], BearerKey(scope, g), token, now)
  }

  // ------------------------------------------------------------------
  // One step of the store
  // ------------------------------------------------------------------

  datatype Action =
    | DoAllocate(op: Uuid, adminKey: string, placement: string, id: Uuid, drawn: Label, now: Instant)
    | DoIssue(w: Windows, id: Uuid, op: Uuid, scope: Scope, tokenHash: Digest, validity: int, now: Instant)
    | DoRenew(w: Windows, id: Uuid, op: Uuid, scope: Scope, from: nat, token: string, newHash: Digest, now: Instant)
    | DoRegister(environment: AcmeEnvironment, id: Uuid, account: string)
    | DoMarkReady(id: Uuid)
    | DoClaim(id: Uuid, gateway: string, ttl: int, now: Instant)
    | DoRenewTunnel(id: Uuid, gateway: string, generation: nat, now: Instant)
    | DoEnsure(id: Uuid, generation: nat, value: string, now: Instant)
    | DoMarkReconciled(id: Uuid, revision: nat)
    | DoSweepValues(id: Uuid, now: Instant)
    | DoSweepPending(id: Uuid, now: Instant)
    | DoRetire(id: Uuid, op: Uuid, now: Instant)
    | DoRelocate(id: Uuid, op: Uuid, placement: string, now: Instant)
    | DoComplete(id: Uuid, job: nat)

  function Step(db: Db, a: Action): Db {
    match a
    case DoAllocate(op, key, placement, id, drawn, now) => Allocate(db, op, key, placement, id, drawn, now).db
    case DoIssue(w, id, op, scope, hash, validity, now) => IssueBearer(db, w, id, op, scope, hash, validity, now).db
    case DoRenew(w, id, op, scope, from, token, hash, now) =>
      RenewBearer(db, w, id, op, scope, from, token, hash, now).db
    case DoRegister(environment, id, account) => RegisterAcmeAccount(db, environment, id, account).db
    case DoMarkReady(id) => MarkDnsReady(db, id)
    case DoClaim(id, gateway, ttl, now) => ClaimTunnel(db, id, gateway, ttl, now).db
    case DoRenewTunnel(id, gateway, g, now) => RenewTunnel(db, id, gateway, g, now).0
    case DoEnsure(id, g, v, now) => EnsureChallengeValue(db, id, g, v, now).db
    case DoMarkReconciled(id, revision) => MarkChallengeReconciled(db, id, revision).0
    case DoSweepValues(id, now) => ExpireChallengeValues(db, id, now).0
    case DoSweepPending(id, now) => ExpirePendingAllocation(db, id, now).0
    case DoRetire(id, op, now) => Retire(db, id, op, now).db
    case DoRelocate(id, op, placement, now) => Relocate(db, id, op, placement, now).db
    case DoComplete(id, job) => CompleteJob(db, id, job)
  }
}
