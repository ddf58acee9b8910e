/** What a successful store operation gives its caller. */
module Effects {
  import opened Schema
  import opened Transactions
  import Fencing

  /** The bearer a fresh receipt names: stored unrevoked with the given digest, newest of its
      scope, and recorded as the operation's answer. */
  ghost predicate Granted(db': Db, id: Uuid, op: Uuid, scope: Scope, hash: Digest, receipt: Receipt) {
    && receipt.Receipt? && id in db'.installations
    && var row, k := db'.installations[id], BearerKey(scope, receipt.generation);
    && row.generation == receipt.generation
    && k in row.bearers && row.bearers[k] == Bearer(hash, receipt.expiresAt, false) && Newest(row, k)
    && op in db'.operations && db'.operations[op].receipt == receipt && db'.operations[op].installation == id
  }

  lemma BearersAt(db: Db, id: Uuid)
    requires Fencing.Inv(db) && id in db.installations
    ensures Fencing.BearersInv(db.installations[id])
  {
    hide Fencing.BearersInv;
    Fencing.RowAt(db, id);
  }

  /** A first issue stores what its receipt says, for no longer than asked and configured,
      and drops a tunnel lease. */
  lemma IssueGrants(db: Db, w: Windows, id: Uuid, op: Uuid, scope: Scope, hash: Digest, validity: int, now: Instant)
    requires Fencing.Inv(db) && op !in db.operations
    ensures var out := IssueBearer(db, w, id, op, scope, hash, validity, now);
      out.reply.Ok? ==>
        && Granted(out.db, id, op, scope, hash, out.reply.value)
        && out.reply.value.expiresAt <= now + 1000 * validity && out.reply.value.expiresAt <= now + 1000 * w.validity
        && (scope.Tunnel? ==> out.db.installations[id].lease.None?)
  {
    hide Fencing.Inv, Newest, Fencing.BearersInv, Revoke;
    var out := IssueBearer(db, w, id, op, scope, hash, validity, now);
    if out.reply.Ok? {
      BearersAt(db, id);
      Fencing.IssueRotates(db.installations[id], scope, hash, out.reply.value.expiresAt);
    }
  }

  /** A first renewal needs the newest unrevoked bearer of a ready installation, presented
      with its token no later than the grace after its expiry; it grants a successor. */
  lemma RenewGrants(db: Db, w: Windows, id: Uuid, op: Uuid, scope: Scope, from: nat, token: string, hash: Digest,
      now: Instant)
    requires Fencing.Inv(db) && op !in db.operations
    ensures var out := RenewBearer(db, w, id, op, scope, from, token, hash, now);
      out.reply.Ok? ==>
        && id in db.installations && db.installations[id].state.DnsReady?
        && var k := BearerKey(scope, from);
        && k in db.installations[id].bearers && Newest(db.installations[id], k)
        && db.installations[id].bearers[k].tokenHash == Sha256(token) && !db.installations[id].bearers[k].revoked
        && now < db.installations[id].bearers[k].expiresAt + 1000 * w.grace
        && Granted(out.db, id, op, scope, hash, out.reply.value)
        && out.reply.value.expiresAt == now + 1000 * w.validity
        && Fencing.Replaced(out.db, id, k)
        && (scope.Tunnel? ==> out.db.installations[id].lease.None?)
  {
    hide Fencing.Inv, Newest, Fencing.BearersInv;
    var out := RenewBearer(db, w, id, op, scope, from, token, hash, now);
    if out.reply.Ok? {
      BearersAt(db, id);
      Fencing.RenewRotates(db.installations[id], w, scope, from, hash, out.reply.value.expiresAt, now);
    }
  }

  /** A granted bearer authenticates its holder, and nobody else, until it expires or is
      replaced. */
  lemma GrantAuthenticates(db: Db, id: Uuid, op: Uuid, scope: Scope, token: string, receipt: Receipt, now: Instant)
    requires Fencing.Inv(db) && Granted(db, id, op, scope, Sha256(token), receipt) && !scope.SurfaceAdmin?
    requires 43 <= |token| <= 128
    requires db.installations[id].state.DnsReady?
    ensures Authenticates(db, id, scope, token, now, receipt.generation) <==> now < receipt.expiresAt
    ensures forall token', g, now' ::
      Authenticates(db, id, scope, token', now', g) ==> token' == token && g == receipt.generation
  {
    Fencing.RowAt(db, id);
    var row, k := db.installations[id], BearerKey(scope, receipt.generation);
    forall token', g, now' | Authenticates(db, id, scope, token', now', g)
      ensures token' == token && g == receipt.generation
    {
      assert Newest(row, BearerKey(scope, g));
      assert BearerKey(scope, g).scope == k.scope;
    }
  }

  /** A claimed generation is current at its gateway until the lease runs out, and no other
      generation is current anywhere. */
  lemma ClaimIsCurrent(db: Db, id: Uuid, gateway: string, ttl: int, now: Instant)
    ensures var out := ClaimTunnel(db, id, gateway, ttl, now);
      out.reply.Ok? ==>
        && (forall now' :: TunnelIsCurrent(out.db, id, gateway, out.reply.value, now') <==> now' < now + 1000 * ttl)
        && (forall gateway', g, now' ::
              TunnelIsCurrent(out.db, id, gateway', g, now') ==> gateway' == gateway && g == out.reply.value)
  {
  }

  /** An ensured value is stored for its full lifetime, is not ready before its revision is
      marked, unless it was ready already, and is ready once it is. */
  lemma EnsuredThenReady(db: Db, id: Uuid, generation: nat, v: string, now: Instant, later: Instant)
    requires Fencing.Inv(db)
    ensures var out := EnsureChallengeValue(db, id, generation, v, now);
      out.reply.Ok? ==>
        && id in out.db.installations && v in out.db.installations[id].values
        && out.db.installations[id].values[v] == out.reply.value.expiresAt == now + CHALLENGE_VALUE_LIFETIME_MS
        && (ChallengeValueReady(out.db, id, v, out.reply.value.revision, later) ==>
              v in db.installations[id].values && db.installations[id].values[v] > now
                && db.installations[id].challenge.Some?)
        && var marked := MarkChallengeReconciled(out.db, id, out.reply.value.revision);
        && marked.1
        && (ChallengeValueReady(marked.0, id, v, out.reply.value.revision, later) <==>
              later < out.reply.value.expiresAt)
  {
    hide Fencing.Inv, Fencing.IdentityInv, Fencing.BearersInv, Fencing.LeaseInv, Fencing.JobsInv, ValidChallengeValue,
      Live;
    var out := EnsureChallengeValue(db, id, generation, v, now);
    if out.reply.Ok? {
      Fencing.RowAt(db, id);
    }
  }

  // ------------------------------------------------------------------
  // Exactly when an operation succeeds, and exactly what it then changes
  // ------------------------------------------------------------------

  /** Only installation `id` changes, an audited transition advances the fence by one, and the
      jobs queued are the given ones, pending under new ids. */
  ghost predicate Commits(db: Db, db': Db, id: Uuid, audited: bool, kinds: seq<JobKind>)
    requires id in db.installations
  {
    && db'.installations.Keys == db.installations.Keys
    && (forall i | i in db.installations && i != id :: db'.installations[i] == db.installations[i])
    && db'.fence == db.fence + (if audited then 1 else 0)
    && db'.nextJob == db.nextJob + |kinds|
    && var jobs, jobs' := db.installations[id].jobs, db'.installations[id].jobs;
    && (forall j :: j in jobs' <==> j in jobs || db.nextJob <= j < db'.nextJob)
    && (forall j | j in jobs :: jobs'[j] == jobs[j])
    && (forall i | 0 <= i < |kinds| :: jobs'[db.nextJob + i] == Job(kinds[i], false))
  }

  lemma CommitsRow(db: Db, db': Db, id: Uuid, audited: bool, kinds: seq<JobKind>)
    requires id in db.installations && id in db'.installations
    requires db'.installations == db.installations[id := db'.installations[id]]
    requires db'.fence == db.fence + (if audited then 1 else 0) && db'.nextJob == db.nextJob + |kinds|
    requires forall j | j in db.installations[id].jobs :: j < db.nextJob
    requires var n, jobs, jobs' := db.nextJob, db.installations[id].jobs, db'.installations[id].jobs;
      || (kinds == [] && jobs' == jobs)
      || (|kinds| == 1 && jobs' == jobs[n := Job(kinds[0], false)])
      || (|kinds| == 2 && jobs' == jobs[n := Job(kinds[0], false)][n + 1 := Job(kinds[1], false)])
    ensures Commits(db, db', id, audited, kinds)
  {
  }

  ghost predicate Records(db: Db, db': Db, op: Uuid, o: Operation) {
    && op in db'.operations && db'.operations[op] == o
    && db'.operations.Keys == db.operations.Keys + {op}
    && forall p | p in db.operations && p != op :: db'.operations[p] == db.operations[p]
  }

  /** A first allocation: a pending installation that has nothing but a hostname, a placement
      and a publication to do. */
  ghost predicate Allocated(db: Db, op: Uuid, key: string, placement: string, id: Uuid, drawn: Label, now: Instant,
      db': Db, r: Result<Uuid>)
  {
    && (r == Err(InvalidRequest) <==> !ValidPlacement(placement))
    && (r.Ok? <==>
          && ValidPlacement(placement) && id !in db.installations
          && forall i | i in db.installations :: db.installations[i].hostname != HostnameOf(drawn))
    && (r.Err? ==> db' == db && r.error in {InvalidRequest, Unavailable})
    && (r.Ok? ==>
          && r.value == id && db'.installations.Keys == db.installations.Keys + {id}
          && (forall i | i in db.installations :: db'.installations[i] == db.installations[i])
          && var row := db'.installations[id];
          && row.hostname == HostnameOf(drawn) && row.adminKey == key && row.placement == placement
          && row.generation == 1 && row.state.PendingDns? && row.account.None? && row.createdAt == now
          && row.bearers == map[] && row.lease.None? && row.challenge.None? && row.values == map[]
          && row.jobs.Keys == {db.nextJob} && row.jobs[db.nextJob] == Job(PublishName, false)
          && db'.nextJob == db.nextJob + 1 && db'.fence == db.fence + 1
          && Records(db, db', op, Operation(id, AllocateRequest, NoReceipt, now)))
  }

  lemma AllocateExact(db: Db, op: Uuid, key: string, placement: string, id: Uuid, drawn: Label, now: Instant)
    requires op !in db.operations
    ensures var out := Allocate(db, op, key, placement, id, drawn, now);
      Allocated(db, op, key, placement, id, drawn, now, out.db, out.reply)
  {
    hide ValidPlacement;
  }

  /** A first issue: for a live installation, the smaller of the lifetimes, every other bearer
      of the scope revoked and otherwise as it was. */
  ghost predicate Issued(db: Db, w: Windows, id: Uuid, op: Uuid, scope: Scope, hash: Digest, validity: int,
      now: Instant, db': Db, r: Result<Receipt>)
  {
    && (r == Err(InvalidRequest) <==> scope.SurfaceAdmin? || validity < 60 || validity > 86400)
    && (r.Ok? <==>
          && !scope.SurfaceAdmin? && 60 <= validity <= 86400
          && id in db.installations && !db.installations[id].state.Retired?)
    && (r.Err? ==> db' == db && r.error in {InvalidRequest, Conflict})
    && (r.Ok? ==>
          && Commits(db, db', id, true, [])
          && Records(db, db', op, Operation(id, IssueRequest(scope, validity, hash), r.value, now))
          && var row, row' := db.installations[id], db'.installations[id];
          && row' == row.(generation := row'.generation, bearers := row'.bearers, lease := row'.lease)
          && row'.lease == (if scope.Tunnel? then None else row.lease)
          && r.value.Receipt? && r.value.generation == row'.generation == row.generation + 1
          && (r.value.expiresAt == now + 1000 * validity || r.value.expiresAt == now + 1000 * w.validity)
          && r.value.expiresAt <= now + 1000 * validity && r.value.expiresAt <= now + 1000 * w.validity
          && var added := BearerKey(scope, row'.generation);
          && row'.bearers.Keys == row.bearers.Keys + {added}
          && row'.bearers[added] == Bearer(hash, r.value.expiresAt, false)
          && forall k | k in row.bearers && k != added ::
               row'.bearers[k] == row.bearers[k].(revoked := row.bearers[k].revoked || k.scope == scope))
  }

  lemma IssueExact(db: Db, w: Windows, id: Uuid, op: Uuid, scope: Scope, hash: Digest, validity: int, now: Instant)
    requires Fencing.Inv(db) && op !in db.operations
    ensures var out := IssueBearer(db, w, id, op, scope, hash, validity, now);
      Issued(db, w, id, op, scope, hash, validity, now, out.db, out.reply)
  {
    hide Commits, Fencing.Inv;
    JobsBelow(db, id);
    var out := IssueBearer(db, w, id, op, scope, hash, validity, now);
    if out.reply.Ok? {
      CommitsRow(db, out.db, id, true, []);
    }
  }

  /** A first renewal: by the holder of the newest unrevoked bearer, no later than the grace
      after its expiry; that bearer is revoked and the others stay. */
  ghost predicate Renewed(db: Db, w: Windows, id: Uuid, op: Uuid, scope: Scope, from: nat, token: string, hash: Digest,
      now: Instant, db': Db, r: Result<Receipt>)
  {
    var k := BearerKey(scope, from);
    && (r == Err(InvalidRequest) <==> scope.SurfaceAdmin? || |token| < 43 || |token| > 128)
    && (r.Ok? <==>
          && !scope.SurfaceAdmin? && 43 <= |token| <= 128
          && id in db.installations && db.installations[id].state.DnsReady?
          && k in db.installations[id].bearers
          && (forall n | n in db.installations[id].bearers && n.scope == scope :: n.generation <= from)
          && var b := db.installations[id].bearers[k];
          b.tokenHash == Sha256(token) && !b.revoked && now - 1000 * w.grace < b.expiresAt)
    && (r.Err? ==> db' == db && r.error in {InvalidRequest, Unauthorized})
    && (r.Ok? ==>
          && Commits(db, db', id, true, [])
          && Records(db, db', op, Operation(id, RenewRequest(scope, from, Sha256(token), hash), r.value, now))
          && var row, row' := db.installations[id], db'.installations[id];
          && row' == row.(generation := row'.generation, bearers := row'.bearers, lease := row'.lease)
          && row'.lease == (if scope.Tunnel? then None else row.lease)
          && r.value == Receipt(row.generation + 1, now + 1000 * w.validity)
          && row'.generation == row.generation + 1
          && var added := BearerKey(scope, row'.generation);
          && row'.bearers.Keys == row.bearers.Keys + {added}
          && row'.bearers[added] == Bearer(hash, r.value.expiresAt, false)
          && forall n | n in row.bearers && n != added ::
               row'.bearers[n] == row.bearers[n].(revoked := row.bearers[n].revoked || n == k))
  }

  lemma RenewExact(db: Db, w: Windows, id: Uuid, op: Uuid, scope: Scope, from: nat, token: string, hash: Digest,
      now: Instant)
    requires Fencing.Inv(db) && op !in db.operations
    ensures var out := RenewBearer(db, w, id, op, scope, from, token, hash, now);
      Renewed(db, w, id, op, scope, from, token, hash, now, out.db, out.reply)
  {
    hide Commits, Fencing.Inv;
    JobsBelow(db, id);
    var out := RenewBearer(db, w, id, op, scope, from, token, hash, now);
    if out.reply.Ok? {
      CommitsRow(db, out.db, id, true, []);
    }
  }

  /** A registration binds exactly the given account, in every live state, and queues its
      publication. */
  ghost predicate Registered(db: Db, environment: AcmeEnvironment, id: Uuid, account: string, db': Db, r: Result<()>) {
    && (r == Err(InvalidRequest) <==> !ValidAccountUri(environment, account))
    && (r.Ok? <==>
          ValidAccountUri(environment, account) && id in db.installations && !db.installations[id].state.Retired?)
    && (r.Err? ==> db' == db && r.error in {InvalidRequest, Conflict})
    && (r.Ok? ==>
          && Commits(db, db', id, true, [PublishName]) && db'.operations == db.operations
          && var row, row' := db.installations[id], db'.installations[id];
          row'.account == Some(account) && row' == row.(account := row'.account, jobs := row'.jobs))
  }

  lemma RegisterExact(db: Db, environment: AcmeEnvironment, id: Uuid, account: string)
    requires Fencing.Inv(db)
    ensures var out := RegisterAcmeAccount(db, environment, id, account);
      Registered(db, environment, id, account, out.db, out.reply)
  {
    hide ValidAccountUri, Fencing.Inv, Fencing.RowInv;
    JobsBelow(db, id);
  }

  lemma JobsBelow(db: Db, id: Uuid)
    requires Fencing.Inv(db)
    ensures id in db.installations ==> forall j | j in db.installations[id].jobs :: j < db.nextJob
  {
    hide Fencing.Inv;
    if id in db.installations {
      Fencing.RowAt(db, id);
    }
  }

  /** The ready mark: a pending installation with an account becomes ready, and no other. */
  ghost predicate MarkedReady(db: Db, id: Uuid, db': Db) {
    if id in db.installations && db.installations[id].state.PendingDns? && db.installations[id].account.Some? then
      && Commits(db, db', id, true, []) && db'.operations == db.operations
      && db'.installations[id].state.DnsReady?
      && db'.installations[id] == db.installations[id].(state := db'.installations[id].state)
    else db' == db
  }

  lemma MarkReadyExact(db: Db, id: Uuid)
    ensures MarkedReady(db, id, MarkDnsReady(db, id))
  {
  }

  /** A claim: for a ready installation at this gateway, the next generation is leased to it. */
  ghost predicate Claimed(db: Db, id: Uuid, gateway: string, ttl: int, now: Instant, db': Db, r: Result<nat>) {
    && (r == Err(InvalidRequest) <==> gateway == "" || ttl < 5 || ttl > 60)
    && (r.Ok? <==>
          && gateway != "" && 5 <= ttl <= 60 && id in db.installations
          && db.installations[id].state.DnsReady? && db.installations[id].placement == gateway)
    && (r.Err? ==> db' == db && r.error in {InvalidRequest, Conflict})
    && (r.Ok? ==>
          && Commits(db, db', id, true, []) && db'.operations == db.operations
          && var row, row' := db.installations[id], db'.installations[id];
          && row'.generation == row.generation + 1 == r.value
          && row' == row.(generation := row'.generation, lease := row'.lease)
          && forall gateway', g, now' ::
               TunnelIsCurrent(db', id, gateway', g, now') <==>
                 gateway' == gateway && g == r.value && now' < now + 1000 * ttl)
  }

  lemma ClaimExact(db: Db, id: Uuid, gateway: string, ttl: int, now: Instant)
    ensures var out := ClaimTunnel(db, id, gateway, ttl, now);
      Claimed(db, id, gateway, ttl, now, out.db, out.reply)
  {
  }

  /** A heartbeat: exactly a current lease is extended, to 45 seconds from now. */
  ghost predicate Extended(db: Db, id: Uuid, gateway: string, generation: nat, now: Instant, db': Db, renewed: bool) {
    && renewed == TunnelIsCurrent(db, id, gateway, generation, now)
    && (!renewed ==> db' == db)
    && (renewed ==>
          && Commits(db, db', id, false, []) && db'.operations == db.operations
          && db'.installations[id] == db.installations[id].(lease := db'.installations[id].lease)
          && forall gateway', g, now' ::
               TunnelIsCurrent(db', id, gateway', g, now') <==>
                 gateway' == gateway && g == generation && now' < now + 45000)
  }

  lemma RenewTunnelExact(db: Db, id: Uuid, gateway: string, generation: nat, now: Instant)
    ensures var out := RenewTunnel(db, id, gateway, generation, now);
      Extended(db, id, gateway, generation, now, out.0, out.1)
  {
  }

  ghost function LiveValues(row: Installation, now: Instant): set<string> {
    set u | u in row.values && row.values[u] > now
  }

  /** Who may ensure a value, and whether there is room for it. */
  ghost predicate MayEnsure(db: Db, id: Uuid, generation: nat, now: Instant) {
    && id in db.installations
    && var row, k := db.installations[id], BearerKey(DnsChallenge, generation);
    k in row.bearers && !row.bearers[k].revoked && now < row.bearers[k].expiresAt
  }

  ghost predicate Room(row: Installation, v: string, now: Instant) {
    v in LiveValues(row, now) || |LiveValues(row, now)| < 2
  }

  /** An ensured value: a live one is refreshed and the set stays as it is; otherwise it joins
      the other live values, lapsed ones go, and the new set gets the next revision. */
  ghost predicate Ensured(db: Db, id: Uuid, generation: nat, v: string, now: Instant, db': Db,
      r: Result<ChallengeValueState>)
  {
    && var ready := id in db.installations && db.installations[id].state.DnsReady?;
    && (r == Err(InvalidRequest) <==> !ValidChallengeValue(v))
    && (r == Err(Unauthorized) <==> ValidChallengeValue(v) && ready && !MayEnsure(db, id, generation, now))
    && (r.Ok? <==>
          ValidChallengeValue(v) && ready && MayEnsure(db, id, generation, now) && Room(db.installations[id], v, now))
    && (r.Err? ==> db' == db && r.error in {InvalidRequest, Unauthorized, Conflict})
    && (r.Ok? ==> EnsuredRow(db, id, v, now, db', r.value))
  }

  ghost predicate EnsuredRow(db: Db, id: Uuid, v: string, now: Instant, db': Db, state: ChallengeValueState)
    requires id in db.installations
  {
    var row, live := db.installations[id], LiveValues(db.installations[id], now);
    && Commits(db, db', id, v !in live, if v in live then [] else [ReconcileTxt]) && db'.operations == db.operations
    && var row' := db'.installations[id];
    && row' == row.(values := row'.values, challenge := row'.challenge, jobs := row'.jobs)
    && row'.values.Keys == (if v in live then row.values.Keys else live + {v})
    && row'.values[v] == now + CHALLENGE_VALUE_LIFETIME_MS
    && (forall u | u in row'.values && u != v :: row'.values[u] == row.values[u])
    && row'.challenge.Some?
    && row'.challenge.value.ready == (if row.challenge.Some? then row.challenge.value.ready else None)
    && row'.challenge.value.revision == ChallengeTarget(row).0 + (if v in live then 0 else 1)
    && state == ChallengeValueState(row'.challenge.value.revision, row'.values[v])
  }

  lemma EnsureExact(db: Db, id: Uuid, generation: nat, v: string, now: Instant)
    requires Fencing.Inv(db)
    ensures var out := EnsureChallengeValue(db, id, generation, v, now);
      Ensured(db, id, generation, v, now, out.db, out.reply)
  {
    hide ValidChallengeValue, Fencing.Inv, EnsuredRow, RefreshRow, AddValueRow, WithChallengeState;
    JobsBelow(db, id);
    if id in db.installations {
      var row := db.installations[id];
      LiveIsLive(row, now);
      if v in LiveValues(row, now) {
        RefreshedRow(db, id, v, now);
      } else {
        AddedRow(db, id, v, now);
      }
    }
  }

  lemma LiveIsLive(row: Installation, now: Instant)
    ensures Live(row.values, now).Keys == LiveValues(row, now) && |Live(row.values, now)| == |LiveValues(row, now)|
    ensures forall v | v in LiveValues(row, now) :: Live(row.values, now)[v] == row.values[v]
  {
    var live := Live(row.values, now);
    assert live.Keys == LiveValues(row, now);
    assert |live.Keys| == |live|;
  }

  lemma RefreshedRow(db: Db, id: Uuid, v: string, now: Instant)
    requires id in db.installations && v in LiveValues(db.installations[id], now)
    requires forall j | j in db.installations[id].jobs :: j < db.nextJob
    ensures var row' := RefreshRow(WithChallengeState(db.installations[id]), v, now);
      && row'.challenge.Some? && v in row'.values
      && EnsuredRow(db, id, v, now, Put(db, id, row'),
           ChallengeValueState(row'.challenge.value.revision, row'.values[v]))
  {
  }

  lemma AddedRow(db: Db, id: Uuid, v: string, now: Instant)
    requires id in db.installations && v !in LiveValues(db.installations[id], now)
    requires forall j | j in db.installations[id].jobs :: j < db.nextJob
    ensures var row' := AddValueRow(db.installations[id], v, now, db.nextJob);
      && row'.challenge.Some? && v in row'.values
      && EnsuredRow(db, id, v, now, Audited(db, id, row', 1),
           ChallengeValueState(row'.challenge.value.revision, row'.values[v]))
  {
    hide Commits, Live, LiveValues;
    LiveIsLive(db.installations[id], now);
    CommitsRow(db, Audited(db, id, AddValueRow(db.installations[id], v, now, db.nextJob), 1), id, true, [ReconcileTxt]);
  }

  /** The readiness mark: exactly the stored revision is marked. */
  ghost predicate MarkedReconciled(db: Db, id: Uuid, revision: nat, db': Db, marked: bool) {
    && (marked <==>
          && id in db.installations && db.installations[id].challenge.Some?
          && db.installations[id].challenge.value.revision == revision)
    && (!marked ==> db' == db)
    && (marked ==>
          && Commits(db, db', id, false, []) && db'.operations == db.operations
          && db'.installations[id].challenge == Some(ChallengeState(revision, Some(revision)))
          && db'.installations[id] == db.installations[id].(challenge := db'.installations[id].challenge))
  }

  lemma MarkReconciledExact(db: Db, id: Uuid, revision: nat)
    ensures var out := MarkChallengeReconciled(db, id, revision);
      MarkedReconciled(db, id, revision, out.0, out.1)
  {
  }

  /** A value sweep's turn: exactly the lapsed values go, the rest stay, and the new set gets the
      next revision. */
  ghost predicate ValuesSwept(db: Db, id: Uuid, now: Instant, db': Db, changed: bool) {
    && (changed <==>
          && id in db.installations
          && exists v :: v in db.installations[id].values && db.installations[id].values[v] <= now)
    && (!changed ==> db' == db)
    && (changed ==>
          && Commits(db, db', id, true, [ReconcileTxt]) && db'.operations == db.operations
          && var row, row' := db.installations[id], db'.installations[id];
          && row' == row.(values := row'.values, challenge := row'.challenge, jobs := row'.jobs)
          && row'.values.Keys == LiveValues(row, now)
          && (forall v | v in row'.values :: row'.values[v] == row.values[v])
          && row'.challenge.Some? && row.challenge.Some?
          && row'.challenge.value == row.challenge.value.(revision := row.challenge.value.revision + 1))
  }

  lemma ValueSweepExact(db: Db, id: Uuid, now: Instant)
    requires Fencing.Inv(db)
    ensures var out := ExpireChallengeValues(db, id, now);
      ValuesSwept(db, id, now, out.0, out.1)
  {
    hide Fencing.Inv, ValidChallengeValue, Live, LiveValues, Fencing.BearersInv, Fencing.IdentityInv, Commits;
    JobsBelow(db, id);
    var out := ExpireChallengeValues(db, id, now);
    if out.1 {
      Fencing.RowAt(db, id);
      LiveIsLive(db.installations[id], now);
      CommitsRow(db, out.0, id, true, [ReconcileTxt]);
    }
  }

  /** A pending sweep's turn: an allocation pending for more than a day is retired. */
  ghost predicate PendingSwept(db: Db, id: Uuid, now: Instant, db': Db, changed: bool) {
    && (changed <==>
          && id in db.installations && db.installations[id].state.PendingDns?
          && db.installations[id].createdAt + DAY_MS < now)
    && (!changed ==> db' == db)
    && (changed ==>
          && Commits(db, db', id, true, [RemoveRecords, RemoveTxtAll]) && db'.operations == db.operations
          && var row, row' := db.installations[id], db'.installations[id];
          && row'.state.Retired? && row'.generation == row.generation + 1
          && row' == row.(state := row'.state, generation := row'.generation, jobs := row'.jobs))
  }

  lemma PendingSweepExact(db: Db, id: Uuid, now: Instant)
    requires Fencing.Inv(db)
    ensures var out := ExpirePendingAllocation(db, id, now);
      PendingSwept(db, id, now, out.0, out.1)
  {
    hide Fencing.Inv;
    JobsBelow(db, id);
  }

  /** A first retirement: of any known installation; one that was live loses its lease and its
      challenge values and gets both removals. */
  ghost predicate RetiredBy(db: Db, id: Uuid, op: Uuid, now: Instant, db': Db, r: Result<()>) {
    && (r.Ok? <==> id in db.installations)
    && (r.Err? ==> db' == db && r.error == Conflict)
    && (r.Ok? ==>
          && Records(db, db', op, Operation(id, RetireRequest(id), NoReceipt, now))
          && var row := db.installations[id];
          && var live := !row.state.Retired?;
          && Commits(db, db', id, live, if live then [RemoveRecords, RemoveTxtAll] else [])
          && var row' := db'.installations[id];
          && row'.state.Retired? && row'.generation == row.generation + (if live then 1 else 0)
          && row'.lease.None? && row'.values == map[]
          && row' == row.(state := row'.state, generation := row'.generation, lease := row'.lease,
                          values := row'.values, jobs := row'.jobs))
  }

  lemma RetireExact(db: Db, id: Uuid, op: Uuid, now: Instant)
    requires Fencing.Inv(db) && op !in db.operations
    ensures var out := Retire(db, id, op, now);
      RetiredBy(db, id, op, now, out.db, out.reply)
  {
    hide Fencing.Inv, Commits;
    JobsBelow(db, id);
    var out := Retire(db, id, op, now);
    if id in db.installations && db.installations[id].state.Retired? {
      Fencing.RetiredInert(db, id);
      CommitsRow(db, out.db, id, false, []);
    } else if id in db.installations {
      CommitsRow(db, out.db, id, true, [RemoveRecords, RemoveTxtAll]);
    }
  }

  /** A first move: of a ready installation to another placement; it has no lease there yet, and
      its records are to be published again. */
  ghost predicate Relocated(db: Db, id: Uuid, op: Uuid, placement: string, now: Instant, db': Db, r: Result<()>) {
    && (r == Err(InvalidRequest) <==> !ValidPlacement(placement))
    && (r.Ok? <==>
          && ValidPlacement(placement) && id in db.installations && db.installations[id].state.DnsReady?
          && db.installations[id].placement != placement)
    && (r.Err? ==> db' == db && r.error in {InvalidRequest, Conflict})
    && (r.Ok? ==>
          && Commits(db, db', id, true, [PublishName])
          && Records(db, db', op, Operation(id, RelocateRequest(id, placement), NoReceipt, now))
          && var row, row' := db.installations[id], db'.installations[id];
          && row'.placement == placement && row'.lease.None? && row'.generation == row.generation + 1
          && row' == row.(placement := row'.placement, lease := row'.lease, generation := row'.generation,
                          jobs := row'.jobs))
  }

  lemma RelocateExact(db: Db, id: Uuid, op: Uuid, placement: string, now: Instant)
    requires Fencing.Inv(db) && op !in db.operations
    ensures var out := Relocate(db, id, op, placement, now);
      Relocated(db, id, op, placement, now, out.db, out.reply)
  {
    hide Fencing.Inv, ValidPlacement;
    JobsBelow(db, id);
  }

  /** A recorded outcome: exactly the given job is complete. */
  ghost predicate Completed(db: Db, id: Uuid, job: nat, db': Db) {
    if id in db.installations && job in db.installations[id].jobs then
      && db' == db.(installations := db'.installations) && db'.installations.Keys == db.installations.Keys
      && (forall i | i in db.installations && i != id :: db'.installations[i] == db.installations[i])
      && var row, row' := db.installations[id], db'.installations[id];
      && row' == row.(jobs := row'.jobs) && row'.jobs.Keys == row.jobs.Keys
      && (forall j | j in row.jobs && j != job :: row'.jobs[j] == row.jobs[j])
      && row'.jobs[job] == Job(row.jobs[job].kind, true)
    else db' == db
  }

  lemma CompleteExact(db: Db, id: Uuid, job: nat)
    ensures Completed(db, id, job, CompleteJob(db, id, job))
  {
  }
}
