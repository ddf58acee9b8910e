/** What every run of the store keeps: one counter per installation orders its
    bearers, leases, moves and retirement, so a superseded grant never returns.
  */
module Fencing {
  import opened Schema
  import opened Transactions
  import opened Finite

  // ------------------------------------------------------------------
  // The invariant
  // ------------------------------------------------------------------

  /** Per scope the one unrevoked bearer is the newest. */
  ghost predicate BearersInv(row: Installation) {
    && (forall k | k in row.bearers :: 0 < k.generation <= row.generation)
    && (forall k {:trigger Newest(row, k)} | k in row.bearers :: !row.bearers[k].revoked <==> Newest(row, k))
  }

  ghost predicate LeaseInv(row: Installation) {
    row.lease.Some? ==>
      && row.state.DnsReady?
      && row.lease.value.gateway == row.placement
      && 0 < row.lease.value.generation <= row.generation
  }

  ghost predicate ChallengeInv(row: Installation) {
    && |row.values| <= MAX_LIVE_CHALLENGE_VALUES
    && (forall v | v in row.values :: ValidChallengeValue(v))
    && (row.values != map[] ==> row.state.DnsReady? && row.challenge.Some?)
    && (row.challenge.Some? ==> !row.state.PendingDns?)
    && (row.challenge.Some? && row.challenge.value.ready.Some? ==>
          row.challenge.value.ready.value <= row.challenge.value.revision)
    && (row.state.DnsReady? ==> row.account.Some?)
  }

  ghost predicate JobsInv(row: Installation, nextJob: nat) {
    forall j | j in row.jobs :: j < nextJob
  }

  /** What the provider will be asked to publish is something it accepts. */
  ghost predicate IdentityInv(row: Installation) {
    ValidHostname(row.hostname) && (row.account.Some? ==> KnownAccount(row.account.value))
  }

  ghost predicate RowInv(row: Installation, nextJob: nat) {
    IdentityInv(row) && BearersInv(row) && LeaseInv(row) && ChallengeInv(row) && JobsInv(row, nextJob)
  }

  ghost predicate HostnamesUnique(db: Db) {
    forall i, j | i in db.installations && j in db.installations
      && db.installations[i].hostname == db.installations[j].hostname :: i == j
  }

  ghost predicate OperationsInv(db: Db) {
    forall op | op in db.operations ::
      && db.operations[op].installation in db.installations
      && (db.operations[op].request.IssueRequest? || db.operations[op].request.RenewRequest? ==>
            db.operations[op].receipt.Receipt?)
      && (db.operations[op].request.RetireRequest? ==>
            db.operations[op].request == RetireRequest(db.operations[op].installation))
  }

  ghost predicate Inv(db: Db) {
    && (forall id | id in db.installations :: RowInv(db.installations[id], db.nextJob))
    && HostnamesUnique(db)
    && OperationsInv(db)
  }

  // ------------------------------------------------------------------
  // How one transaction may change one installation
  // ------------------------------------------------------------------

  /** What a rolled-back database must not silently lose. Expiry times, readiness and
      job bookkeeping are outside it. */
  datatype Authority = Authority(
    hostname: string, adminKey: string, placement: string, generation: nat, state: Lifecycle, account: Option<string>,
    bearers: map<BearerKey, Bearer>, leaseGeneration: Option<nat>, revision: Option<nat>, values: set<string>)

  function AuthorityOf(row: Installation): Authority {
    Authority(row.hostname, row.adminKey, row.placement, row.generation, row.state, row.account, row.bearers,
              if row.lease.Some? then Some(row.lease.value.generation) else None,
              if row.challenge.Some? then Some(row.challenge.value.revision) else None,
              row.values.Keys)
  }

  /** The counter grows, a new lease takes a generation beyond it, bearers are never
      dropped, and a retired installation keeps its credentials and counter. */
  ghost predicate RowAdvance(row: Installation, row': Installation) {
    && row'.hostname == row.hostname && row'.adminKey == row.adminKey && row'.createdAt == row.createdAt
    && (row'.state.PendingDns? ==> row.state.PendingDns?)
    && row.generation <= row'.generation
    && (row'.lease.Some? ==>
          || (row.lease.Some? && row'.lease.value.generation == row.lease.value.generation)
          || row.generation < row'.lease.value.generation)
    && row.bearers.Keys <= row'.bearers.Keys
    && (row.state.Retired? ==> row'.state.Retired? && row'.bearers == row.bearers && row'.generation == row.generation)
  }

  ghost predicate SameElsewhere(db: Db, db': Db, id: Uuid) {
    && db.installations.Keys <= db'.installations.Keys <= db.installations.Keys + {id}
    && (forall i | i in db.installations && i != id :: db'.installations[i] == db.installations[i])
  }

  /** A lawful transition on installation `id`. */
  ghost predicate Advance(db: Db, db': Db, id: Uuid) {
    && SameElsewhere(db, db', id)
    && db.nextJob <= db'.nextJob && db.fence <= db'.fence
    && (id in db'.installations ==> RowInv(db'.installations[id], db'.nextJob))
    && (id in db.installations ==> RowAdvance(db.installations[id], db'.installations[id]))
    && (id in db'.installations && id !in db.installations ==>
          db.fence < db'.fence && !HostnameTaken(db, db'.installations[id].hostname))
    && (id in db.installations && db.fence == db'.fence ==>
          AuthorityOf(db'.installations[id]) == AuthorityOf(db.installations[id]))
    && OperationsInv(db')
    && (forall op | op in db.operations :: op in db'.operations && db'.operations[op] == db.operations[op])
  }

  lemma Unchanged(db: Db, id: Uuid)
    requires Inv(db)
    ensures Advance(db, db, id)
  {
    if id in db.installations {
      assert RowInv(db.installations[id], db.nextJob);
    }
  }

  lemma Committed(db: Db, db': Db, id: Uuid, row': Installation)
    requires Inv(db) && id in db.installations && db'.installations == db.installations[id := row']
    requires db.nextJob <= db'.nextJob && db.fence <= db'.fence
    requires db'.operations == db.operations
      || exists op: Uuid, o ::
        op !in db.operations && db'.operations == db.operations[op := o] && LawfulOperation(db, o)
    requires RowInv(row', db'.nextJob) && RowAdvance(db.installations[id], row')
    requires db.fence == db'.fence ==> AuthorityOf(row') == AuthorityOf(db.installations[id])
    ensures Advance(db, db', id)
  {
    hide RowInv, RowAdvance, Inv, OperationsInv, LawfulOperation, AuthorityOf;
    OperationsKept(db, db');
  }

  lemma OperationsKept(db: Db, db': Db)
    requires Inv(db) && db.installations.Keys <= db'.installations.Keys
    requires db'.operations == db.operations
      || exists op: Uuid, o ::
        op !in db.operations && db'.operations == db.operations[op := o] && LawfulOperation(db, o)
    ensures OperationsInv(db')
    ensures forall op | op in db.operations :: op in db'.operations && db'.operations[op] == db.operations[op]
  {
    hide RowInv, HostnamesUnique;
  }

  ghost predicate LawfulOperation(db: Db, o: Operation) {
    && o.installation in db.installations
    && (o.request.IssueRequest? || o.request.RenewRequest? ==> o.receipt.Receipt?)
    && (o.request.RetireRequest? ==> o.request == RetireRequest(o.installation))
  }

  // ------------------------------------------------------------------
  // Every transaction is lawful
  // ------------------------------------------------------------------

  /** A bearer added beyond the counter is newest; all others of its scope must be revoked. */
  lemma RotationKeeps(row: Installation, row': Installation, scope: Scope)
    requires BearersInv(row)
    requires var added := BearerKey(scope, row.generation + 1);
      && row'.generation == row.generation + 1
      && row'.bearers.Keys == row.bearers.Keys + {added}
      && !row'.bearers[added].revoked
      && (forall k | k in row.bearers && k.scope == scope :: row'.bearers[k].revoked)
      && (forall k | k in row.bearers && k.scope != scope :: row'.bearers[k] == row.bearers[k])
    ensures BearersInv(row')
  {
    var added := BearerKey(scope, row.generation + 1);
    forall k {:trigger Newest(row', k)} | k in row'.bearers ensures !row'.bearers[k].revoked <==> Newest(row', k) {
      if k == added {
      } else if k.scope == scope {
        assert added in row'.bearers && k.generation < added.generation;
      } else {
        assert Newest(row, k) <==> Newest(row', k) by {
          assert forall n: BearerKey | n.scope == k.scope :: n in row'.bearers <==> n in row.bearers;
        }
      }
    }
  }

  lemma BearersUntouched(row: Installation, row': Installation)
    requires BearersInv(row) && row'.bearers == row.bearers && row.generation <= row'.generation
    ensures BearersInv(row')
  {
    forall k {:trigger Newest(row', k)} | k in row'.bearers ensures !row'.bearers[k].revoked <==> Newest(row', k) {
      assert Newest(row, k) <==> Newest(row', k);
    }
  }

  lemma IssueKeepsBearers(row: Installation, scope: Scope, hash: Digest, expiresAt: Instant)
    requires BearersInv(row)
    ensures BearersInv(IssueRow(row, scope, hash, expiresAt))
    ensures row.bearers.Keys <= IssueRow(row, scope, hash, expiresAt).bearers.Keys
  {
    var row' := IssueRow(row, scope, hash, expiresAt);
    assert BearerKey(scope, row.generation + 1) !in row.bearers;
    assert row'.bearers.Keys == row.bearers.Keys + {BearerKey(scope, row.generation + 1)};
    RotationKeeps(row, row', scope);
  }

  lemma IssueRowLawful(row: Installation, scope: Scope, hash: Digest, expiresAt: Instant, nextJob: nat)
    requires RowInv(row, nextJob) && !row.state.Retired?
    ensures RowInv(IssueRow(row, scope, hash, expiresAt), nextJob)
    ensures RowAdvance(row, IssueRow(row, scope, hash, expiresAt))
  {
    IssueKeepsBearers(row, scope, hash, expiresAt);
    hide BearersInv, Revoke;
  }

  lemma IssueAdvances(db: Db, w: Windows, id: Uuid, op: Uuid, scope: Scope, hash: Digest, validity: int, now: Instant)
    requires Inv(db)
    ensures Advance(db, IssueBearer(db, w, id, op, scope, hash, validity, now).db, id)
  {
    hide RowInv, RowAdvance, IssueRow, AuthorityOf, Replay, Advance;
    var db' := IssueBearer(db, w, id, op, scope, hash, validity, now).db;
    if db' == db {
      Unchanged(db, id);
    } else {
      var expiresAt := now + 1000 * MinOf(validity, w.validity);
      IssueRowLawful(db.installations[id], scope, hash, expiresAt, db.nextJob);
      assert LawfulOperation(db, db'.operations[op]);
      Committed(db, db', id, IssueRow(db.installations[id], scope, hash, expiresAt));
    }
  }

  lemma RenewRowLawful(row: Installation, w: Windows, scope: Scope, from: nat, hash: Digest, expiresAt: Instant,
      now: Instant, nextJob: nat)
    requires RowInv(row, nextJob) && Renewable(row, w, BearerKey(scope, from), now)
    ensures RowInv(RenewRow(row, scope, from, hash, expiresAt), nextJob)
    ensures RowAdvance(row, RenewRow(row, scope, from, hash, expiresAt))
  {
    hide BearersInv;
    RenewKeepsBearers(row, w, scope, from, hash, expiresAt, now);
    hide Renewable, Newest;
  }

  lemma RenewKeepsBearers(row: Installation, w: Windows, scope: Scope, from: nat, hash: Digest, expiresAt: Instant,
      now: Instant)
    requires BearersInv(row) && Renewable(row, w, BearerKey(scope, from), now)
    ensures BearersInv(RenewRow(row, scope, from, hash, expiresAt))
    ensures row.bearers.Keys <= RenewRow(row, scope, from, hash, expiresAt).bearers.Keys
  {
    RenewRevokesTheRest(row, w, scope, from, now);
    assert BearerKey(scope, row.generation + 1) !in row.bearers;
    RotationKeeps(row, RenewRow(row, scope, from, hash, expiresAt), scope);
  }

  lemma RenewAdvances(db: Db, w: Windows, id: Uuid, op: Uuid, scope: Scope, from: nat, token: string, hash: Digest,
      now: Instant)
    requires Inv(db)
    ensures Advance(db, RenewBearer(db, w, id, op, scope, from, token, hash, now).db, id)
  {
    hide RowInv, RowAdvance, RenewRow, AuthorityOf, Replay, Advance;
    var db' := RenewBearer(db, w, id, op, scope, from, token, hash, now).db;
    if db' == db {
      Unchanged(db, id);
    } else {
      RenewRowLawful(db.installations[id], w, scope, from, hash, now + 1000 * w.validity, now, db.nextJob);
      assert LawfulOperation(db, db'.operations[op]);
      Committed(db, db', id, RenewRow(db.installations[id], scope, from, hash, now + 1000 * w.validity));
    }
  }

  /** Revoking the renewed generation alone leaves no unrevoked bearer of its scope. */
  lemma RenewRevokesTheRest(row: Installation, w: Windows, scope: Scope, from: nat, now: Instant)
    requires BearersInv(row) && Renewable(row, w, BearerKey(scope, from), now)
    ensures forall k | k in row.bearers && k.scope == scope && k.generation != from :: row.bearers[k].revoked
  {
    forall k | k in row.bearers && k.scope == scope && k.generation != from ensures row.bearers[k].revoked {
      assert !Newest(row, k);
    }
  }

  lemma NewRowInv(row: Installation, nextJob: nat)
    requires row.bearers == map[] && row.lease.None? && row.challenge.None? && row.values == map[]
      && row.state.PendingDns?
    requires row.account.None? && ValidHostname(row.hostname) && forall j | j in row.jobs :: j < nextJob
    ensures RowInv(row, nextJob)
  {
  }

  lemma Created(db: Db, db': Db, id: Uuid, op: Uuid)
    requires Inv(db) && id !in db.installations && op !in db.operations
    requires id in db'.installations && db'.installations == db.installations[id := db'.installations[id]]
    requires db.nextJob <= db'.nextJob && db.fence < db'.fence
    requires op in db'.operations && db'.operations == db.operations[op := db'.operations[op]]
    requires db'.operations[op].installation == id && db'.operations[op].request.AllocateRequest?
    requires RowInv(db'.installations[id], db'.nextJob) && !HostnameTaken(db, db'.installations[id].hostname)
    ensures Advance(db, db', id)
  {
    hide RowInv, RowAdvance, AuthorityOf;
  }

  lemma AllocateAdvances(db: Db, op: Uuid, key: string, placement: string, id: Uuid, drawn: Label, now: Instant)
    requires Inv(db)
    ensures Advance(db, Allocate(db, op, key, placement, id, drawn, now).db, id)
  {
    hide ValidPlacement, RowInv, AuthorityOf, Advance;
    var db' := Allocate(db, op, key, placement, id, drawn, now).db;
    if db' == db {
      Unchanged(db, id);
    } else {
      NewRowInv(db'.installations[id], db'.nextJob);
      Created(db, db', id, op);
    }
  }

  /** Transactions that change neither bearers nor operations. */
  lemma SimpleAdvance(db: Db, db': Db, id: Uuid, row': Installation)
    requires Inv(db) && id in db.installations && db'.installations == db.installations[id := row']
    requires db.nextJob <= db'.nextJob && db.fence <= db'.fence && db'.operations == db.operations
    requires row'.bearers == db.installations[id].bearers && RowAdvance(db.installations[id], row')
    requires IdentityInv(row') && LeaseInv(row') && ChallengeInv(row') && JobsInv(row', db'.nextJob)
    requires db.fence == db'.fence ==> AuthorityOf(row') == AuthorityOf(db.installations[id])
    ensures Advance(db, db', id)
  {
    hide ValidHostname, KnownAccount;
    assert RowInv(db.installations[id], db.nextJob);
    BearersUntouched(db.installations[id], row');
    Committed(db, db', id, row');
  }

  lemma RegisterAdvances(db: Db, environment: AcmeEnvironment, id: Uuid, account: string)
    requires Inv(db)
    ensures Advance(db, RegisterAcmeAccount(db, environment, id, account).db, id)
  {
    hide ValidAccountUri, ValidHostname;
    var db' := RegisterAcmeAccount(db, environment, id, account).db;
    if db' == db {
      Unchanged(db, id);
    } else {
      assert RowInv(db.installations[id], db.nextJob);
      SimpleAdvance(db, db', id, db'.installations[id]);
    }
  }

  lemma MarkReadyAdvances(db: Db, id: Uuid)
    requires Inv(db)
    ensures Advance(db, MarkDnsReady(db, id), id)
  {
    hide ValidHostname, KnownAccount;
    var db' := MarkDnsReady(db, id);
    if db' == db {
      Unchanged(db, id);
    } else {
      assert RowInv(db.installations[id], db.nextJob);
      SimpleAdvance(db, db', id, db'.installations[id]);
    }
  }

  lemma ClaimAdvances(db: Db, id: Uuid, gateway: string, ttl: int, now: Instant)
    requires Inv(db)
    ensures Advance(db, ClaimTunnel(db, id, gateway, ttl, now).db, id)
  {
    hide ValidHostname, KnownAccount;
    var db' := ClaimTunnel(db, id, gateway, ttl, now).db;
    if db' == db {
      Unchanged(db, id);
    } else {
      assert RowInv(db.installations[id], db.nextJob);
      SimpleAdvance(db, db', id, db'.installations[id]);
    }
  }

  lemma RenewTunnelAdvances(db: Db, id: Uuid, gateway: string, g: nat, now: Instant)
    requires Inv(db)
    ensures Advance(db, RenewTunnel(db, id, gateway, g, now).0, id)
  {
    hide ValidHostname, KnownAccount;
    var db' := RenewTunnel(db, id, gateway, g, now).0;
    if db' == db {
      Unchanged(db, id);
    } else {
      assert RowInv(db.installations[id], db.nextJob);
      SimpleAdvance(db, db', id, db'.installations[id]);
    }
  }

  lemma RowAt(db: Db, id: Uuid)
    requires Inv(db) && id in db.installations
    ensures RowInv(db.installations[id], db.nextJob)
  {
    hide RowInv;
  }

  lemma EnsureAdvances(db: Db, id: Uuid, g: nat, v: string, now: Instant)
    requires Inv(db)
    ensures Advance(db, EnsureChallengeValue(db, id, g, v, now).db, id)
  {
    hide Inv, Advance, RowInv, RowAdvance, LeaseInv, ChallengeInv, JobsInv, ValidChallengeValue, RefreshRow,
      AddValueRow, WithChallengeState, AuthorityOf, Live;
    var db' := EnsureChallengeValue(db, id, g, v, now).db;
    if db' == db {
      Unchanged(db, id);
    } else {
      var row := db.installations[id];
      RowAt(db, id);
      if v in row.values && row.values[v] > now {
        RefreshLawful(row, v, now, db.nextJob);
      } else {
        AddValueLawful(row, v, now, db.nextJob);
      }
      SimpleAdvance(db, db', id, db'.installations[id]);
    }
  }

  lemma RefreshLawful(row: Installation, v: string, now: Instant, nextJob: nat)
    requires RowInv(row, nextJob) && row.state.DnsReady? && v in row.values && ValidChallengeValue(v)
    ensures var row' := RefreshRow(WithChallengeState(row), v, now);
      row'.bearers == row.bearers && RowAdvance(row, row') && IdentityInv(row') && LeaseInv(row') && ChallengeInv(row')
        && JobsInv(row', nextJob) && AuthorityOf(row') == AuthorityOf(row)
  {
    hide BearersInv, ValidChallengeValue, ValidHostname, KnownAccount;
    var row' := RefreshRow(WithChallengeState(row), v, now);
    assert row'.values.Keys == row.values.Keys;
    assert |row'.values.Keys| == |row.values.Keys|;
  }

  lemma AddValueLawful(row: Installation, v: string, now: Instant, nextJob: nat)
    requires RowInv(row, nextJob) && row.state.DnsReady? && |Live(row.values, now)| < MAX_LIVE_CHALLENGE_VALUES
    requires ValidChallengeValue(v)
    ensures var row' := AddValueRow(row, v, now, nextJob);
      row'.bearers == row.bearers && RowAdvance(row, row') && IdentityInv(row') && LeaseInv(row') && ChallengeInv(row')
        && JobsInv(row', nextJob + 1)
  {
    hide BearersInv, ValidChallengeValue, ValidHostname, KnownAccount;
  }

  lemma MarkReconciledAdvances(db: Db, id: Uuid, revision: nat)
    requires Inv(db)
    ensures Advance(db, MarkChallengeReconciled(db, id, revision).0, id)
  {
    hide ValidHostname, KnownAccount;
    var db' := MarkChallengeReconciled(db, id, revision).0;
    if db' == db {
      Unchanged(db, id);
    } else {
      assert RowInv(db.installations[id], db.nextJob);
      SimpleAdvance(db, db', id, db'.installations[id]);
    }
  }

  lemma SweepValuesAdvances(db: Db, id: Uuid, now: Instant)
    requires Inv(db)
    ensures Advance(db, ExpireChallengeValues(db, id, now).0, id)
  {
    hide ValidHostname, KnownAccount;
    var db' := ExpireChallengeValues(db, id, now).0;
    if db' == db {
      Unchanged(db, id);
    } else {
      var row, row' := db.installations[id], db'.installations[id];
      assert RowInv(row, db.nextJob);
      SubsetSize(row'.values.Keys, row.values.Keys);
      SimpleAdvance(db, db', id, row');
    }
  }

  lemma SweepPendingAdvances(db: Db, id: Uuid, now: Instant)
    requires Inv(db)
    ensures Advance(db, ExpirePendingAllocation(db, id, now).0, id)
  {
    hide ValidHostname, KnownAccount;
    var db' := ExpirePendingAllocation(db, id, now).0;
    if db' == db {
      Unchanged(db, id);
    } else {
      assert RowInv(db.installations[id], db.nextJob);
      SimpleAdvance(db, db', id, db'.installations[id]);
    }
  }

  lemma RetireRowLawful(row: Installation, nextJob: nat)
    requires RowInv(row, nextJob) && !row.state.Retired?
    ensures RowInv(RetireRow(row, nextJob), nextJob + 2) && RowAdvance(row, RetireRow(row, nextJob))
  {
    hide ValidHostname, KnownAccount;
    BearersUntouched(row, RetireRow(row, nextJob));
    hide BearersInv;
  }

  lemma SameRowLawful(row: Installation)
    ensures RowAdvance(row, row)
  {
  }

  lemma RetireAdvances(db: Db, id: Uuid, op: Uuid, now: Instant)
    requires Inv(db)
    ensures Advance(db, Retire(db, id, op, now).db, id)
  {
    hide Inv, Advance, RowInv, RowAdvance, RetireRow, AuthorityOf;
    var db' := Retire(db, id, op, now).db;
    if db' == db {
      Unchanged(db, id);
    } else {
      var row, row' := db.installations[id], db'.installations[id];
      RowAt(db, id);
      SameRowLawful(row);
      if !row.state.Retired? {
        RetireRowLawful(row, db.nextJob);
      }
      assert LawfulOperation(db, db'.operations[op]);
      assert db'.installations == db.installations[id := row'];
      Committed(db, db', id, row');
    }
  }

  lemma RelocateAdvances(db: Db, id: Uuid, op: Uuid, placement: string, now: Instant)
    requires Inv(db)
    ensures Advance(db, Relocate(db, id, op, placement, now).db, id)
  {
    hide ValidHostname, KnownAccount, ValidPlacement;
    var db' := Relocate(db, id, op, placement, now).db;
    if db' == db {
      Unchanged(db, id);
    } else {
      var row, row' := db.installations[id], db'.installations[id];
      assert RowInv(row, db.nextJob);
      BearersUntouched(row, row');
      assert LawfulOperation(db, db'.operations[op]);
      hide BearersInv;
      Committed(db, db', id, row');
    }
  }

  lemma CompleteAdvances(db: Db, id: Uuid, job: nat)
    requires Inv(db)
    ensures Advance(db, CompleteJob(db, id, job), id)
  {
    hide ValidHostname, KnownAccount;
    var db' := CompleteJob(db, id, job);
    if db' == db {
      Unchanged(db, id);
    } else {
      assert RowInv(db.installations[id], db.nextJob);
      SimpleAdvance(db, db', id, db'.installations[id]);
    }
  }

  lemma StepAdvances(db: Db, a: Action)
    requires Inv(db)
    ensures Advance(db, Step(db, a), a.id)
  {
    hide Inv, Advance, Allocate, IssueBearer, RenewBearer, RegisterAcmeAccount, MarkDnsReady, ClaimTunnel, RenewTunnel,
      EnsureChallengeValue, MarkChallengeReconciled, ExpireChallengeValues, ExpirePendingAllocation, Retire, Relocate,
        CompleteJob;
    match a
    case DoAllocate(op, key, placement, id, drawn, now) =>
      AllocateAdvances(db, op, key, placement, id, drawn, now);
    case DoIssue(w, id, op, scope, hash, validity, now) => IssueAdvances(db, w, id, op, scope, hash, validity, now);
    case DoRenew(w, id, op, scope, from, token, hash, now) => RenewAdvances(db, w, id, op, scope, from, token, hash,
      now);
    case DoRegister(environment, id, account) => RegisterAdvances(db, environment, id, account);
    case DoMarkReady(id) => MarkReadyAdvances(db, id);
    case DoClaim(id, gateway, ttl, now) => ClaimAdvances(db, id, gateway, ttl, now);
    case DoRenewTunnel(id, gateway, g, now) => RenewTunnelAdvances(db, id, gateway, g, now);
    case DoEnsure(id, g, v, now) => EnsureAdvances(db, id, g, v, now);
    case DoMarkReconciled(id, revision) => MarkReconciledAdvances(db, id, revision);
    case DoSweepValues(id, now) => SweepValuesAdvances(db, id, now);
    case DoSweepPending(id, now) => SweepPendingAdvances(db, id, now);
    case DoRetire(id, op, now) => RetireAdvances(db, id, op, now);
    case DoRelocate(id, op, placement, now) => RelocateAdvances(db, id, op, placement, now);
    case DoComplete(id, job) => CompleteAdvances(db, id, job);
  }

  lemma LaterJobs(row: Installation, n: nat, n': nat)
    requires RowInv(row, n) && n <= n'
    ensures RowInv(row, n')
  {
    hide ValidHostname, KnownAccount;
  }

  lemma AdvanceKeepsInv(db: Db, db': Db, id: Uuid)
    requires Inv(db) && Advance(db, db', id)
    ensures Inv(db')
  {
    hide RowInv, AuthorityOf;
    forall i | i in db'.installations ensures RowInv(db'.installations[i], db'.nextJob) {
      if i != id {
        LaterJobs(db.installations[i], db.nextJob, db'.nextJob);
      }
    }
    assert forall i | i in db.installations :: HostnameTaken(db, db.installations[i].hostname);
  }

  // ------------------------------------------------------------------
  // Runs
  // ------------------------------------------------------------------

  /** Any sequence of transactions, from the empty database. */
  ghost predicate IsRun(states: seq<Db>, actions: seq<Action>) {
    && |states| == |actions| + 1
    && EmptyDb(states[0])
    && forall i | 0 <= i < |actions| :: states[i + 1] == Step(states[i], actions[i])
  }

  lemma {:induction false} RunInv(states: seq<Db>, actions: seq<Action>, i: nat)
    requires IsRun(states, actions) && i < |states|
    ensures Inv(states[i])
    ensures i < |actions| ==> Advance(states[i], states[i + 1], actions[i].id)
  {
    hide Step, Advance;
    if i > 0 {
      hide Inv;
      RunInv(states, actions, i - 1);
      AdvanceKeepsInv(states[i - 1], states[i], actions[i - 1].id);
    }
    if i < |actions| {
      StepAdvances(states[i], actions[i]);
    }
  }

  lemma {:induction false} InstallationsStay(states: seq<Db>, actions: seq<Action>, i: nat, j: nat, id: Uuid)
    requires IsRun(states, actions) && i <= j < |states| && id in states[i].installations
    ensures id in states[j].installations
    ensures states[j].installations[id].hostname == states[i].installations[id].hostname
    ensures states[i].installations[id].generation <= states[j].installations[id].generation
  {
    hide Step, Inv, RowInv;
    if i < j {
      InstallationsStay(states, actions, i, j - 1, id);
      RunInv(states, actions, j - 1);
    }
  }

  // ------------------------------------------------------------------
  // Lease fencing
  // ------------------------------------------------------------------

  /** Generation `g` has been granted or passed over, and no lease carries it. */
  predicate Superseded(db: Db, id: Uuid, g: nat) {
    && id in db.installations
    && g <= db.installations[id].generation
    && !(db.installations[id].lease.Some? && db.installations[id].lease.value.generation == g)
  }

  lemma SupersededIsStable(db: Db, db': Db, id: Uuid, actor: Uuid, g: nat)
    requires Advance(db, db', actor) && Superseded(db, id, g)
    ensures Superseded(db', id, g)
  {
    hide RowInv, OperationsInv, AuthorityOf;
  }

  /** Once superseded, a generation is never current again at any gateway, on any clock. */
  lemma {:induction false} LeaseFencing(states: seq<Db>, actions: seq<Action>, i: nat, j: nat, id: Uuid, g: nat)
    requires IsRun(states, actions) && i <= j < |states| && Superseded(states[i], id, g)
    ensures Superseded(states[j], id, g)
    ensures forall gateway, now :: !TunnelIsCurrent(states[j], id, gateway, g, now)
  {
    hide Step, Inv, Advance;
    if i < j {
      LeaseFencing(states, actions, i, j - 1, id, g);
      RunInv(states, actions, j - 1);
      SupersededIsStable(states[j - 1], states[j], id, actions[j - 1].id, g);
    }
  }

  /** The actions that must fence: a claim, a tunnel-bearer rotation, a move, a retirement. */
  predicate FencingAction(a: Action) {
    || a.DoClaim? || (a.DoIssue? && a.scope.Tunnel?) || (a.DoRenew? && a.scope.Tunnel?)
    || a.DoRelocate? || a.DoRetire? || a.DoSweepPending?
  }

  /** The counter moved on and any lease left carries its new value. */
  ghost predicate Rotated(db: Db, db': Db, id: Uuid) {
    && id in db.installations && id in db'.installations
    && db'.installations[id].generation == db.installations[id].generation + 1
    && (db'.installations[id].lease.Some? ==>
          db'.installations[id].lease.value.generation == db'.installations[id].generation)
  }

  lemma ClaimFences(db: Db, id: Uuid, gateway: string, ttl: int, now: Instant)
    ensures var db' := ClaimTunnel(db, id, gateway, ttl, now).db; db' == db || Rotated(db, db', id)
  {
  }

  lemma IssueFences(db: Db, w: Windows, id: Uuid, op: Uuid, hash: Digest, validity: int, now: Instant)
    ensures var db' := IssueBearer(db, w, id, op, Scope.Tunnel, hash, validity, now).db;
      db' == db || Rotated(db, db', id)
  {
  }

  lemma RenewFences(db: Db, w: Windows, id: Uuid, op: Uuid, from: nat, token: string, hash: Digest, now: Instant)
    ensures var db' := RenewBearer(db, w, id, op, Scope.Tunnel, from, token, hash, now).db;
      db' == db || Rotated(db, db', id)
  {
    hide Newest;
  }

  lemma RelocateFences(db: Db, id: Uuid, op: Uuid, placement: string, now: Instant)
    ensures var db' := Relocate(db, id, op, placement, now).db; db' == db || Rotated(db, db', id)
  {
    hide ValidPlacement;
  }

  lemma RetireFences(db: Db, id: Uuid, op: Uuid, now: Instant)
    ensures var db' := Retire(db, id, op, now).db; db'.installations == db.installations || Rotated(db, db', id)
  {
  }

  lemma SweepFences(db: Db, id: Uuid, now: Instant)
    requires Inv(db)
    ensures var db' := ExpirePendingAllocation(db, id, now).0; db' == db || Rotated(db, db', id)
  {
    if id in db.installations {
      RowAt(db, id);
    }
    hide Inv, BearersInv, ChallengeInv, JobsInv;
  }

  /** Each of them, when it takes effect, supersedes every generation granted before it. */
  lemma RotationFences(db: Db, a: Action, g: nat)
    requires Inv(db) && FencingAction(a) && a.id in db.installations
    requires a.id in Step(db, a).installations
    requires Step(db, a).installations[a.id].generation != db.installations[a.id].generation
    requires g <= db.installations[a.id].generation
    ensures Superseded(Step(db, a), a.id, g)
    ensures Step(db, a).installations[a.id].generation == db.installations[a.id].generation + 1
  {
    hide Inv, ClaimTunnel, IssueBearer, RenewBearer, Relocate, Retire, ExpirePendingAllocation;
    match a
    case DoClaim(id, gateway, ttl, now) => ClaimFences(db, id, gateway, ttl, now);
    case DoIssue(w, id, op, scope, hash, validity, now) => IssueFences(db, w, id, op, hash, validity, now);
    case DoRenew(w, id, op, scope, from, token, hash, now) => RenewFences(db, w, id, op, from, token, hash, now);
    case DoRelocate(id, op, placement, now) => RelocateFences(db, id, op, placement, now);
    case DoRetire(id, op, now) => RetireFences(db, id, op, now);
    case DoSweepPending(id, now) => SweepFences(db, id, now);
    case _ =>
  }

  /** A lease exists only for a ready installation, at its placement, and names
      the one generation that can be current. */
  lemma LeaseIsExclusive(states: seq<Db>, actions: seq<Action>, i: nat, id: Uuid, gateway: string, g: nat, now: Instant)
    requires IsRun(states, actions) && i < |states| && TunnelIsCurrent(states[i], id, gateway, g, now)
    ensures states[i].installations[id].state.DnsReady?
    ensures gateway == states[i].installations[id].placement
    ensures 0 < g <= states[i].installations[id].generation
    ensures forall gateway', g', now' ::
      TunnelIsCurrent(states[i], id, gateway', g', now') ==> gateway' == gateway && g' == g
    ensures forall h: nat :: h < g ==> Superseded(states[i], id, h)
  {
    RunInv(states, actions, i);
    assert RowInv(states[i].installations[id], states[i].nextJob);
  }

  // ------------------------------------------------------------------
  // Credentials
  // ------------------------------------------------------------------

  /** A bearer that some newer bearer of its scope has replaced. */
  ghost predicate Replaced(db: Db, id: Uuid, k: BearerKey) {
    id in db.installations && k in db.installations[id].bearers && !Newest(db.installations[id], k)
  }

  lemma ReplacedIsStable(db: Db, db': Db, id: Uuid, actor: Uuid, k: BearerKey)
    requires Advance(db, db', actor) && Replaced(db, id, k)
    ensures Replaced(db', id, k)
  {
    hide RowInv, OperationsInv, AuthorityOf;
    var n :| n in db.installations[id].bearers && n.scope == k.scope && n.generation > k.generation;
    assert n in db'.installations[id].bearers;
  }

  lemma ReplacedDoesNothing(db: Db, id: Uuid, k: BearerKey)
    requires Inv(db) && Replaced(db, id, k)
    ensures forall token, now :: !Authenticates(db, id, k.scope, token, now, k.generation)
    ensures forall w, now :: !Renewable(db.installations[id], w, k, now)
    ensures k.scope.DnsChallenge? ==> forall now :: !ChallengeBearer(db.installations[id], k.generation, now)
  {
    assert RowInv(db.installations[id], db.nextJob);
    assert k == BearerKey(k.scope, k.generation);
  }

  /** A replaced bearer never authenticates, renews or ensures a challenge value again. */
  lemma {:induction false} ReplacedNeverReturns(states: seq<Db>, actions: seq<Action>, i: nat, j: nat, id: Uuid,
      k: BearerKey)
    requires IsRun(states, actions) && i <= j < |states| && Replaced(states[i], id, k)
    ensures Replaced(states[j], id, k)
    ensures forall token, now :: !Authenticates(states[j], id, k.scope, token, now, k.generation)
    ensures forall w, now :: !Renewable(states[j].installations[id], w, k, now)
    ensures k.scope.DnsChallenge? ==> forall now :: !ChallengeBearer(states[j].installations[id], k.generation, now)
  {
    hide Step, Inv, Advance;
    if i < j {
      ReplacedNeverReturns(states, actions, i, j - 1, id, k);
      RunInv(states, actions, j - 1);
      ReplacedIsStable(states[j - 1], states[j], id, actions[j - 1].id, k);
    }
    RunInv(states, actions, j);
    ReplacedDoesNothing(states[j], id, k);
  }

  /** Whatever bearer authenticates is its scope's newest, so the query has one answer. */
  lemma AuthenticationIsUnique(states: seq<Db>, actions: seq<Action>, i: nat, id: Uuid, scope: Scope, token: string,
      now: Instant, g: nat)
    requires IsRun(states, actions) && i < |states| && Authenticates(states[i], id, scope, token, now, g)
    ensures Newest(states[i].installations[id], BearerKey(scope, g))
    ensures g <= states[i].installations[id].generation
    ensures states[i].installations[id].bearers[BearerKey(scope, g)].expiresAt > now
    ensures forall token', now', g' ::
      Authenticates(states[i], id, scope, token', now', g') ==> g' == g && token' == token
  {
    RunInv(states, actions, i);
    var row := states[i].installations[id];
    assert RowInv(row, states[i].nextJob);
    hide IsRun, Step;
    assert Newest(row, BearerKey(scope, g));
    forall token', now', g' | Authenticates(states[i], id, scope, token', now', g') ensures g' == g && token' == token {
      assert Newest(row, BearerKey(scope, g'));
      assert BearerKey(scope, g').scope == BearerKey(scope, g).scope;
    }
  }

  ghost predicate Rotates(row: Installation, row': Installation, scope: Scope) {
    && row'.generation == row.generation + 1
    && Newest(row', BearerKey(scope, row'.generation))
    && (forall k | k in row.bearers && k.scope == scope :: k in row'.bearers && !Newest(row', k))
    && (forall k | k in row.bearers && k.scope != scope :: k in row'.bearers && row'.bearers[k] == row.bearers[k])
  }

  /** An issue that takes effect replaces every earlier bearer of its scope, whatever
      its state, and leaves the other scope alone. */
  lemma IssueRotates(row: Installation, scope: Scope, hash: Digest, expiresAt: Instant)
    requires BearersInv(row)
    ensures Rotates(row, IssueRow(row, scope, hash, expiresAt), scope)
  {
    var row' := IssueRow(row, scope, hash, expiresAt);
    var added := BearerKey(scope, row.generation + 1);
    assert row'.bearers.Keys == row.bearers.Keys + {added};
    forall k | k in row.bearers && k.scope == scope ensures k in row'.bearers && !Newest(row', k) {
      assert added in row'.bearers && added.generation > k.generation;
    }
  }

  /** So does a renewal, although it revokes only the generation it renews. */
  lemma RenewRotates(row: Installation, w: Windows, scope: Scope, from: nat, hash: Digest, expiresAt: Instant,
      now: Instant)
    requires BearersInv(row) && Renewable(row, w, BearerKey(scope, from), now)
    ensures Rotates(row, RenewRow(row, scope, from, hash, expiresAt), scope)
  {
    var row' := RenewRow(row, scope, from, hash, expiresAt);
    var added := BearerKey(scope, row.generation + 1);
    forall k | k in row.bearers && k.scope == scope ensures k in row'.bearers && !Newest(row', k) {
      assert added in row'.bearers && added.generation > k.generation;
    }
  }

  /** Retirement is permanent: its bearers authenticate and renew nothing, and no
      lease, value or further credential appears. */
  lemma {:induction false} RetiredStaysInert(states: seq<Db>, actions: seq<Action>, i: nat, j: nat, id: Uuid)
    requires IsRun(states, actions) && i <= j < |states|
    requires id in states[i].installations && states[i].installations[id].state.Retired?
    ensures id in states[j].installations && states[j].installations[id].state.Retired?
    ensures states[j].installations[id].lease.None? && states[j].installations[id].values == map[]
    ensures states[j].installations[id].bearers == states[i].installations[id].bearers
    ensures states[j].installations[id].generation == states[i].installations[id].generation
    ensures forall scope, token, now, g :: !Authenticates(states[j], id, scope, token, now, g)
    ensures forall w, k, now :: !Renewable(states[j].installations[id], w, k, now)
    ensures forall v, r, now :: !ChallengeValueReady(states[j], id, v, r, now)
  {
    hide Step, Inv, RowInv, OperationsInv;
    if i < j {
      RetiredStaysInert(states, actions, i, j - 1, id);
      RunInv(states, actions, j - 1);
      RetiredStays(states[j - 1], states[j], actions[j - 1].id, id);
    }
    hide Advance;
    RunInv(states, actions, j);
    RetiredInert(states[j], id);
  }

  lemma RetiredStays(db: Db, db': Db, actor: Uuid, id: Uuid)
    requires Advance(db, db', actor) && id in db.installations && db.installations[id].state.Retired?
    ensures id in db'.installations && db'.installations[id].state.Retired?
    ensures db'.installations[id].bearers == db.installations[id].bearers
    ensures db'.installations[id].generation == db.installations[id].generation
  {
    hide RowInv, OperationsInv, AuthorityOf;
  }

  lemma RetiredInert(db: Db, id: Uuid)
    requires Inv(db) && id in db.installations && db.installations[id].state.Retired?
    ensures db.installations[id].lease.None? && db.installations[id].values == map[]
    ensures forall scope, token, now, g :: !Authenticates(db, id, scope, token, now, g)
    ensures forall w, k, now :: !Renewable(db.installations[id], w, k, now)
    ensures forall v, r, now :: !ChallengeValueReady(db, id, v, r, now)
  {
    RowAt(db, id);
    hide Inv, BearersInv, JobsInv, ValidChallengeValue;
  }

  // ------------------------------------------------------------------
  // Operation ids
  // ------------------------------------------------------------------

  function OperationOf(a: Action): Option<Uuid> {
    if a.DoAllocate? || a.DoIssue? || a.DoRenew? || a.DoRetire? || a.DoRelocate? then Some(a.op) else None
  }

  lemma KnownOperationChangesNothing(db: Db, a: Action)
    requires OperationOf(a).Some? && a.op in db.operations
    ensures Step(db, a) == db
  {
  }

  lemma OperationsStay(db: Db, a: Action, op: Uuid)
    requires op in db.operations
    ensures op in Step(db, a).operations && Step(db, a).operations[op] == db.operations[op]
  {
    if OperationOf(a) == Some(op) {
      KnownOperationChangesNothing(db, a);
    }
  }

  /** Once an operation id is recorded its record never changes, and any later
      request under it, of any kind, changes nothing. */
  lemma {:induction false} OperationActsOnce(states: seq<Db>, actions: seq<Action>, i: nat, j: nat, op: Uuid)
    requires IsRun(states, actions) && i <= j < |states| && op in states[i].operations
    ensures op in states[j].operations && states[j].operations[op] == states[i].operations[op]
    ensures j < |actions| && OperationOf(actions[j]) == Some(op) ==> states[j + 1] == states[j]
  {
    if i < j {
      OperationActsOnce(states, actions, i, j - 1, op);
      OperationsStay(states[j - 1], actions[j - 1], op);
    }
    if j < |actions| && OperationOf(actions[j]) == Some(op) {
      KnownOperationChangesNothing(states[j], actions[j]);
    }
  }

  /** No operation id ever allocates a second hostname. */
  lemma AllocatesOnce(states: seq<Db>, actions: seq<Action>, i: nat, j: nat)
    requires IsRun(states, actions) && i < j < |actions|
    requires actions[i].DoAllocate? && actions[j].DoAllocate? && actions[i].op == actions[j].op
    requires states[i + 1].installations != states[i].installations
    ensures states[j + 1] == states[j]
  {
    OperationActsOnce(states, actions, i + 1, j, actions[i].op);
  }

  /** What a repeat of a recorded issue, renewal, retirement or move is told. */
  lemma ReplayAnswers(states: seq<Db>, actions: seq<Action>, i: nat, j: nat, op: Uuid, w: Windows, id: Uuid,
      scope: Scope,
                      validity: int, from: nat, token: string, hash: Digest, placement: string, now: Instant)
    requires IsRun(states, actions) && i <= j < |states| && op in states[i].operations
    requires !scope.SurfaceAdmin? && 60 <= validity <= 86400 && 43 <= |token| <= 128 && ValidPlacement(placement)
    ensures var known := states[i].operations[op];
      && IssueBearer(states[j], w, id, op, scope, hash, validity, now).reply ==
         (if known.installation == id && known.request == IssueRequest(scope, validity, hash) then Ok(known.receipt)
           else Err(Conflict))
      && RenewBearer(states[j], w, id, op, scope, from, token, hash, now).reply ==
         (if known.installation == id && known.request == RenewRequest(scope, from, Sha256(token), hash)
           && known.createdAt > now - 300000
          then Ok(known.receipt) else Err(Conflict))
      && Retire(states[j], id, op, now).reply ==
         (if known.installation == id && known.request == RetireRequest(id) then Ok(()) else Err(Conflict))
      && Relocate(states[j], id, op, placement, now).reply ==
         (if known.installation == id && known.request == RelocateRequest(id, placement) then Ok(()) else Err(Conflict))
  {
    OperationActsOnce(states, actions, i, j, op);
    RunInv(states, actions, j);
  }

  /** Allocation looks only at the key and the current placement of the installation
      behind a known id: it conflicts exactly when one of them differs. */
  lemma AllocateReplayExact(states: seq<Db>, actions: seq<Action>, i: nat, op: Uuid, key: string, placement: string,
                            id: Uuid, drawn: Label, now: Instant)
    requires IsRun(states, actions) && i < |states| && op in states[i].operations && ValidPlacement(placement)
    ensures var owner := states[i].operations[op].installation;
      && owner in states[i].installations
      && Allocate(states[i], op, key, placement, id, drawn, now) ==
         Outcome(states[i], if states[i].installations[owner].adminKey == key
           && states[i].installations[owner].placement == placement
                            then Ok(owner) else Err(Conflict))
  {
    RunInv(states, actions, i);
  }

  /** So an id recorded by a retirement answers an allocation too, although the
      requests differ. */
  lemma AllocateIgnoresKind(drawn: Label) returns (states: seq<Db>, actions: seq<Action>)
    ensures IsRun(states, actions) && |states| == 3
    ensures 9 in states[2].operations && states[2].operations[9].request.RetireRequest?
    ensures forall other: Label, now :: Allocate(states[2], 9, "k", "p", 8, other, now).reply == Ok(7)
  {
    hide Allocate, Retire;
    var s0 := Db(map[], map[], 0, 1);
    var s1 := Allocate(s0, 3, "k", "p", 7, drawn, 0).db;
    var s2 := Retire(s1, 7, 9, 1).db;
    FirstAllocation(s0, drawn);
    RetireRecorded(s1);
    forall other: Label, now ensures Allocate(s2, 9, "k", "p", 8, other, now).reply == Ok(7) {
      KnownAllocation(s2, other, now);
    }
    states, actions := [s0, s1, s2], [DoAllocate(3, "k", "p", 7, drawn, 0), DoRetire(7, 9, 1)];
  }

  lemma FirstAllocation(s0: Db, drawn: Label)
    requires s0 == Db(map[], map[], 0, 1)
    ensures var s1 := Allocate(s0, 3, "k", "p", 7, drawn, 0).db;
      && 7 in s1.installations && s1.installations[7].adminKey == "k" && s1.installations[7].placement == "p"
      && s1.operations.Keys == {3}
  {
    assert ValidPlacement("p");
    assert !HostnameTaken(s0, HostnameOf(drawn));
  }

  lemma RetireRecorded(s1: Db)
    requires 7 in s1.installations && 9 !in s1.operations
    ensures var s2 := Retire(s1, 7, 9, 1).db;
      && 7 in s2.installations && s2.installations[7].adminKey == s1.installations[7].adminKey
      && s2.installations[7].placement == s1.installations[7].placement
      && 9 in s2.operations && s2.operations[9].installation == 7 && s2.operations[9].request.RetireRequest?
  {
  }

  lemma KnownAllocation(s2: Db, other: Label, now: Instant)
    requires 9 in s2.operations && s2.operations[9].installation == 7 && 7 in s2.installations
    requires s2.installations[7].adminKey == "k" && s2.installations[7].placement == "p"
    ensures Allocate(s2, 9, "k", "p", 8, other, now).reply == Ok(7)
  {
    assert ValidPlacement("p");
  }

  // ------------------------------------------------------------------
  // The restore fence covers every security transition
  // ------------------------------------------------------------------

  ghost predicate SameAuthority(a: Db, b: Db) {
    && a.installations.Keys == b.installations.Keys
    && forall i | i in a.installations :: AuthorityOf(a.installations[i]) == AuthorityOf(b.installations[i])
  }

  lemma FenceCoversStep(db: Db, db': Db, id: Uuid)
    requires Advance(db, db', id)
    ensures db.fence <= db'.fence
    ensures db'.fence == db.fence ==> SameAuthority(db, db')
  {
    hide RowInv, OperationsInv, AuthorityOf, RowAdvance;
  }

  /** Two states of a run with the same fence revision grant the same authority:
      comparing revisions is enough to detect a lost transition. */
  lemma {:induction false} FenceCoversRun(states: seq<Db>, actions: seq<Action>, i: nat, j: nat)
    requires IsRun(states, actions) && i <= j < |states|
    ensures states[i].fence <= states[j].fence
    ensures states[i].fence == states[j].fence ==> SameAuthority(states[i], states[j])
  {
    hide Step, Inv, Advance, AuthorityOf;
    if i < j {
      FenceCoversRun(states, actions, i, j - 1);
      RunInv(states, actions, j - 1);
      FenceCoversStep(states[j - 1], states[j], actions[j - 1].id);
    }
  }
}
