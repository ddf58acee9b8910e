/** The store itself: one object whose methods run the transactions statement by
    statement on its tables. Each method is proved to be the transaction function of
    the same name, so what Fencing proves about runs of transactions holds of it.
  */
module Store {
  import opened Schema
  import T = Transactions
  import Fencing
  import Effects
  import opened Sweeps

  // ------------------------------------------------------------------
  // The store
  // ------------------------------------------------------------------

  class Store {
    var installations: map<Uuid, Installation>
    var operations: map<Uuid, Operation>
    var nextJob: nat
    var fence: nat
    const windows: Windows
    const environment: AcmeEnvironment

    function View(): Db
      reads this
    {
      Db(installations, operations, nextJob, fence)
    }

    ghost predicate Valid()
      reads this
    {
      Fencing.Inv(View())
    }

    constructor (windows: Windows, environment: AcmeEnvironment)
      ensures EmptyDb(View()) && Valid() && this.windows == windows && this.environment == environment
    {
      installations, operations, nextJob, fence := map[], map[], 0, 1;
      this.windows, this.environment := windows, environment;
    }

    method Allocate(op: Uuid, adminKey: string, placement: string, id: Uuid, drawn: Label, now: Instant)
      returns (r: Result<Uuid>)
      requires Valid()
      modifies this
      ensures T.Outcome(View(), r) == T.Allocate(old(View()), op, adminKey, placement, id, drawn, now)
      ensures op !in old(operations) ==>
        Effects.Allocated(old(View()), op, adminKey, placement, id, drawn, now, View(), r)
      ensures Valid()
    {
      hide Fencing.Inv, Effects.Allocated;
      if op !in operations {
        Effects.AllocateExact(View(), op, adminKey, placement, id, drawn, now);
      }
      Kept(T.DoAllocate(op, adminKey, placement, id, drawn, now));
      if !ValidPlacement(placement) {
        return Err(InvalidRequest);
      }
      if op in operations && operations[op].installation in installations {
        var known := operations[op].installation;
        if installations[known].adminKey != adminKey || installations[known].placement != placement {
          return Err(Conflict);
        }
        return Ok(known);
      }
      if id in installations || op in operations || T.HostnameTaken(View(), HostnameOf(drawn)) {
        return Err(Unavailable);
      }
      var row := Installation(HostnameOf(drawn), adminKey, placement, 1, PendingDns, None, now, map[], None, None,
                              map[], map[]);
      operations := operations[op := Operation(id, AllocateRequest, NoReceipt, now)];
      row := row.(jobs := row.jobs[nextJob := Job(PublishName, false)]);
      nextJob := nextJob + 1;
      installations := installations[id := row];
      fence := fence + 1;
      return Ok(id);
    }

    method IssueBearer(id: Uuid, op: Uuid, scope: Scope, tokenHash: Digest, validity: int, now: Instant)
      returns (r: Result<Receipt>)
      requires Valid()
      modifies this
      ensures T.Outcome(View(), r) == T.IssueBearer(old(View()), windows, id, op, scope, tokenHash, validity, now)
      ensures r.Ok? && op !in old(operations) ==> Effects.Granted(View(), id, op, scope, tokenHash, r.value)
      ensures op !in old(operations) ==>
        Effects.Issued(old(View()), windows, id, op, scope, tokenHash, validity, now, View(), r)
      ensures Valid()
    {
      hide Fencing.Inv, Effects.Granted, Effects.Issued;
      Kept(T.DoIssue(windows, id, op, scope, tokenHash, validity, now));
      if op !in operations {
        Effects.IssueGrants(View(), windows, id, op, scope, tokenHash, validity, now);
        Effects.IssueExact(View(), windows, id, op, scope, tokenHash, validity, now);
      }
      if scope.SurfaceAdmin? || !(60 <= validity <= 86400) {
        return Err(InvalidRequest);
      }
      var request := IssueRequest(scope, validity, tokenHash);
      if op in operations {
        if operations[op].installation != id || operations[op].request != request {
          return Err(Conflict);
        }
        if operations[op].receipt.NoReceipt? {
          return Err(InvalidRequest);
        }
        return Ok(operations[op].receipt);
      }
      if id !in installations || installations[id].state.Retired? {
        return Err(Conflict);
      }
      var row := installations[id];
      row := row.(generation := row.generation + 1);
      row := row.(bearers := T.Revoke(row.bearers, scope));
      var expiresAt := now + 1000 * MinOf(validity, windows.validity);
      row := row.(bearers := row.bearers[BearerKey(scope, row.generation) := Bearer(tokenHash, expiresAt, false)]);
      if scope.Tunnel? {
        row := row.(lease := None);
      }
      installations := installations[id := row];
      r := Ok(Receipt(row.generation, expiresAt));
      operations := operations[op := Operation(id, request, r.value, now)];
      fence := fence + 1;
    }

    method RenewBearer(id: Uuid, op: Uuid, scope: Scope, from: nat, token: string, newHash: Digest, now: Instant)
      returns (r: Result<Receipt>)
      requires Valid()
      modifies this
      ensures T.Outcome(View(), r) == T.RenewBearer(old(View()), windows, id, op, scope, from, token, newHash, now)
      ensures r.Ok? && op !in old(operations) ==>
        && Effects.Granted(View(), id, op, scope, newHash, r.value)
        && Fencing.Replaced(View(), id, BearerKey(scope, from))
      ensures op !in old(operations) ==>
        Effects.Renewed(old(View()), windows, id, op, scope, from, token, newHash, now, View(), r)
      ensures Valid()
    {
      hide Fencing.Inv, Effects.Granted, Effects.Renewed, Fencing.Replaced, T.Newest;
      Kept(T.DoRenew(windows, id, op, scope, from, token, newHash, now));
      if op !in operations {
        Effects.RenewGrants(View(), windows, id, op, scope, from, token, newHash, now);
        Effects.RenewExact(View(), windows, id, op, scope, from, token, newHash, now);
      }
      if scope.SurfaceAdmin? || |token| < 43 || |token| > 128 {
        return Err(InvalidRequest);
      }
      var request := RenewRequest(scope, from, Sha256(token), newHash);
      if op in operations {
        var recent := operations[op].createdAt > now - 300000;
        if operations[op].installation != id || operations[op].request != request || !recent {
          return Err(Conflict);
        }
        if operations[op].receipt.NoReceipt? {
          return Err(InvalidRequest);
        }
        return Ok(operations[op].receipt);
      }
      var key := BearerKey(scope, from);
      if id !in installations || !T.Renewable(installations[id], windows, key, now) {
        return Err(Unauthorized);
      }
      var row := installations[id];
      if row.bearers[key].tokenHash != Sha256(token) {
        return Err(Unauthorized);
      }
      row := row.(generation := row.generation + 1);
      row := row.(bearers := row.bearers[key := row.bearers[key].(revoked := true)]);
      var expiresAt := now + 1000 * windows.validity;
      row := row.(bearers := row.bearers[BearerKey(scope, row.generation) := Bearer(newHash, expiresAt, false)]);
      if scope.Tunnel? {
        row := row.(lease := None);
      }
      installations := installations[id := row];
      r := Ok(Receipt(row.generation, expiresAt));
      operations := operations[op := Operation(id, request, r.value, now)];
      fence := fence + 1;
    }

    method RegisterAcmeAccount(id: Uuid, account: string) returns (r: Result<()>)
      requires Valid()
      modifies this
      ensures T.Outcome(View(), r) == T.RegisterAcmeAccount(old(View()), environment, id, account)
      ensures Effects.Registered(old(View()), environment, id, account, View(), r)
      ensures Valid()
    {
      hide Fencing.Inv, ValidAccountUri, Effects.Registered;
      Effects.RegisterExact(View(), environment, id, account);
      Kept(T.DoRegister(environment, id, account));
      if !ValidAccountUri(environment, account) {
        return Err(InvalidRequest);
      }
      if id !in installations || installations[id].state.Retired? {
        return Err(Conflict);
      }
      var row := installations[id].(account := Some(account));
      row := row.(jobs := row.jobs[nextJob := Job(PublishName, false)]);
      nextJob := nextJob + 1;
      installations := installations[id := row];
      fence := fence + 1;
      return Ok(());
    }

    method MarkDnsReady(id: Uuid)
      requires Valid()
      modifies this
      ensures View() == T.MarkDnsReady(old(View()), id)
      ensures Effects.MarkedReady(old(View()), id, View())
      ensures Valid()
    {
      hide Fencing.Inv, Effects.MarkedReady;
      Effects.MarkReadyExact(View(), id);
      Kept(T.DoMarkReady(id));
      if id in installations && installations[id].state.PendingDns? && installations[id].account.Some? {
        installations := installations[id := installations[id].(state := DnsReady)];
        fence := fence + 1;
      }
    }

    method ClaimTunnel(id: Uuid, gateway: string, ttl: int, now: Instant) returns (r: Result<nat>)
      requires Valid()
      modifies this
      ensures T.Outcome(View(), r) == T.ClaimTunnel(old(View()), id, gateway, ttl, now)
      ensures Effects.Claimed(old(View()), id, gateway, ttl, now, View(), r)
      ensures Valid()
    {
      hide Fencing.Inv, Effects.Claimed;
      Effects.ClaimExact(View(), id, gateway, ttl, now);
      Kept(T.DoClaim(id, gateway, ttl, now));
      if gateway == "" || !(5 <= ttl <= 60) {
        return Err(InvalidRequest);
      }
      if id !in installations || !installations[id].state.DnsReady? || installations[id].placement != gateway {
        return Err(Conflict);
      }
      var row := installations[id];
      row := row.(generation := row.generation + 1);
      row := row.(lease := Some(Lease(row.generation, gateway, now + 1000 * ttl)));
      installations := installations[id := row];
      fence := fence + 1;
      return Ok(row.generation);
    }

    method RenewTunnel(id: Uuid, gateway: string, generation: nat, now: Instant) returns (renewed: bool)
      requires Valid()
      modifies this
      ensures (View(), renewed) == T.RenewTunnel(old(View()), id, gateway, generation, now)
      ensures Effects.Extended(old(View()), id, gateway, generation, now, View(), renewed)
      ensures Valid()
    {
      hide Fencing.Inv, Effects.Extended;
      Effects.RenewTunnelExact(View(), id, gateway, generation, now);
      Kept(T.DoRenewTunnel(id, gateway, generation, now));
      renewed := T.TunnelIsCurrent(View(), id, gateway, generation, now);
      if renewed {
        var row := installations[id];
        installations := installations[id := row.(lease := Some(row.lease.value.(expiresAt := now + 45000)))];
      }
    }

    method EnsureChallengeValue(id: Uuid, generation: nat, value: string, now: Instant)
      returns (r: Result<ChallengeValueState>)
      requires Valid()
      modifies this
      ensures T.Outcome(View(), r) == T.EnsureChallengeValue(old(View()), id, generation, value, now)
      ensures Effects.Ensured(old(View()), id, generation, value, now, View(), r)
      ensures Valid()
    {
      hide Fencing.Inv, ValidChallengeValue, Effects.Ensured;
      Effects.EnsureExact(View(), id, generation, value, now);
      Kept(T.DoEnsure(id, generation, value, now));
      if !ValidChallengeValue(value) {
        return Err(InvalidRequest);
      }
      if id !in installations || !installations[id].state.DnsReady? {
        return Err(Conflict);
      }
      var row := installations[id];
      if !T.ChallengeBearer(row, generation, now) {
        return Err(Unauthorized);
      }
      row := T.WithChallengeState(row);
      if value in row.values && row.values[value] > now {
        row := row.(values := row.values[value := now + CHALLENGE_VALUE_LIFETIME_MS]);
      } else {
        if |T.Live(row.values, now)| >= MAX_LIVE_CHALLENGE_VALUES {
          return Err(Conflict);
        }
        row := row.(values := T.Live(row.values, now));
        row := row.(values := row.values[value := now + CHALLENGE_VALUE_LIFETIME_MS]);
        row := T.ChallengeSetChanged(row, nextJob);
        nextJob, fence := nextJob + 1, fence + 1;
      }
      installations := installations[id := row];
      return Ok(ChallengeValueState(row.challenge.value.revision, row.values[value]));
    }

    method MarkChallengeReconciled(id: Uuid, revision: nat) returns (marked: bool)
      requires Valid()
      modifies this
      ensures (View(), marked) == T.MarkChallengeReconciled(old(View()), id, revision)
      ensures Effects.MarkedReconciled(old(View()), id, revision, View(), marked)
      ensures Valid()
    {
      hide Fencing.Inv, Effects.MarkedReconciled;
      Effects.MarkReconciledExact(View(), id, revision);
      Kept(T.DoMarkReconciled(id, revision));
      marked := id in installations && installations[id].challenge.Some?
        && installations[id].challenge.value.revision == revision;
      if marked {
        var row := installations[id];
        installations := installations[id := row.(challenge := Some(row.challenge.value.(ready := Some(revision))))];
      }
    }

    method Retire(id: Uuid, op: Uuid, now: Instant) returns (r: Result<()>)
      requires Valid()
      modifies this
      ensures T.Outcome(View(), r) == T.Retire(old(View()), id, op, now)
      ensures op !in old(operations) ==> Effects.RetiredBy(old(View()), id, op, now, View(), r)
      ensures Valid()
    {
      hide Fencing.Inv, Effects.RetiredBy;
      if op !in operations {
        Effects.RetireExact(View(), id, op, now);
      }
      Kept(T.DoRetire(id, op, now));
      if op in operations {
        if operations[op].installation != id || !operations[op].request.RetireRequest? {
          return Err(Conflict);
        }
        return Ok(());
      }
      if id !in installations {
        return Err(Conflict);
      }
      if !installations[id].state.Retired? {
        var row := installations[id];
        row := row.(state := Retired, generation := row.generation + 1);
        row := row.(lease := None);
        row := row.(jobs := row.jobs[nextJob := Job(RemoveRecords, false)]);
        row := row.(jobs := row.jobs[nextJob + 1 := Job(RemoveTxtAll, false)]);
        row := row.(values := map[]);
        installations := installations[id := row];
        nextJob, fence := nextJob + 2, fence + 1;
      }
      operations := operations[op := Operation(id, RetireRequest(id), NoReceipt, now)];
      return Ok(());
    }

    method Relocate(id: Uuid, op: Uuid, placement: string, now: Instant) returns (r: Result<()>)
      requires Valid()
      modifies this
      ensures T.Outcome(View(), r) == T.Relocate(old(View()), id, op, placement, now)
      ensures op !in old(operations) ==> Effects.Relocated(old(View()), id, op, placement, now, View(), r)
      ensures Valid()
    {
      hide Fencing.Inv, Effects.Relocated;
      if op !in operations {
        Effects.RelocateExact(View(), id, op, placement, now);
      }
      Kept(T.DoRelocate(id, op, placement, now));
      if !ValidPlacement(placement) {
        return Err(InvalidRequest);
      }
      if op in operations {
        if operations[op].installation != id || operations[op].request != RelocateRequest(id, placement) {
          return Err(Conflict);
        }
        return Ok(());
      }
      if id !in installations || !installations[id].state.DnsReady? {
        return Err(Conflict);
      }
      if installations[id].placement == placement {
        return Err(Conflict);
      }
      var row := installations[id];
      row := row.(placement := placement, generation := row.generation + 1);
      row := row.(lease := None);
      row := row.(jobs := row.jobs[nextJob := Job(PublishName, false)]);
      installations := installations[id := row];
      nextJob, fence := nextJob + 1, fence + 1;
      operations := operations[op := Operation(id, RelocateRequest(id, placement), NoReceipt, now)];
      return Ok(());
    }

    method CompleteJob(id: Uuid, job: nat)
      requires Valid()
      modifies this
      ensures View() == T.CompleteJob(old(View()), id, job)
      ensures Effects.Completed(old(View()), id, job, View())
      ensures Valid()
    {
      hide Fencing.Inv, Effects.Completed;
      Effects.CompleteExact(View(), id, job);
      Kept(T.DoComplete(id, job));
      if id in installations && job in installations[id].jobs {
        var row := installations[id];
        installations := installations[id := row.(jobs := row.jobs[job := row.jobs[job].(completed := true)])];
      }
    }

    /** The newest matching bearer; `None` exactly when no bearer authenticates. */
    method AuthenticateBearer(id: Uuid, scope: Scope, token: string, now: Instant) returns (r: Option<nat>)
      ensures r.Some? ==> T.Authenticates(View(), id, scope, token, now, r.value)
      ensures r.Some? ==> id in installations && installations[id].state.DnsReady?
      ensures r.Some? ==> !scope.SurfaceAdmin? && 43 <= |token| <= 128
      ensures forall g: nat | T.Authenticates(View(), id, scope, token, now, g) :: r.Some? && g <= r.value
    {
      r := None;
      if |token| < 43 || |token| > 128 || scope.SurfaceAdmin? {
        return;
      }
      if id !in installations || !installations[id].state.DnsReady? {
        return;
      }
      var row := installations[id];
      var todo := row.bearers.Keys;
      while todo != {}
        invariant todo <= row.bearers.Keys
        invariant r.Some? ==> T.BearerMatches(row, BearerKey(scope, r.value), token, now)
        invariant forall g: nat | BearerKey(scope, g) !in todo
          && T.BearerMatches(row, BearerKey(scope, g), token, now) ::
          r.Some? && g <= r.value
        decreases |todo|
      {
        var key :| key in todo;
        todo := todo - {key};
        if key.scope == scope && T.BearerMatches(row, key, token, now) && (r.None? || r.value < key.generation) {
          r := Some(key.generation);
        }
      }
    }

    /** `expire_pending_allocations` and `expire_challenge_values`: select at one time, then
        one transaction per selected installation, each at its own time. Before each of them
        any other transactions may commit. */
    method Expire(sweep: Sweep, limit: int, selectedAt: Instant, turns: seq<Turn>)
      returns (r: Result<nat>, ids: seq<Uuid>)
      requires Valid() && |turns| >= 100
      modifies this
      ensures Valid()
      ensures !(1 <= limit <= 100) ==> r == Err(InvalidRequest) && View() == old(View())
      ensures 1 <= limit <= 100 ==>
        && Selected(old(View()), sweep, ids, limit, selectedAt)
        && r.Ok? && (View(), r.value) == SweepAll(sweep, old(View()), ids, turns[..|ids|])
    {
      hide Fencing.Inv, SweepOne, Due, After;
      if !(1 <= limit <= 100) {
        return Err(InvalidRequest), [];
      }
      ids := Select(sweep, limit, selectedAt);
      var expired := 0;
      for i := 0 to |ids|
        invariant Valid() && SweepAll(sweep, old(View()), ids[..i], turns[..i]) == (View(), expired)
      {
        assert ids[..i + 1][..i] == ids[..i] && turns[..i + 1][..i] == turns[..i];
        Interleave(turns[i].others);
        var changed := ExpireOne(sweep, ids[i], turns[i].now);
        if changed {
          expired := expired + 1;
        }
      }
      assert ids[..|ids|] == ids;
      return Ok(expired), ids;
    }

    /** Transactions of other processes. */
    method Interleave(others: seq<T.Action>)
      requires Valid()
      modifies this
      ensures View() == After(old(View()), others) && Valid()
    {
      hide Fencing.Inv;
      AfterKeeps(View(), others);
      var db := After(View(), others);
      installations, operations, nextJob, fence := db.installations, db.operations, db.nextJob, db.fence;
    }

    method ExpireOne(sweep: Sweep, id: Uuid, now: Instant) returns (changed: bool)
      requires Valid()
      modifies this
      ensures (View(), changed) == SweepOne(sweep, old(View()), id, now)
      ensures Valid()
    {
      hide Fencing.Inv;
      match sweep
      case PendingSweep => changed := ExpirePendingAllocation(id, now);
      case ValueSweep => changed := ExpireValues(id, now);
    }

    method ExpirePendingAllocation(id: Uuid, now: Instant) returns (changed: bool)
      requires Valid()
      modifies this
      ensures (View(), changed) == T.ExpirePendingAllocation(old(View()), id, now)
      ensures Effects.PendingSwept(old(View()), id, now, View(), changed)
      ensures Valid()
    {
      hide Fencing.Inv, Effects.PendingSwept;
      Effects.PendingSweepExact(View(), id, now);
      Kept(T.DoSweepPending(id, now));
      changed := id in installations && Due(PendingSweep, installations[id], now);
      if changed {
        var row := installations[id];
        row := row.(state := Retired, generation := row.generation + 1);
        row := row.(jobs := row.jobs[nextJob := Job(RemoveRecords, false)]);
        row := row.(jobs := row.jobs[nextJob + 1 := Job(RemoveTxtAll, false)]);
        installations := installations[id := row];
        nextJob, fence := nextJob + 2, fence + 1;
      }
    }

    method ExpireValues(id: Uuid, now: Instant) returns (changed: bool)
      requires Valid()
      modifies this
      ensures (View(), changed) == T.ExpireChallengeValues(old(View()), id, now)
      ensures Effects.ValuesSwept(old(View()), id, now, View(), changed)
      ensures Valid()
    {
      hide Fencing.Inv, Effects.ValuesSwept;
      Effects.ValueSweepExact(View(), id, now);
      Kept(T.DoSweepValues(id, now));
      changed := id in installations && T.HasLapsed(installations[id], now);
      if changed {
        var row := installations[id].(values := T.Live(installations[id].values, now));
        installations := installations[id := T.ChallengeSetChanged(row, nextJob)];
        nextJob, fence := nextJob + 1, fence + 1;
      }
    }

    /** Up to `limit` of the installations that are due: the oldest pending ones, or any with
        lapsed values. */
    method Select(sweep: Sweep, limit: nat, now: Instant) returns (ids: seq<Uuid>)
      ensures Selected(View(), sweep, ids, limit, now)
    {
      hide Due, NoYounger;
      ids := [];
      var todo := set id | id in installations && Due(sweep, installations[id], now);
      ghost var due := todo;
      while todo != {} && |ids| < limit
        invariant |ids| <= limit && Distinct(ids) && todo <= due
        invariant forall id :: id in due <==> id in ids || id in todo
        invariant forall id | id in ids :: id !in todo
        invariant Oldest(View(), sweep, ids, todo)
        decreases |todo|
      {
        ghost var oldest := OldestOf(View(), todo);
        var id :| id in todo && forall other | other in todo :: NoYounger(View(), id, other);
        todo := todo - {id};
        assert forall i | 0 <= i < |ids| :: ids[i] in ids;
        ids := ids + [id];
      }
    }

    lemma Kept(a: T.Action)
      requires Valid()
      ensures Fencing.Inv(T.Step(View(), a))
    {
      hide Fencing.Inv, T.Step;
      Fencing.StepAdvances(View(), a);
      Fencing.AdvanceKeepsInv(View(), T.Step(View(), a), a.id);
    }
  }
}
