/** One DNS worker attempt as the worker runs it: a claimed job, the store and the two
    Cloudflare names of the installation. Interleaving with other attempts and with
    transactions is the subject of Reconcile; here the attempt runs alone, against the
    provider call by call.
  */
module Worker {
  import opened Schema
  import T = Transactions
  import Fencing
  import Store
  import opened Cloudflare
  import opened CloudflareRuns
  import opened CloudflareNames
  import Reconcile

  /** The stored values as the list the provider takes. */
  method ListValues(values: set<string>) returns (list: seq<string>)
    ensures ValueSet(list) == values && |list| == |values|
    ensures forall i, j | 0 <= i < j < |list| :: list[i] != list[j]
  {
    list := [];
    var todo := values;
    while todo != {}
      invariant todo <= values && ValueSet(list) == values - todo && |list| + |todo| == |values|
      invariant forall i, j | 0 <= i < j < |list| :: list[i] != list[j]
      decreases |todo|
    {
      var v :| v in todo;
      assert forall i | 0 <= i < |list| :: list[i] in ValueSet(list);
      assert ValueSet(list + [v]) == ValueSet(list) + {v};
      list, todo := list + [v], todo - {v};
    }
  }

  /** The stored set is always one the provider accepts. */
  lemma StoredSetAccepted(db: Db, id: Uuid, list: seq<string>)
    requires Fencing.Inv(db) && id in db.installations
    requires ValueSet(list) == db.installations[id].values.Keys && |list| == |db.installations[id].values.Keys|
    requires forall i, j | 0 <= i < j < |list| :: list[i] != list[j]
    ensures ValidChallengeValues(list)
  {
    assert Fencing.RowInv(db.installations[id], db.nextJob);
    hide Fencing.Inv, ValidChallengeValue;
    var row := db.installations[id];
    assert |row.values.Keys| == |row.values|;
    forall i | 0 <= i < |list| ensures ValidChallengeValue(list[i]) {
      assert list[i] in ValueSet(list);
    }
  }

  /** So are the stored hostname and account; of a publication only the list of addresses can
      be refused. */
  lemma StoredRecordsAccepted(db: Db, id: Uuid, list: seq<Address>)
    requires Fencing.Inv(db) && id in db.installations && db.installations[id].account.Some?
    ensures ValidHostname(db.installations[id].hostname)
    ensures ValidRecords(list, db.installations[id].account.value) <==>
      1 <= |list| <= 4 && forall a | a in list :: !a.unspecified
  {
    hide ValidHostname, KnownAccount;
    Fencing.RowAt(db, id);
  }

  /** The answers of the restore witness before the provider call, after it, once a mark has
      committed, and when the outcome is recorded. A refusal fails the attempt at that point;
      one of a mark comes too late to undo it. */
  datatype Integrity = Integrity(before: bool, after: bool, marking: bool, recording: bool)

  /** Nothing stands in the way of a publication, and the provider answers long enough. */
  ghost predicate Publishes(z: Zone, addresses: seq<Address>, account: string, budget: nat) {
    && ValidRecords(addresses, account) && Listable(z) && NoForeign(z)
    && budget >= |z| + |ServingDesired(addresses, account)|
  }

  ghost predicate Replaces(z: Zone, values: set<string>, budget: nat) {
    Listable(z) && (forall n | n in z :: !Unowned(z[n])) && budget >= |z| + |values|
  }

  ghost predicate Retires(z: Zone, budget: nat) {
    Listable(z) && (forall n | n in z :: !ForeignServing(z[n])) && budget >= |z|
  }

  ghost predicate RetiresTxt(z: Zone, budget: nat) {
    Listable(z) && (forall n | n in z :: !ForeignTxt(z[n])) && budget >= |z|
  }

  /** The mark a job of this kind makes once its effect has been seen. */
  ghost function Marked(db: Db, id: Uuid, kind: JobKind): Db
    requires id in db.installations
  {
    if kind.ReconcileTxt? then T.MarkChallengeReconciled(db, id, T.ChallengeTarget(db.installations[id]).0).0
    else T.MarkDnsReady(db, id)
  }

  class DnsWorker {
    const placement: string
    const scope: Reconcile.WorkerScope
    const ingress: seq<Address>

    constructor (placement: string, scope: Reconcile.WorkerScope, ingress: seq<Address>)
      ensures this.placement == placement && this.scope == scope && this.ingress == ingress
    {
      this.placement, this.scope, this.ingress := placement, scope, ingress;
    }

    /** Whether `dns_identity` answers, and for this worker's placement. */
    predicate Mine(row: Installation) {
      !row.state.Retired? && row.account.Some? && row.placement == placement
    }

    /** Nothing stands in the way of a job of this kind: there is nothing to do, or the provider
        will do it. */
    ghost predicate Unhindered(row: Installation, kind: JobKind, serving: Zone, challenge: Zone, budget: nat) {
      match kind
      case PublishName =>
        row.state.Retired? || row.account.None?
          || (Mine(row) && Publishes(serving, ingress, row.account.value, budget))
      case ReconcileTxt =>
        row.state.Retired? || row.account.None? || (Mine(row) && Replaces(challenge, row.values.Keys, budget))
      case RemoveRecords => !row.state.Retired? || Retires(serving, budget)
      case RemoveTxtAll => !row.state.Retired? || RetiresTxt(challenge, budget)
    }

    /** A `publish_name` job. It is done when there is nothing to publish, or when the name
        was published to the end, seen and marked. */
    method Publish(store: Store.Store, serving: NameZone, id: Uuid, budget: nat, visible: bool, intact: Integrity)
      returns (done: bool, ghost marked: bool)
      requires store.Valid() && serving.Valid() && id in store.installations
      modifies store, serving
      ensures store.Valid() && serving.Valid()
      ensures var row := old(store.installations)[id];
        if row.state.Retired? || row.account.None?
          then done && !marked && store.View() == old(store.View()) && serving.zone == old(serving.zone)
        else if row.placement != placement
          then !done && !marked && store.View() == old(store.View()) && serving.zone == old(serving.zone)
        else
          && done == (marked && intact.marking)
          && store.View() == (if marked then T.MarkDnsReady(old(store.View()), id) else old(store.View()))
          && var possible := && intact.before && ValidRecords(ingress, row.account.value)
                             && Listable(old(serving.zone)) && NoForeign(old(serving.zone));
          && (possible ==>
                Published(old(serving.zone), serving.zone, KeySet(ServingDesired(ingress, row.account.value)), marked))
          && (!possible ==> !marked && serving.zone == old(serving.zone))
          && (marked ==> intact.after && visible)
          && (intact.before && intact.after && visible ==>
                Publishes(old(serving.zone), ingress, row.account.value, budget) ==> marked)
    {
      hide Fencing.Inv, Published, ServingDesired, ValidRecords, NoForeign, Listable, IdsBelow, Calls, PlanOf, After,
        Publishing;
      var row := store.installations[id];
      if row.state.Retired? || row.account.None? {
        return true, false;
      }
      if row.placement != placement {
        return false, false;
      }
      if !intact.before {
        return false, false;
      }
      ghost var z0 := serving.zone;
      var r, _, _ := serving.PublishName(ingress, row.account.value, budget);
      if !r.Done? || !intact.after || !visible {
        if Listable(z0) && NoForeign(z0) && ValidRecords(ingress, row.account.value) {
          UnfinishedPublished(z0, serving.zone, KeySet(ServingDesired(ingress, row.account.value)), r.Done?);
        }
        return false, false;
      }
      store.MarkDnsReady(id);
      return intact.marking, true;
    }

    /** A `reconcile_txt` job. When it is done, DNS holds exactly the stored set, each value
        once, and the revision that set has is marked ready. */
    method ReconcileTxt(store: Store.Store, challenge: NameZone, id: Uuid, budget: nat, visible: bool,
        intact: Integrity) returns (done: bool, ghost marked: bool)
      requires store.Valid() && challenge.Valid() && id in store.installations
      modifies store, challenge
      ensures store.Valid() && challenge.Valid()
      ensures var row := old(store.installations)[id];
        if row.state.Retired? || row.account.None?
          then done && !marked && store.View() == old(store.View()) && challenge.zone == old(challenge.zone)
        else if row.placement != placement
          then !done && !marked && store.View() == old(store.View()) && challenge.zone == old(challenge.zone)
        else
          && done == (marked && intact.marking)
          && store.View() ==
            (if marked then T.MarkChallengeReconciled(old(store.View()), id, T.ChallengeTarget(row).0).0
              else old(store.View()))
          && Reconcile.PartialWrite(TxtValues(old(challenge.zone)), row.values.Keys, TxtValues(challenge.zone))
          && (marked ==>
                TxtTidy(challenge.zone) && TxtValues(challenge.zone) == row.values.Keys && intact.after && visible)
          && (!intact.before ==> !marked && challenge.zone == old(challenge.zone))
          && (intact.before && intact.after && visible ==>
                Replaces(old(challenge.zone), row.values.Keys, budget) ==> marked)
    {
      hide Fencing.Inv, TxtTidy, TxtValues, ValidChallengeValues, Listable, IdsBelow, Unowned;
      var row := store.installations[id];
      if row.state.Retired? || row.account.None? {
        return true, false;
      }
      if row.placement != placement {
        return false, false;
      }
      var target := T.ChallengeTarget(row);
      if !intact.before {
        return false, false;
      }
      var list := ListValues(target.1);
      StoredSetAccepted(store.View(), id, list);
      var r := challenge.SetChallenge(list, budget);
      if !r.Done? || !intact.after || !visible {
        return false, false;
      }
      var _ := store.MarkChallengeReconciled(id, target.0);
      return intact.marking, true;
    }

    /** The removal jobs of a retired installation; of any other they do nothing. */
    method Remove(store: Store.Store, serving: NameZone, challenge: NameZone, id: Uuid, records: bool, budget: nat,
        absent: bool, intact: Integrity) returns (done: bool)
      requires store.Valid() && serving.Valid() && challenge.Valid() && serving != challenge
      requires id in store.installations
      modifies serving, challenge
      ensures serving.Valid() && challenge.Valid()
      ensures !store.installations[id].state.Retired? ==>
        done && serving.zone == old(serving.zone) && challenge.zone == old(challenge.zone)
      ensures if records then challenge.zone == old(challenge.zone) && Retiring(old(serving.zone), serving.zone)
        else serving.zone == old(serving.zone) && forall n | n in challenge.zone ::
          n in old(challenge.zone) && challenge.zone[n] == old(challenge.zone)[n]
      ensures store.installations[id].state.Retired? && !intact.before ==>
        !done && serving.zone == old(serving.zone) && challenge.zone == old(challenge.zone)
      ensures done && store.installations[id].state.Retired? ==> intact.after && absent
      ensures done && store.installations[id].state.Retired? ==>
        if records then forall n | n in serving.zone :: !Managed(serving.zone[n])
          else forall n | n in challenge.zone :: !challenge.zone[n].kind.TXT?
      ensures intact.before && intact.after && absent && records && Retires(old(serving.zone), budget) ==> done
      ensures intact.before && intact.after && absent && !records && RetiresTxt(old(challenge.zone), budget) ==> done
    {
      hide Fencing.Inv, Retiring, IdsBelow, Listable, Managed, Foreign, ChallengeOwned;
      RetiringRefl(serving.zone);
      if !store.installations[id].state.Retired? {
        return true;
      }
      if !intact.before {
        return false;
      }
      var r: Outcome<()>;
      if records {
        r := serving.RetireName(budget);
      } else {
        r := challenge.RetireChallenge(budget);
      }
      return r.Done? && intact.after && absent;
    }

    /** A claimed job: processed, and recorded as complete when it is done. `seen` is the
        observer's answer. */
    method Attempt(store: Store.Store, serving: NameZone, challenge: NameZone, id: Uuid, job: nat, budget: nat,
        seen: bool, intact: Integrity) returns (done: bool, ghost marked: bool)
      requires store.Valid() && serving.Valid() && challenge.Valid() && serving != challenge
      requires id in store.installations && job in store.installations[id].jobs
      modifies store, serving, challenge
      ensures store.Valid() && serving.Valid() && challenge.Valid()
      ensures !Reconcile.JobAllowed(scope, old(store.installations)[id].jobs[job].kind) ==>
        !done && !marked && serving.zone == old(serving.zone) && challenge.zone == old(challenge.zone)
      // When nothing stands in its way, it is done; and marked, where there is something to mark.
      ensures var row := old(store.installations)[id];
        && Reconcile.JobAllowed(scope, row.jobs[job].kind) && seen && intact == Integrity(true, true, true, true)
        && Unhindered(row, row.jobs[job].kind, old(serving.zone), old(challenge.zone), budget) ==>
          done && (marked <==> Mine(row) && (row.jobs[job].kind.PublishName? || row.jobs[job].kind.ReconcileTxt?))
      // The store afterwards: the mark of the job's kind, then the completion.
      ensures var row := old(store.installations)[id];
        var after := if marked then Marked(old(store.View()), id, row.jobs[job].kind) else old(store.View());
        store.View() == if done then T.CompleteJob(after, id, job) else after
      // A serving job leaves the challenge name alone, and a challenge job the serving one.
      ensures var kind := old(store.installations)[id].jobs[job].kind;
        if kind.PublishName? || kind.RemoveRecords? then challenge.zone == old(challenge.zone)
        else serving.zone == old(serving.zone)
      // An unfinished attempt leaves its job as it was, and the store too unless it got as far
      // as its mark; then only the witness can have stopped it.
      ensures !done && !marked ==> store.View() == old(store.View())
      ensures !done && marked ==> !intact.marking || !intact.recording
      ensures !done ==> id in store.installations && store.installations[id].jobs == old(store.installations)[id].jobs
      ensures done ==> intact.recording
      ensures done ==>
        id in store.installations && job in store.installations[id].jobs && store.installations[id].jobs[job].completed
      // Wherever it stops, the provider's guarantees hold of what it wrote.
      ensures var row := old(store.installations)[id];
        match row.jobs[job].kind
        case PublishName => serving.zone == old(serving.zone) || (row.account.Some? &&
          Published(old(serving.zone), serving.zone, KeySet(ServingDesired(ingress, row.account.value)), marked))
        case ReconcileTxt => challenge.zone == old(challenge.zone) ||
          Reconcile.PartialWrite(TxtValues(old(challenge.zone)), row.values.Keys, TxtValues(challenge.zone))
        case RemoveRecords => serving.zone == old(serving.zone) || Retiring(old(serving.zone), serving.zone)
        case RemoveTxtAll => forall n | n in challenge.zone ::
          n in old(challenge.zone) && challenge.zone[n] == old(challenge.zone)[n]
      // A completed reconciliation is marked, a marked one has every live value published and ready.
      ensures var row := old(store.installations)[id];
        (done || marked) && row.jobs[job].kind.ReconcileTxt? && Mine(row) ==>
          marked && AllReady(store.View(), id, row, challenge.zone)
      // A completed or marked publication has exactly the wanted records.
      ensures var row := old(store.installations)[id];
        (done || marked) && row.jobs[job].kind.PublishName? && Mine(row) && CaaUnproxied(old(serving.zone)) ==>
          Exact(serving.zone, KeySet(ServingDesired(ingress, row.account.value)))
      // A completed removal leaves nothing.
      ensures var row := old(store.installations)[id];
        done && row.jobs[job].kind.RemoveRecords? && row.state.Retired? ==>
          forall n | n in serving.zone :: !Managed(serving.zone[n])
      ensures var row := old(store.installations)[id];
        done && row.jobs[job].kind.RemoveTxtAll? && row.state.Retired? ==>
          forall n | n in challenge.zone :: !challenge.zone[n].kind.TXT?
    {
      hide Fencing.Inv, Retiring, IdsBelow, Listable, Published, AllReady, Exact, CaaUnproxied, NoForeign,
        ValidRecords, ServingDesired, TxtTidy, TxtValues, Managed, Publishes, Replaces, Retires, RetiresTxt,
        T.CompleteJob, T.MarkDnsReady, T.MarkChallengeReconciled;
      ghost var db := store.View();
      var row := store.installations[id];
      var kind := row.jobs[job].kind;
      if !Reconcile.JobAllowed(scope, kind) {
        return false, false;
      }
      ghost var z0 := serving.zone;
      marked := false;
      match kind {
      case PublishName =>
        done, marked := Publish(store, serving, id, budget, seen, intact);
        MarkDnsReadyJobs(db, id);
        if marked {
          PublishedExact(z0, serving.zone, KeySet(ServingDesired(ingress, row.account.value)));
        }
      case ReconcileTxt =>
        done, marked := ReconcileTxt(store, challenge, id, budget, seen, intact);
        MarkReconciledJobs(db, id, T.ChallengeTarget(row).0);
        if marked {
          ReadyMarked(db, store.View(), id, challenge.zone);
        }
      case RemoveRecords => done := Remove(store, serving, challenge, id, true, budget, seen, intact);
      case RemoveTxtAll => done := Remove(store, serving, challenge, id, false, budget, seen, intact);
      }
      done := done && intact.recording;
      if done {
        CompletionKeepsReady(store.View(), id, job, row, challenge.zone);
        store.CompleteJob(id, job);
      }
    }
  }

  /** Every live stored value is ready at the stored revision and on DNS, and DNS holds
      nothing else. */
  ghost predicate AllReady(db: Db, id: Uuid, row: Installation, z: Zone) {
    && TxtTidy(z) && TxtValues(z) == row.values.Keys
    && (row.challenge.Some? ==> forall v, now | v in row.values && row.values[v] > now ::
          T.ChallengeValueReady(db, id, v, row.challenge.value.revision, now))
  }

  lemma ReadyMarked(db: Db, marked: Db, id: Uuid, z: Zone)
    requires id in db.installations && TxtTidy(z) && TxtValues(z) == db.installations[id].values.Keys
    requires marked == T.MarkChallengeReconciled(db, id, T.ChallengeTarget(db.installations[id]).0).0
    ensures AllReady(marked, id, db.installations[id], z)
  {
    hide TxtTidy, TxtValues;
  }

  lemma CompletionKeepsReady(db: Db, id: Uuid, job: nat, row: Installation, z: Zone)
    ensures AllReady(db, id, row, z) ==> AllReady(T.CompleteJob(db, id, job), id, row, z)
  {
    hide TxtTidy, TxtValues;
    if AllReady(db, id, row, z) && row.challenge.Some? {
      var r := row.challenge.value.revision;
      forall v, now | v in row.values && row.values[v] > now
        ensures T.ChallengeValueReady(T.CompleteJob(db, id, job), id, v, r, now)
      {
        assert T.ChallengeValueReady(db, id, v, r, now);
      }
    }
  }

  lemma MarkDnsReadyJobs(db: Db, id: Uuid)
    requires id in db.installations
    ensures id in T.MarkDnsReady(db, id).installations
    ensures T.MarkDnsReady(db, id).installations[id].jobs == db.installations[id].jobs
  {
  }

  lemma MarkReconciledJobs(db: Db, id: Uuid, revision: nat)
    requires id in db.installations
    ensures var db' := T.MarkChallengeReconciled(db, id, revision).0;
      id in db'.installations && db'.installations[id].jobs == db.installations[id].jobs
  {
  }

  lemma UnfinishedPublished(z0: Zone, z: Zone, desired: set<Key>, finished: bool)
    requires Published(z0, z, desired, finished)
    ensures Published(z0, z, desired, false)
  {
    hide Exact, NoForeign, CaaSafe, HasCaa, CaaUnproxied;
  }

  lemma PublishedExact(z0: Zone, z: Zone, desired: set<Key>)
    ensures Published(z0, z, desired, true) && CaaUnproxied(z0) ==> Exact(z, desired)
  {
    hide Exact, NoForeign, CaaSafe, HasCaa, CaaUnproxied;
  }
}
