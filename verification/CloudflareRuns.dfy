/** Running a serving plan or a retirement call by call, with the guarantees every
    prefix keeps and what the whole run reaches.
  */
module CloudflareRuns {
  import opened Schema
  import opened Cloudflare
  import Reconcile

  // ------------------------------------------------------------------
  // The calls of a plan
  // ------------------------------------------------------------------

  function CreateCalls(p: Plan, ids: seq<nat>): seq<Call>
    requires |p.missing| <= |ids|
  {
    seq(|p.missing|, i requires 0 <= i < |p.missing| => Create(p.missing[i], ids[i]))
  }

  function UpdateCalls(rs: seq<Record>): seq<Call> {
    seq(|rs|, i requires 0 <= i < |rs| => Update(rs[i].id))
  }

  function DeleteCalls(rs: seq<Record>): seq<Call> {
    seq(|rs|, i requires 0 <= i < |rs| => Delete(rs[i].id))
  }

  /** Creates, then updates, then deletes; `ids` are the ids the provider assigns. */
  function Calls(p: Plan, ids: seq<nat>): seq<Call>
    requires |p.missing| <= |ids|
  {
    CreateCalls(p, ids) + UpdateCalls(p.updates) + DeleteCalls(p.stale)
  }

  ghost predicate FreshIds(z: Zone, ids: seq<nat>) {
    (forall i | 0 <= i < |ids| :: ids[i] !in z) && (forall i, j | 0 <= i < j < |ids| :: ids[i] != ids[j])
  }

  function FirstIds(ids: seq<nat>, n: nat): set<nat>
    requires n <= |ids|
  {
    set i | 0 <= i < n :: ids[i]
  }

  function FirstOf(rs: seq<Record>, n: nat): set<nat>
    requires n <= |rs|
  {
    set i | 0 <= i < n :: rs[i].id
  }

  /** The zone after `c` creates, `u` updates and `d` deletes of the plan. */
  ghost predicate Midway(z0: Zone, p: Plan, ids: seq<nat>, z: Zone, c: nat, u: nat, d: nat)
    requires c <= |p.missing| <= |ids| && u <= |p.updates| && d <= |p.stale|
  {
    && z.Keys == z0.Keys + FirstIds(ids, c) - FirstOf(p.stale, d)
    && (forall i | 0 <= i < c :: ids[i] in z && z[ids[i]] == NewRecord(p.missing[i], ids[i]))
    && (forall id | id in z0 && id in z :: z[id] == if id in FirstOf(p.updates, u) then Patched(z0[id]) else z0[id])
  }

  lemma CreateStep(z0: Zone, p: Plan, ids: seq<nat>, z: Zone, c: nat)
    requires c < |p.missing| <= |ids| && FreshIds(z0, ids) && Midway(z0, p, ids, z, c, 0, 0)
    ensures Midway(z0, p, ids, Apply(z, Create(p.missing[c], ids[c])), c + 1, 0, 0)
  {
    hide NewRecord;
    assert FirstIds(ids, c + 1) == FirstIds(ids, c) + {ids[c]};
    NoneFirst(p);
    hide FirstIds, FirstOf;
    assert forall i | 0 <= i < c :: ids[i] != ids[c];
    assert ids[c] !in z0;
    hide FreshIds;
    var z' := Apply(z, Create(p.missing[c], ids[c]));
    assert z'.Keys == z.Keys + {ids[c]};
    forall id | id in z0 && id in z' ensures id in z && z'[id] == z[id] {
    }
  }

  lemma NoneFirst(p: Plan)
    ensures FirstOf(p.stale, 0) == {} && FirstOf(p.updates, 0) == {}
  {
  }

  lemma UpdateStep(z0: Zone, p: Plan, ids: seq<nat>, z: Zone, u: nat)
    requires |p.missing| <= |ids| && FreshIds(z0, ids) && FromZone(z0, p.updates) && u < |p.updates|
    requires Midway(z0, p, ids, z, |p.missing|, u, 0)
    ensures Midway(z0, p, ids, Apply(z, Update(p.updates[u].id)), |p.missing|, u + 1, 0)
  {
    assert p.updates[u] in p.updates;
    assert FirstOf(p.updates, u + 1) == FirstOf(p.updates, u) + {p.updates[u].id};
    hide NewRecord;
  }

  lemma DeleteStep(z0: Zone, p: Plan, ids: seq<nat>, z: Zone, d: nat)
    requires |p.missing| <= |ids| && FreshIds(z0, ids) && FromZone(z0, p.stale) && d < |p.stale|
    requires Midway(z0, p, ids, z, |p.missing|, |p.updates|, d)
    ensures Midway(z0, p, ids, Apply(z, Delete(p.stale[d].id)), |p.missing|, |p.updates|, d + 1)
  {
    assert p.stale[d] in p.stale;
    assert FirstOf(p.stale, d + 1) == FirstOf(p.stale, d) + {p.stale[d].id};
    hide NewRecord, Patched;
  }

  lemma ApplyNext(z: Zone, calls: seq<Call>, n: nat)
    requires n < |calls|
    ensures ApplyAll(z, calls[..n + 1]) == Apply(ApplyAll(z, calls[..n]), calls[n])
  {
    assert calls[..n + 1][..n] == calls[..n];
  }

  lemma CallAt(p: Plan, ids: seq<nat>, n: nat)
    requires |p.missing| <= |ids| && n < |Calls(p, ids)|
    ensures |Calls(p, ids)| == |p.missing| + |p.updates| + |p.stale|
    ensures Calls(p, ids)[n] ==
      if n < |p.missing| then Create(p.missing[n], ids[n])
      else if n < |p.missing| + |p.updates| then Update(p.updates[n - |p.missing|].id)
      else Delete(p.stale[n - |p.missing| - |p.updates|].id)
  {
  }

  lemma MidwayStart(z0: Zone, p: Plan, ids: seq<nat>)
    requires |p.missing| <= |ids|
    ensures Midway(z0, p, ids, ApplyAll(z0, Calls(p, ids)[..0]), 0, 0, 0)
  {
    assert Calls(p, ids)[..0] == [];
    hide Calls;
  }

  lemma CallCount(p: Plan, ids: seq<nat>)
    requires |p.missing| <= |ids|
    ensures |Calls(p, ids)| == |p.missing| + |p.updates| + |p.stale|
  {
  }

  lemma {:induction false} Creating(z0: Zone, p: Plan, ids: seq<nat>, c: nat)
    requires |p.missing| <= |ids| && FreshIds(z0, ids) && c <= |p.missing|
    ensures c <= |Calls(p, ids)| && Midway(z0, p, ids, ApplyAll(z0, Calls(p, ids)[..c]), c, 0, 0)
  {
    hide Midway, FreshIds, ApplyAll, Apply, Calls;
    CallCount(p, ids);
    if c == 0 {
      MidwayStart(z0, p, ids);
    } else {
      Creating(z0, p, ids, c - 1);
      CallAt(p, ids, c - 1);
      ApplyNext(z0, Calls(p, ids), c - 1);
      CreateStep(z0, p, ids, ApplyAll(z0, Calls(p, ids)[..c - 1]), c - 1);
    }
  }

  lemma {:induction false} Updating(z0: Zone, p: Plan, ids: seq<nat>, u: nat)
    requires |p.missing| <= |ids| && FreshIds(z0, ids) && FromZone(z0, p.updates) && u <= |p.updates|
    ensures |p.missing| + u <= |Calls(p, ids)|
    ensures Midway(z0, p, ids, ApplyAll(z0, Calls(p, ids)[..|p.missing| + u]), |p.missing|, u, 0)
  {
    hide Midway, FreshIds, ApplyAll, Apply, FromZone, Calls;
    CallCount(p, ids);
    if u == 0 {
      Creating(z0, p, ids, |p.missing|);
    } else {
      Updating(z0, p, ids, u - 1);
      CallAt(p, ids, |p.missing| + u - 1);
      ApplyNext(z0, Calls(p, ids), |p.missing| + u - 1);
      UpdateStep(z0, p, ids, ApplyAll(z0, Calls(p, ids)[..|p.missing| + u - 1]), u - 1);
    }
  }

  lemma {:induction false} Deleting(z0: Zone, p: Plan, ids: seq<nat>, d: nat)
    requires |p.missing| <= |ids| && FreshIds(z0, ids) && FromZone(z0, p.updates) && FromZone(z0, p.stale)
    requires d <= |p.stale|
    ensures |p.missing| + |p.updates| + d <= |Calls(p, ids)|
    ensures Midway(z0, p, ids, ApplyAll(z0, Calls(p, ids)[..|p.missing| + |p.updates| + d]), |p.missing|, |p.updates|,
      d)
  {
    hide Midway, FreshIds, ApplyAll, Apply, FromZone, Calls;
    CallCount(p, ids);
    var n := |p.missing| + |p.updates|;
    if d == 0 {
      Updating(z0, p, ids, |p.updates|);
    } else {
      Deleting(z0, p, ids, d - 1);
      CallAt(p, ids, n + d - 1);
      ApplyNext(z0, Calls(p, ids), n + d - 1);
      DeleteStep(z0, p, ids, ApplyAll(z0, Calls(p, ids)[..n + d - 1]), d - 1);
    }
  }

  lemma PlanFromZone(z: Zone, desired: set<Key>, p: Plan)
    requires PlanOk(z, desired, p)
    ensures FromZone(z, p.updates) && FromZone(z, p.stale)
  {
    hide FromZone, Kept, Has;
  }

  lemma AllIds(rs: seq<Record>)
    ensures FirstOf(rs, |rs|) == Ids(rs)
  {
    forall id | id in Ids(rs) ensures id in FirstOf(rs, |rs|) {
      var r :| r in rs && r.id == id;
      var i :| 0 <= i < |rs| && rs[i] == r;
    }
  }

  /** Where a run stopped after `n` calls stands. */
  lemma PrefixIsMidway(z0: Zone, desired: set<Key>, p: Plan, ids: seq<nat>, n: nat) returns (c: nat, u: nat, d: nat)
    requires PlanOk(z0, desired, p) && |p.missing| <= |ids| && FreshIds(z0, ids) && n <= |Calls(p, ids)|
    ensures c <= |p.missing| && u <= |p.updates| && d <= |p.stale| && n == c + u + d
    ensures (u > 0 || d > 0 ==> c == |p.missing|) && (d > 0 ==> u == |p.updates|)
    ensures Midway(z0, p, ids, ApplyAll(z0, Calls(p, ids)[..n]), c, u, d)
  {
    hide PlanOk, Midway, FromZone, FreshIds, Calls, ApplyAll;
    PlanFromZone(z0, desired, p);
    CallCount(p, ids);
    if n <= |p.missing| {
      c, u, d := n, 0, 0;
      Creating(z0, p, ids, c);
    } else if n <= |p.missing| + |p.updates| {
      c, u, d := |p.missing|, n - |p.missing|, 0;
      Updating(z0, p, ids, u);
    } else {
      c, u, d := |p.missing|, |p.updates|, n - |p.missing| - |p.updates|;
      Deleting(z0, p, ids, d);
    }
  }

  // ------------------------------------------------------------------
  // What every prefix of a publication keeps
  // ------------------------------------------------------------------

  /** The keys of the managed records, as reconciliation sees the name. */
  ghost function Keys(z: Zone): set<Key> {
    set id | id in z && Managed(z[id]) && KeyOf(z[id]).Some? :: KeyOf(z[id]).value
  }

  lemma KeysHas(z: Zone, k: Key)
    ensures k in Keys(z) <==> Has(z, k)
  {
    if Has(z, k) {
      var id :| Owns(z, k, id);
      assert KeyOf(z[id]).value == k;
    }
    if k in Keys(z) {
      var id :| id in z && Managed(z[id]) && KeyOf(z[id]).Some? && KeyOf(z[id]).value == k;
      assert Owns(z, k, id);
    }
  }

  ghost predicate Authorizes(z: Zone, id: nat) {
    id in z && z[id].kind.CAA? && z[id].data.Some? && z[id].data.value.tag.IssueTag?
  }

  /** An `issue` property authorizes wildcard issuance too unless an `issuewild`
      property denies it (sections 4.2 and 4.3 of RFC 8659). */
  ghost predicate CaaSafe(z: Zone) {
    (exists id :: Authorizes(z, id)) ==> Has(z, DENY_WILDCARD)
  }

  ghost predicate HasCaa(z: Zone) {
    exists id :: id in z && z[id].kind.CAA?
  }

  /** Desired keys are host addresses or CAA properties. */
  ghost predicate ServingKeys(desired: set<Key>) {
    forall k | k in desired :: (k.HostKey? ==> k.kind.A? || k.kind.AAAA?) && (k.CaaKey? ==> !k.tag.OtherTag?)
  }

  lemma NewRecordOwns(k: Key, id: nat, desired: set<Key>)
    requires ServingKeys(desired) && k in desired
    ensures Managed(NewRecord(k, id)) && KeyOf(NewRecord(k, id)) == Some(k) && Current(NewRecord(k, id))
    ensures !Foreign(NewRecord(k, id))
    ensures NewRecord(k, id).id == id
  {
  }

  lemma PatchKeepsKey(r: Record)
    ensures KeyOf(Patched(r)) == KeyOf(r) && Managed(Patched(r)) == Managed(r) && Patched(r).id == r.id
    ensures Patched(r).kind == r.kind
    ensures Patched(r).data == r.data && (!Foreign(r) ==> !Foreign(Patched(r)))
    ensures Current(Patched(r)) <==> !(r.kind.CAA? && r.proxied)
  {
  }

  /** A stopped run: which records it holds and where each came from. */
  ghost predicate Stopped(z0: Zone, desired: set<Key>, p: Plan, ids: seq<nat>, z: Zone, c: nat, u: nat, d: nat)
    requires c <= |p.missing| <= |ids| && u <= |p.updates| && d <= |p.stale|
  {
    && PlanOk(z0, desired, p) && FreshIds(z0, ids) && ServingKeys(desired) && NoForeign(z0)
    && (u > 0 || d > 0 ==> c == |p.missing|) && (d > 0 ==> u == |p.updates|)
    && Midway(z0, p, ids, z, c, u, d)
  }

  lemma NothingElseAppears(z0: Zone, desired: set<Key>, p: Plan, ids: seq<nat>, z: Zone, c: nat, u: nat, d: nat,
      id: nat)
    requires c <= |p.missing| <= |ids| && u <= |p.updates| && d <= |p.stale|
    requires Stopped(z0, desired, p, ids, z, c, u, d) && id in z
    ensures z[id].id == id && !Foreign(z[id])
    ensures id in z0 ==>
      KeyOf(z[id]) == KeyOf(z0[id]) && Managed(z[id]) == Managed(z0[id]) && z[id].kind == z0[id].kind
        && z[id].data == z0[id].data
    ensures id in z0 && !Managed(z0[id]) ==> z[id] == z0[id]
    ensures id !in z0 ==>
      exists i :: 0 <= i < c && id == ids[i] && z[id] == NewRecord(p.missing[i], id) && p.missing[i] in desired
  {
    if id in z0 {
      PatchKeepsKey(z0[id]);
      if id in FirstOf(p.updates, u) {
        assert id in Ids(p.updates);
        assert Kept(z0, p, id);
      }
      hide KeyOf, Foreign, Patched;
    } else {
      var i :| 0 <= i < c && id == ids[i];
      assert p.missing[i] in p.missing;
      NewRecordOwns(p.missing[i], id, desired);
      hide KeyOf, Foreign, NewRecord;
    }
  }

  lemma WantedStays(z0: Zone, desired: set<Key>, p: Plan, ids: seq<nat>, z: Zone, c: nat, u: nat, d: nat, k: Key)
    requires c <= |p.missing| <= |ids| && u <= |p.updates| && d <= |p.stale|
    requires Stopped(z0, desired, p, ids, z, c, u, d) && k in desired
    ensures Has(z0, k) ==> Has(z, k)
    ensures c == |p.missing| ==> Has(z, k)
  {
    if Has(z0, k) {
      var id :| Kept(z0, p, id) && Owns(z0, k, id);
      assert id !in FirstOf(p.stale, d) by {
        assert forall i | 0 <= i < d :: p.stale[i] in p.stale;
      }
      NothingElseAppears(z0, desired, p, ids, z, c, u, d, id);
      assert Owns(z, k, id);
    } else if c == |p.missing| {
      assert k in p.missing;
      var i :| 0 <= i < c && p.missing[i] == k;
      NewRecordOwns(k, ids[i], desired);
      assert Owns(z, k, ids[i]);
    }
  }

  /** The zone a publication stopped after `n` of its calls leaves behind. */
  ghost function After(z0: Zone, existing: seq<Record>, desired: seq<Key>, ids: seq<nat>, n: nat): Zone
    requires |PlanOf(existing, desired).missing| <= |ids| && n <= |Calls(PlanOf(existing, desired), ids)|
  {
    ApplyAll(z0, Calls(PlanOf(existing, desired), ids)[..n])
  }

  /** The conditions of a publication: a listing with no foreign record and fresh ids. */
  ghost predicate Publishing(z0: Zone, existing: seq<Record>, desired: seq<Key>, ids: seq<nat>) {
    && Lists(existing, z0) && NoForeign(z0) && ServingKeys(KeySet(desired))
    && FreshIds(z0, ids) && |PlanOf(existing, desired).missing| <= |ids|
  }

  lemma StoppedAt(z0: Zone, existing: seq<Record>, desired: seq<Key>, ids: seq<nat>, n: nat)
    returns (c: nat, u: nat, d: nat)
    requires Publishing(z0, existing, desired, ids) && n <= |Calls(PlanOf(existing, desired), ids)|
    ensures var p := PlanOf(existing, desired);
      && c <= |p.missing| && u <= |p.updates| && d <= |p.stale| && n == c + u + d
      && Stopped(z0, KeySet(desired), p, ids, After(z0, existing, desired, ids, n), c, u, d)
  {
    hide PlanOf, PlanOk, Calls, Midway, FreshIds;
    PlanCorrect(existing, z0, desired);
    c, u, d := PrefixIsMidway(z0, KeySet(desired), PlanOf(existing, desired), ids, n);
  }

  /** Every prefix of a publication is a partial write: no wanted record is lost on the
      way and nothing unwanted appears. */
  lemma PublishPrefixIsPartialWrite(z0: Zone, existing: seq<Record>, desired: seq<Key>, ids: seq<nat>, n: nat)
    requires Publishing(z0, existing, desired, ids) && n <= |Calls(PlanOf(existing, desired), ids)|
    ensures Reconcile.PartialWrite(Keys(z0), KeySet(desired), Keys(After(z0, existing, desired, ids, n)))
  {
    hide PlanOf, Calls, Stopped, Lists, NoForeign, ServingKeys, FreshIds, After, PlanOk;
    var c, u, d := StoppedAt(z0, existing, desired, ids, n);
    var z, wanted, p := After(z0, existing, desired, ids, n), KeySet(desired), PlanOf(existing, desired);
    forall k
      ensures k in Keys(z0) && k in wanted ==> k in Keys(z) ensures k in Keys(z) ==> k in Keys(z0) || k in wanted
    {
      KeysHas(z0, k);
      KeysHas(z, k);
      if k in wanted {
        WantedStays(z0, wanted, p, ids, z, c, u, d, k);
      } else if Has(z, k) {
        KeyCameFrom(z0, wanted, p, ids, z, c, u, d, k);
      }
    }
  }

  lemma KeyCameFrom(z0: Zone, desired: set<Key>, p: Plan, ids: seq<nat>, z: Zone, c: nat, u: nat, d: nat, k: Key)
    requires c <= |p.missing| <= |ids| && u <= |p.updates| && d <= |p.stale|
    requires Stopped(z0, desired, p, ids, z, c, u, d) && Has(z, k)
    ensures Has(z0, k) || k in desired
  {
    var id :| Owns(z, k, id);
    NothingElseAppears(z0, desired, p, ids, z, c, u, d, id);
    if id in z0 {
      assert Owns(z0, k, id);
    } else {
      var i :| 0 <= i < c && id == ids[i] && z[id] == NewRecord(p.missing[i], id) && p.missing[i] in desired;
      hide Stopped;
      NewRecordOwns(p.missing[i], id, desired);
    }
  }

  /** Publication stays CAA-safe after every call: the denial is created before any
      authorization and is never deleted. */
  lemma PublishKeepsCaaSafe(z0: Zone, existing: seq<Record>, desired: seq<Key>, ids: seq<nat>, n: nat)
    requires Publishing(z0, existing, desired, ids) && n <= |Calls(PlanOf(existing, desired), ids)|
    requires CaaSafe(z0) && DENY_WILDCARD in desired
    ensures CaaSafe(After(z0, existing, desired, ids, n))
    ensures HasCaa(z0) ==> HasCaa(After(z0, existing, desired, ids, n))
  {
    hide PlanOf, Calls, Stopped, Lists, NoForeign, ServingKeys, FreshIds, After, PlanOk;
    var c, u, d := StoppedAt(z0, existing, desired, ids, n);
    var z, wanted, p := After(z0, existing, desired, ids, n), KeySet(desired), PlanOf(existing, desired);
    WantedStays(z0, wanted, p, ids, z, c, u, d, DENY_WILDCARD);
    if id :| Authorizes(z, id) {
      AuthorizationCovered(z0, wanted, p, ids, z, c, u, d, id);
    }
    if HasCaa(z0) {
      CaaStays(z0, wanted, p, ids, z, c, u, d);
    }
  }

  lemma AuthorizationCovered(z0: Zone, desired: set<Key>, p: Plan, ids: seq<nat>, z: Zone, c: nat, u: nat, d: nat,
      id: nat)
    requires c <= |p.missing| <= |ids| && u <= |p.updates| && d <= |p.stale|
    requires Stopped(z0, desired, p, ids, z, c, u, d) && CaaSafe(z0) && DENY_WILDCARD in desired && Authorizes(z, id)
    ensures Has(z, DENY_WILDCARD)
  {
    hide Stopped, Foreign;
    WantedStays(z0, desired, p, ids, z, c, u, d, DENY_WILDCARD);
    NothingElseAppears(z0, desired, p, ids, z, c, u, d, id);
    if id in z0 {
      assert Authorizes(z0, id);
    } else if !Has(z0, DENY_WILDCARD) {
      var i :| 0 <= i < c && id == ids[i] && z[id] == NewRecord(p.missing[i], id);
      DenialCreatedFirst(z0, desired, p, ids, z, c, u, d, i);
    }
  }

  lemma DenialCreatedFirst(z0: Zone, desired: set<Key>, p: Plan, ids: seq<nat>, z: Zone, c: nat, u: nat, d: nat, i: nat)
    requires i < c <= |p.missing| <= |ids| && u <= |p.updates| && d <= |p.stale|
    requires Stopped(z0, desired, p, ids, z, c, u, d) && DENY_WILDCARD in desired && !Has(z0, DENY_WILDCARD)
    requires p.missing[i].CaaKey? && p.missing[i].tag.IssueTag?
    ensures Has(z, DENY_WILDCARD)
  {
    hide FreshIds, NoForeign, FromZone, Kept;
    assert DENY_WILDCARD in p.missing;
    var j :| 0 <= j < |p.missing| && p.missing[j] == DENY_WILDCARD;
    assert CreateRank(p.missing[i]) == 1 && CreateRank(p.missing[j]) == 0;
    assert j < i;
    NewRecordOwns(DENY_WILDCARD, ids[j], desired);
    assert Owns(z, DENY_WILDCARD, ids[j]);
  }

  lemma CaaStays(z0: Zone, desired: set<Key>, p: Plan, ids: seq<nat>, z: Zone, c: nat, u: nat, d: nat)
    requires c <= |p.missing| <= |ids| && u <= |p.updates| && d <= |p.stale|
    requires Stopped(z0, desired, p, ids, z, c, u, d) && DENY_WILDCARD in desired && HasCaa(z0)
    ensures HasCaa(z)
  {
    if d == 0 {
      var id :| id in z0 && z0[id].kind.CAA?;
      assert FirstOf(p.stale, 0) == {};
      NothingElseAppears(z0, desired, p, ids, z, c, u, d, id);
    } else {
      WantedStays(z0, desired, p, ids, z, c, u, d, DENY_WILDCARD);
      var id :| Owns(z, DENY_WILDCARD, id);
    }
  }

  // ------------------------------------------------------------------
  // What the whole publication reaches, and what recovery reaches
  // ------------------------------------------------------------------

  /** Each desired key has exactly one record, current and unproxied, and there is no
      other managed record. */
  ghost predicate Exact(z: Zone, desired: set<Key>) {
    && (forall id | id in z && Managed(z[id]) :: KeyOf(z[id]).Some? && KeyOf(z[id]).value in desired && Current(z[id]))
    && (forall k | k in desired :: Has(z, k))
    && (forall i, j, k | Owns(z, k, i) && Owns(z, k, j) :: i == j)
  }

  /** Cloudflare proxies address records only; the patch body relies on that. */
  ghost predicate CaaUnproxied(z: Zone) {
    forall id | id in z && z[id].kind.CAA? :: !z[id].proxied
  }

  /** A stopped run leaves the name plannable again, with its unmanaged records untouched. */
  lemma PrefixStaysPlannable(z0: Zone, existing: seq<Record>, desired: seq<Key>, ids: seq<nat>, n: nat)
    requires Publishing(z0, existing, desired, ids) && n <= |Calls(PlanOf(existing, desired), ids)|
    ensures NoForeign(After(z0, existing, desired, ids, n))
    ensures CaaUnproxied(z0) ==> CaaUnproxied(After(z0, existing, desired, ids, n))
    ensures forall id | id in z0 && !Managed(z0[id]) ::
      id in After(z0, existing, desired, ids, n) && After(z0, existing, desired, ids, n)[id] == z0[id]
  {
    hide PlanOf, Calls, Stopped, Lists, ServingKeys, FreshIds, After, PlanOk;
    var c, u, d := StoppedAt(z0, existing, desired, ids, n);
    var z, wanted, p := After(z0, existing, desired, ids, n), KeySet(desired), PlanOf(existing, desired);
    forall id | id in z
      ensures z[id].id == id && !Foreign(z[id]) ensures CaaUnproxied(z0) && z[id].kind.CAA? ==> !z[id].proxied
    {
      NothingElseAppears(z0, wanted, p, ids, z, c, u, d, id);
      StillUnproxied(z0, wanted, p, ids, z, c, u, d, id);
    }
    forall id | id in z0 && !Managed(z0[id]) ensures id in z && z[id] == z0[id] {
      UnmanagedStays(z0, wanted, p, ids, z, c, u, d, id);
    }
  }

  lemma StillUnproxied(z0: Zone, desired: set<Key>, p: Plan, ids: seq<nat>, z: Zone, c: nat, u: nat, d: nat, id: nat)
    requires c <= |p.missing| <= |ids| && u <= |p.updates| && d <= |p.stale|
    requires Stopped(z0, desired, p, ids, z, c, u, d) && id in z
    ensures CaaUnproxied(z0) && z[id].kind.CAA? ==> !z[id].proxied
  {
    NothingElseAppears(z0, desired, p, ids, z, c, u, d, id);
    if id in z0 {
      hide PlanOk;
    } else {
      var i :| 0 <= i < c && id == ids[i] && z[id] == NewRecord(p.missing[i], id);
      hide Stopped;
    }
  }

  lemma UnmanagedStays(z0: Zone, desired: set<Key>, p: Plan, ids: seq<nat>, z: Zone, c: nat, u: nat, d: nat, id: nat)
    requires c <= |p.missing| <= |ids| && u <= |p.updates| && d <= |p.stale|
    requires Stopped(z0, desired, p, ids, z, c, u, d) && id in z0 && !Managed(z0[id])
    ensures id in z && z[id] == z0[id]
  {
    assert id !in FirstOf(p.stale, d) by {
      assert forall i | 0 <= i < d :: p.stale[i] in p.stale;
    }
    NothingElseAppears(z0, desired, p, ids, z, c, u, d, id);
  }

  /** A CAA record the plan keeps although it is marked proxied: its patch cannot clear that. */
  ghost predicate StuckProxied(z: Zone, p: Plan, id: nat) {
    Kept(z, p, id) && z[id].kind.CAA? && z[id].proxied
  }

  /** Run to the end, a publication leaves exactly the desired keys, and exactly the desired
      records unless a kept CAA record is marked proxied. */
  lemma PublishReachesExact(z0: Zone, existing: seq<Record>, desired: seq<Key>, ids: seq<nat>)
    requires Publishing(z0, existing, desired, ids)
    ensures Exact(After(z0, existing, desired, ids, |Calls(PlanOf(existing, desired), ids)|), KeySet(desired))
      <==> forall id :: !StuckProxied(z0, PlanOf(existing, desired), id)
    ensures Keys(After(z0, existing, desired, ids, |Calls(PlanOf(existing, desired), ids)|)) == KeySet(desired)
  {
    hide PlanOf, Lists, NoForeign, ServingKeys, FreshIds, After, Stopped, KeyOf;
    var p, wanted := PlanOf(existing, desired), KeySet(desired);
    CallCount(p, ids);
    hide Calls;
    var n := |Calls(p, ids)|;
    var c, u, d := StoppedAt(z0, existing, desired, ids, n);
    var z := After(z0, existing, desired, ids, n);
    forall k | k in wanted ensures Has(z, k) {
      WantedStays(z0, wanted, p, ids, z, c, u, d, k);
    }
    forall id | id in z && Managed(z[id])
      ensures KeyOf(z[id]).Some? && KeyOf(z[id]).value in wanted && (Current(z[id]) <==> !StuckProxied(z0, p, id))
    {
      FinalRecord(z0, wanted, p, ids, z, id);
    }
    forall k ensures k in Keys(z) <==> k in wanted {
      KeysHas(z, k);
    }
    forall i, j, k | Owns(z, k, i) && Owns(z, k, j) ensures i == j {
      FinalUnique(z0, wanted, p, ids, z, i, j, k);
    }
    forall id | StuckProxied(z0, p, id) ensures id in z && Managed(z[id]) {
      KeptStays(z0, wanted, p, ids, z, c, u, d, id);
    }
  }

  lemma KeptStays(z0: Zone, desired: set<Key>, p: Plan, ids: seq<nat>, z: Zone, c: nat, u: nat, d: nat, id: nat)
    requires c <= |p.missing| <= |ids| && u <= |p.updates| && d <= |p.stale|
    requires Stopped(z0, desired, p, ids, z, c, u, d) && Kept(z0, p, id)
    ensures id in z && Managed(z[id])
  {
    assert id !in FirstOf(p.stale, d) by {
      assert forall i | 0 <= i < d :: p.stale[i] in p.stale;
    }
    NothingElseAppears(z0, desired, p, ids, z, c, u, d, id);
  }

  lemma FinalRecord(z0: Zone, desired: set<Key>, p: Plan, ids: seq<nat>, z: Zone, id: nat)
    requires |p.missing| <= |ids| && Stopped(z0, desired, p, ids, z, |p.missing|, |p.updates|, |p.stale|)
    requires id in z && Managed(z[id])
    ensures KeyOf(z[id]).Some? && KeyOf(z[id]).value in desired
    ensures Current(z[id]) <==> !StuckProxied(z0, p, id)
    ensures id in z0 ==> Kept(z0, p, id)
  {
    NothingElseAppears(z0, desired, p, ids, z, |p.missing|, |p.updates|, |p.stale|, id);
    if id in z0 {
      AllIds(p.stale);
      AllIds(p.updates);
      assert Kept(z0, p, id);
      PatchKeepsKey(z0[id]);
    } else {
      var i :| 0 <= i < |p.missing| && id == ids[i] && z[id] == NewRecord(p.missing[i], id) && p.missing[i] in desired;
      NewRecordOwns(p.missing[i], id, desired);
    }
  }

  /** A final record of `k` was kept, when the zone had one, or created, when it had none. */
  lemma FinalOrigin(z0: Zone, desired: set<Key>, p: Plan, ids: seq<nat>, z: Zone, i: nat, k: Key)
    requires |p.missing| <= |ids| && Stopped(z0, desired, p, ids, z, |p.missing|, |p.updates|, |p.stale|)
    requires Owns(z, k, i)
    ensures i in z0 <==> Has(z0, k)
    ensures i in z0 ==> Kept(z0, p, i) && KeyOf(z0[i]) == Some(k)
    ensures i !in z0 ==> exists a :: 0 <= a < |p.missing| && i == ids[a] && p.missing[a] == k
  {
    FinalRecord(z0, desired, p, ids, z, i);
    NothingElseAppears(z0, desired, p, ids, z, |p.missing|, |p.updates|, |p.stale|, i);
    if i in z0 {
      assert Owns(z0, k, i);
    } else {
      var a :| 0 <= a < |p.missing| && i == ids[a] && z[i] == NewRecord(p.missing[a], i) && p.missing[a] in desired;
      NewRecordOwns(p.missing[a], i, desired);
      assert p.missing[a] in p.missing;
    }
  }

  lemma FinalUnique(z0: Zone, desired: set<Key>, p: Plan, ids: seq<nat>, z: Zone, i: nat, j: nat, k: Key)
    requires |p.missing| <= |ids| && Stopped(z0, desired, p, ids, z, |p.missing|, |p.updates|, |p.stale|)
    requires Owns(z, k, i) && Owns(z, k, j)
    ensures i == j
  {
    FinalOrigin(z0, desired, p, ids, z, i, k);
    FinalOrigin(z0, desired, p, ids, z, j, k);
    hide Midway, KeyOf;
  }

  /** A new listing plans no call exactly when the name is already exact. */
  lemma ReplanEmptyIffExact(existing: seq<Record>, z: Zone, desired: seq<Key>)
    requires Lists(existing, z) && NoForeign(z)
    ensures PlanOf(existing, desired) == Plan([], [], []) <==> Exact(z, KeySet(desired))
  {
    hide PlanOf, Lists, KeyOf, Current;
    PlanCorrect(existing, z, desired);
    var p, wanted := PlanOf(existing, desired), KeySet(desired);
    if p == Plan([], [], []) {
      assert forall id | id in z && Managed(z[id]) :: Kept(z, p, id);
      forall k | k in wanted ensures Has(z, k) {
        assert k !in p.missing;
      }
    }
    if Exact(z, wanted) {
      ExactPlansNothing(z, wanted, p);
    }
  }

  lemma HeadIsMember<T>(s: seq<T>)
    ensures s == [] || s[0] in s
  {
  }

  /** A record planned for deletion whose key is wanted has a kept rival for that key. */
  lemma StaleHasRival(z: Zone, desired: set<Key>, p: Plan, r: Record)
    requires PlanOk(z, desired, p) && r in p.stale && KeyOf(z[r.id]).Some? && KeyOf(z[r.id]).value in desired
    ensures Owns(z, KeyOf(z[r.id]).value, r.id)
    ensures exists id :: id != r.id && Owns(z, KeyOf(z[r.id]).value, id)
  {
    hide KeyOf;
    assert r.id in Ids(p.stale);
    var k := KeyOf(z[r.id]).value;
    assert Owns(z, k, r.id);
    var id :| Kept(z, p, id) && Owns(z, k, id);
    assert id != r.id;
  }

  lemma ExactPlansNothing(z: Zone, desired: set<Key>, p: Plan)
    requires PlanOk(z, desired, p) && Exact(z, desired)
    ensures p == Plan([], [], [])
  {
    hide KeyOf;
    HeadIsMember(p.missing);
    HeadIsMember(p.updates);
    HeadIsMember(p.stale);
    if p.stale != [] {
      StaleHasRival(z, desired, p, p.stale[0]);
    }
  }

  /** Stop a publication after any number of calls, list again in any order and run the
      new plan to its end: the result is the same exact set, unless that plan keeps a CAA
      record marked proxied, which cannot be when there was none. */
  lemma RecoveryReachesExact(z0: Zone, existing: seq<Record>, desired: seq<Key>, ids: seq<nat>, n: nat,
      existing': seq<Record>, ids': seq<nat>)
    requires Publishing(z0, existing, desired, ids) && n <= |Calls(PlanOf(existing, desired), ids)|
    requires Publishing(After(z0, existing, desired, ids, n), existing', desired, ids')
    ensures var z := After(z0, existing, desired, ids, n);
      && (Exact(After(z, existing', desired, ids', |Calls(PlanOf(existing', desired), ids')|), KeySet(desired)) <==>
          forall id :: !StuckProxied(z, PlanOf(existing', desired), id))
      && (CaaUnproxied(z0) ==>
            Exact(After(z, existing', desired, ids', |Calls(PlanOf(existing', desired), ids')|), KeySet(desired)))
  {
    hide PlanOf, Calls, Lists, NoForeign, ServingKeys, FreshIds, After, Exact;
    PrefixStaysPlannable(z0, existing, desired, ids, n);
    PublishReachesExact(After(z0, existing, desired, ids, n), existing', desired, ids');
  }

  /** No number of publications clears a proxied CAA record: a finished one leaves it in
      place, and the next plan keeps it again. */
  lemma ProxiedNeverSettles(z0: Zone, existing: seq<Record>, desired: seq<Key>, ids: seq<nat>, id: nat,
      existing': seq<Record>)
    requires Publishing(z0, existing, desired, ids) && StuckProxied(z0, PlanOf(existing, desired), id)
    requires Lists(existing', After(z0, existing, desired, ids, |Calls(PlanOf(existing, desired), ids)|))
    ensures var z := After(z0, existing, desired, ids, |Calls(PlanOf(existing, desired), ids)|);
      !Exact(z, KeySet(desired)) && StuckProxied(z, PlanOf(existing', desired), id)
  {
    hide PlanOf, Lists, NoForeign, ServingKeys, FreshIds, After, Stopped, KeyOf, Exact, PlanOk;
    PublishReachesExact(z0, existing, desired, ids);
    var p, wanted := PlanOf(existing, desired), KeySet(desired);
    CallCount(p, ids);
    PrefixStaysPlannable(z0, existing, desired, ids, |Calls(p, ids)|);
    var c, u, d := StoppedAt(z0, existing, desired, ids, |Calls(p, ids)|);
    var z := After(z0, existing, desired, ids, |Calls(p, ids)|);
    hide Calls;
    KeptStays(z0, wanted, p, ids, z, c, u, d, id);
    StaysProxied(z0, wanted, p, ids, z, c, u, d, id);
    FinalRecord(z0, wanted, p, ids, z, id);
    var k := KeyOf(z[id]).value;
    assert Owns(z, k, id) && Has(z, k);
    PlanCorrect(existing', z, desired);
    var other := KeptFor(z, wanted, PlanOf(existing', desired), k);
    FinalUnique(z0, wanted, p, ids, z, other, id, k);
  }

  lemma KeptFor(z: Zone, desired: set<Key>, p: Plan, k: Key) returns (id: nat)
    requires PlanOk(z, desired, p) && k in desired && Has(z, k)
    ensures Kept(z, p, id) && Owns(z, k, id)
  {
    hide KeyOf, Current;
    id :| Kept(z, p, id) && Owns(z, k, id);
  }

  lemma StaysProxied(z0: Zone, desired: set<Key>, p: Plan, ids: seq<nat>, z: Zone, c: nat, u: nat, d: nat, id: nat)
    requires c <= |p.missing| <= |ids| && u <= |p.updates| && d <= |p.stale|
    requires Stopped(z0, desired, p, ids, z, c, u, d) && id in z && id in z0 && z0[id].kind.CAA? && z0[id].proxied
    ensures z[id].kind.CAA? && z[id].proxied
  {
    hide PlanOk, KeyOf;
  }

  /** A name whose only record is the wanted denial, marked proxied. */
  const PROXIED_DENIAL: Record :=
    Record(1, CAA, "", TTL_SECONDS, true, ServingComment, Some(CaaData(0, IssueWildTag, ";")))

  /** Its publication sends one patch, which changes nothing, and is not exact. */
  lemma ProxiedDenialStays()
    ensures var z := map[1 := PROXIED_DENIAL];
      && Publishing(z, [PROXIED_DENIAL], [DENY_WILDCARD], [])
      && PlanOf([PROXIED_DENIAL], [DENY_WILDCARD]) == Plan([], [PROXIED_DENIAL], [])
      && After(z, [PROXIED_DENIAL], [DENY_WILDCARD], [], 1) == z
      && !Exact(z, {DENY_WILDCARD})
  {
    ProxiedPlan();
    hide PlanOf, KeyOf;
    var z, r := map[1 := PROXIED_DENIAL], PROXIED_DENIAL;
    var calls := Calls(Plan([], [r], []), []);
    assert calls[..1] == [Update(1)];
    assert [Update(1)][..0] == [];
    assert Apply(z, Update(1)) == z;
    assert ApplyAll(z, [Update(1)]) == z;
    assert Managed(z[1]) && !Current(z[1]);
  }

  lemma ProxiedPlan()
    ensures KeySet([DENY_WILDCARD]) == {DENY_WILDCARD}
    ensures PlanOf([PROXIED_DENIAL], [DENY_WILDCARD]) == Plan([], [PROXIED_DENIAL], [])
    ensures !Foreign(PROXIED_DENIAL)
  {
    var r, d := PROXIED_DENIAL, [DENY_WILDCARD];
    assert KeySet(d) == {DENY_WILDCARD};
    assert [r][..0] == [] && d[..0] == [];
    assert ScanAll([r], KeySet(d)) == Scan({DENY_WILDCARD}, [r], []);
    assert Missing(d, {DENY_WILDCARD}) == [];
  }
}
