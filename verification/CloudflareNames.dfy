/** The provider's operations on one name, call by call: publish, retire, replace the
    challenge set and retire it. Every operation takes a budget, the number of calls the
    provider answers before it becomes unavailable, so its contract holds at every
    point where a run can stop.
  */
module CloudflareNames {
  import opened Schema
  import opened Cloudflare
  import opened CloudflareRuns
  import Reconcile

  // ------------------------------------------------------------------
  // What a serving name should hold
  // ------------------------------------------------------------------

  datatype Address = V4(text: string, unspecified: bool) | V6(text: string, unspecified: bool)

  predicate ValidRecords(addresses: seq<Address>, account: string) {
    1 <= |addresses| <= 4 && (forall a | a in addresses :: !a.unspecified) && KnownAccount(account)
  }

  function AddressKey(a: Address): Key {
    HostKey(if a.V4? then A else AAAA, a.text)
  }

  function IssueValue(account: string): string {
    "letsencrypt.org; validationmethods=dns-01; accounturi=" + account
  }

  /** An accepted account keeps the CAA value within the 255 octets of its DNS field. */
  lemma AccountFitsCaa(account: string)
    requires KnownAccount(account)
    ensures |IssueValue(account)| <= 255
  {
    assert |"letsencrypt.org; validationmethods=dns-01; accounturi="| == 54;
  }

  function AddressKeys(addresses: seq<Address>): seq<Key> {
    if addresses == [] then []
    else
      var rest := AddressKeys(addresses[..|addresses| - 1]);
      var k := AddressKey(addresses[|addresses| - 1]);
      if k in rest then rest else rest + [k]
  }

  function ServingDesired(addresses: seq<Address>, account: string): seq<Key> {
    AddressKeys(addresses) + [CaaKey(IssueTag, IssueValue(account)), DENY_WILDCARD]
  }

  lemma {:induction false} AddressKeysExact(addresses: seq<Address>)
    ensures forall k :: k in AddressKeys(addresses) <==> exists a :: a in addresses && AddressKey(a) == k
  {
    if addresses != [] {
      var front, last := addresses[..|addresses| - 1], addresses[|addresses| - 1];
      AddressKeysExact(front);
      assert addresses == front + [last];
      forall k ensures k in AddressKeys(addresses) <==> exists a :: a in addresses && AddressKey(a) == k {
        if a :| a in addresses && AddressKey(a) == k {
          assert a in front || a == last;
        }
      }
    }
  }

  /** The desired set: one key per distinct address, the account's authorization and
      the wildcard denial, and nothing else. */
  lemma ServingDesiredExact(addresses: seq<Address>, account: string)
    ensures KeySet(ServingDesired(addresses, account)) ==
      (set a | a in addresses :: AddressKey(a)) + {CaaKey(IssueTag, IssueValue(account)), DENY_WILDCARD}
    ensures ServingKeys(KeySet(ServingDesired(addresses, account)))
  {
    AddressKeysExact(addresses);
    var d := ServingDesired(addresses, account);
    forall k
      ensures k in d <==>
        (exists a :: a in addresses && AddressKey(a) == k) || k == CaaKey(IssueTag, IssueValue(account))
          || k == DENY_WILDCARD
    {
    }
    hide AddressKeys, IssueValue;
  }

  /** What a publication guarantees wherever it stops. */
  ghost predicate Published(z0: Zone, z: Zone, desired: set<Key>, finished: bool) {
    && Reconcile.PartialWrite(Keys(z0), desired, Keys(z))
    && NoForeign(z)
    && (forall id | id in z0 && !Managed(z0[id]) :: id in z && z[id] == z0[id])
    && (CaaSafe(z0) ==> CaaSafe(z) && (HasCaa(z0) ==> HasCaa(z)))
    && (finished ==> Keys(z) == desired)
    && (CaaUnproxied(z0) ==> CaaUnproxied(z) && (finished ==> Exact(z, desired)))
  }

  lemma PublishedAt(z0: Zone, existing: seq<Record>, desired: seq<Key>, ids: seq<nat>, n: nat)
    requires Publishing(z0, existing, desired, ids) && n <= |Calls(PlanOf(existing, desired), ids)|
    requires DENY_WILDCARD in desired
    ensures Published(z0, After(z0, existing, desired, ids, n), KeySet(desired),
      n == |Calls(PlanOf(existing, desired), ids)|)
  {
    hide PlanOf, Calls, Lists, NoForeign, ServingKeys, FreshIds, After, Exact, CaaSafe, HasCaa;
    PublishPrefixIsPartialWrite(z0, existing, desired, ids, n);
    PrefixStaysPlannable(z0, existing, desired, ids, n);
    PublishReachesExact(z0, existing, desired, ids);
    if CaaSafe(z0) {
      PublishKeepsCaaSafe(z0, existing, desired, ids, n);
    }
  }

  // ------------------------------------------------------------------
  // Retiring a serving name
  // ------------------------------------------------------------------

  function ManagedOf(existing: seq<Record>): seq<Record> {
    if existing == [] then []
    else
      var rest := ManagedOf(existing[..|existing| - 1]);
      if Managed(existing[|existing| - 1]) then rest + [existing[|existing| - 1]] else rest
  }

  function RetireOrder(existing: seq<Record>): seq<Record> {
    SortByRank(ManagedOf(existing), DeleteRank)
  }

  lemma {:induction false} ManagedOfExact(existing: seq<Record>)
    ensures forall r :: r in ManagedOf(existing) <==> r in existing && Managed(r)
  {
    if existing != [] {
      ManagedOfExact(existing[..|existing| - 1]);
      assert existing == existing[..|existing| - 1] + [existing[|existing| - 1]];
    }
  }

  lemma RetireOrderExact(existing: seq<Record>)
    ensures forall r :: r in RetireOrder(existing) <==> r in existing && Managed(r)
    ensures forall i, j | 0 <= i < j < |RetireOrder(existing)| ::
      DeleteRank(RetireOrder(existing)[i]) <= DeleteRank(RetireOrder(existing)[j])
  {
    ManagedOfExact(existing);
    SortedByRank(ManagedOf(existing), DeleteRank);
    hide SortByRank, ManagedOf, DeleteRank, Managed;
  }

  /** Deleting authorizations first keeps every prefix of a retirement CAA-safe. */
  lemma RetireKeepsCaaSafe(z: Zone, existing: seq<Record>, n: nat)
    requires Lists(existing, z) && CaaSafe(z) && n <= |RetireOrder(existing)|
    ensures CaaSafe(RetiredTo(z, existing, n))
  {
    RetireOrderExact(existing);
    var rs := RetireOrder(existing);
    hide RetireOrder, KeyOf;
    var z' := z - FirstOf(rs, n);
    if id :| Authorizes(z', id) {
      assert Authorizes(z, id);
      var o :| Owns(z, DENY_WILDCARD, o);
      var j :| 0 <= j < |rs| && rs[j] == z[id];
      assert n <= j;
      DenialRank(z[o]);
      assert forall i | 0 <= i < n :: rs[i].id != o;
      assert Owns(z', DENY_WILDCARD, o);
    }
  }

  lemma DenialRank(r: Record)
    requires KeyOf(r) == Some(DENY_WILDCARD)
    ensures DeleteRank(r) == 2
  {
  }

  /** A retirement run to its end leaves no managed record and nothing else changed;
      a stopped one has only removed records. */
  lemma RetireRemovesManaged(z: Zone, existing: seq<Record>, n: nat)
    requires Lists(existing, z) && n <= |RetireOrder(existing)|
    ensures var z' := RetiredTo(z, existing, n);
      && (forall id | id in z && !Managed(z[id]) :: id in z')
      && (n == |RetireOrder(existing)| ==> forall id | id in z' :: !Managed(z'[id]))
      && Reconcile.PartialWrite(Keys(z), {}, Keys(z'))
  {
    RetireOrderExact(existing);
    var rs := RetireOrder(existing);
    hide RetireOrder, KeyOf;
    var z' := z - FirstOf(rs, n);
    forall id | id in z && !Managed(z[id]) ensures id in z' {
      assert forall i | 0 <= i < n :: rs[i] in rs;
    }
    forall id | id in z && Managed(z[id]) ensures id in FirstOf(rs, |rs|) {
      var i :| 0 <= i < |rs| && rs[i] == z[id];
      assert rs[i].id == id;
    }
    forall k | k in Keys(z') ensures k in Keys(z) {
      var id :| id in z' && Managed(z'[id]) && KeyOf(z'[id]).Some? && KeyOf(z'[id]).value == k;
      assert id in z && KeyOf(z[id]).value == k;
    }
  }

  // ------------------------------------------------------------------
  // The challenge set
  // ------------------------------------------------------------------

  /** Cloudflare may return TXT content with its presentation quotes. */
  function TxtContent(content: string): string {
    if |content| >= 2 && content[0] == '"' && content[|content| - 1] == '"' then content[1..|content| - 1] else content
  }

  function Quoted(value: string): string {
    "\"" + value + "\""
  }

  lemma QuotedReads(value: string)
    ensures TxtContent(Quoted(value)) == value
  {
    var q := Quoted(value);
    assert q[1..|q| - 1] == value;
  }

  function ChallengeRecord(value: string, id: nat): Record {
    Record(id, TXT, Quoted(value), 60, false, ChallengeComment(""), None)
  }

  predicate ChallengeOwned(r: Record) {
    r.kind.TXT? && r.comment.ChallengeComment?
  }

  predicate ValidChallengeValues(values: seq<string>) {
    && |values| <= MAX_LIVE_CHALLENGE_VALUES
    && (forall i, j | 0 <= i < j < |values| :: values[i] != values[j])
    && (forall i | 0 <= i < |values| :: ValidChallengeValue(values[i]))
  }

  function ValueSet(values: seq<string>): set<string> {
    set v | v in values
  }

  /** A list is accepted exactly when it is a set of at most two valid values. */
  lemma AcceptedValues(values: seq<string>)
    ensures ValidChallengeValues(values) <==>
      |ValueSet(values)| == |values| <= 2 && forall v | v in ValueSet(values) :: ValidChallengeValue(v)
  {
    hide ValidChallengeValue;
    DistinctSize(values);
    forall i | 0 <= i < |values| ensures values[i] in ValueSet(values) {
    }
  }

  lemma {:induction false} DistinctSize(values: seq<string>)
    ensures |ValueSet(values)| <= |values|
    ensures |ValueSet(values)| == |values| <==> forall i, j | 0 <= i < j < |values| :: values[i] != values[j]
  {
    if values != [] {
      var n := |values| - 1;
      var init := values[..n];
      DistinctSize(init);
      assert ValueSet(values) == ValueSet(init) + {values[n]};
      if values[n] in init {
        var i :| 0 <= i < n && init[i] == values[n];
        assert values[i] == values[n];
        assert ValueSet(values) == ValueSet(init);
      } else {
        assert forall i | 0 <= i < n :: values[i] == init[i] && values[i] != values[n];
      }
    }
  }

  /** Every record was there before or is one that a replacement creates. */
  ghost predicate OnlyAdds(z0: Zone, z: Zone) {
    forall id | id in z ::
      (id in z0 && z[id] == z0[id]) || (ChallengeOwned(z[id]) && z[id].ttl == 60 && !z[id].proxied)
  }

  ghost function TxtValues(z: Zone): set<string> {
    set id | id in z && z[id].kind.TXT? :: TxtContent(z[id].content)
  }

  /** Every record is the relay's own and no two carry the same value. */
  ghost predicate TxtTidy(z: Zone) {
    && (forall id | id in z :: ChallengeOwned(z[id]))
    && (forall a, b | a in z && b in z && TxtContent(z[a].content) == TxtContent(z[b].content) :: a == b)
  }

  /** The challenge zone once the records with ids in `done` were kept or deleted. */
  ghost predicate Sweeping(z0: Zone, wanted: set<string>, z: Zone, kept: set<string>, done: set<nat>) {
    && (forall id | id in z :: id in z0 && z[id] == z0[id])
    && (forall id | id in z0 && id !in done :: id in z)
    && (forall id | id in z && id in done :: Txt(z0, id) in kept)
    && (forall a, b | a in z && a in done && b in z && b in done && Txt(z0, a) == Txt(z0, b) :: a == b)
    && kept <= wanted
    && (forall v | v in kept :: exists id :: id in z && id in done && Txt(z0, id) == v)
    && (forall id | id in z0 && id in done && Txt(z0, id) in wanted :: Txt(z0, id) in kept)
  }

  function Txt(z: Zone, id: nat): string {
    if id in z then TxtContent(z[id].content) else ""
  }

  lemma SweepKeep(z0: Zone, wanted: set<string>, z: Zone, kept: set<string>, done: set<nat>, id: nat)
    requires Sweeping(z0, wanted, z, kept, done) && id in z0 && id !in done
    requires Txt(z0, id) in wanted && Txt(z0, id) !in kept
    ensures Sweeping(z0, wanted, z, kept + {Txt(z0, id)}, done + {id})
  {
    hide Txt;
    forall v | v in kept + {Txt(z0, id)} ensures exists o :: o in z && o in done + {id} && Txt(z0, o) == v {
      if v in kept {
        var o :| o in z && o in done && Txt(z0, o) == v;
        assert o in done + {id};
      } else {
        assert id in z;
      }
    }
  }

  lemma SweepDelete(z0: Zone, wanted: set<string>, z: Zone, kept: set<string>, done: set<nat>, id: nat)
    requires Sweeping(z0, wanted, z, kept, done) && id in z0 && id !in done
    requires !(Txt(z0, id) in wanted && Txt(z0, id) !in kept)
    ensures Sweeping(z0, wanted, z - {id}, kept, done + {id})
  {
    hide Txt;
    forall v | v in kept ensures exists o :: o in z - {id} && o in done + {id} && Txt(z0, o) == v {
      var o :| o in z && o in done && Txt(z0, o) == v;
      assert o in z - {id} && o in done + {id};
    }
  }

  /** Deleting what is unwanted or duplicated never drops a wanted value. */
  lemma SweepIsPartialWrite(z0: Zone, wanted: set<string>, z: Zone, kept: set<string>, done: set<nat>)
    requires Sweeping(z0, wanted, z, kept, done) && forall id | id in z0 :: ChallengeOwned(z0[id])
    ensures Reconcile.PartialWrite(TxtValues(z0), wanted, TxtValues(z))
  {
    hide TxtContent;
    forall v | v in TxtValues(z0) * wanted ensures v in TxtValues(z) {
      var id :| id in z0 && z0[id].kind.TXT? && TxtContent(z0[id].content) == v;
      assert Txt(z0, id) == v;
      if id in done {
        var o :| o in z && o in done && Txt(z0, o) == v;
        assert ChallengeOwned(z0[o]);
      }
    }
  }

  lemma SweptIsTidy(z0: Zone, wanted: set<string>, z: Zone, kept: set<string>)
    requires Sweeping(z0, wanted, z, kept, z0.Keys)
    requires forall id | id in z0 :: ChallengeOwned(z0[id])
    ensures TxtTidy(z) && TxtValues(z) == kept == TxtValues(z0) * wanted
  {
    hide TxtContent;
    SweepIsPartialWrite(z0, wanted, z, kept, z0.Keys);
    forall id | id in z ensures Txt(z0, id) == TxtContent(z[id].content) && TxtContent(z[id].content) in kept {
    }
    forall v | v in kept ensures v in TxtValues(z) {
      var o :| o in z && o in z0.Keys && Txt(z0, o) == v;
      assert ChallengeOwned(z0[o]);
    }
  }

  lemma CreateTxt(z: Zone, v: string, id: nat)
    requires TxtTidy(z) && v !in TxtValues(z) && id !in z
    ensures TxtTidy(z[id := ChallengeRecord(v, id)])
    ensures TxtValues(z[id := ChallengeRecord(v, id)]) == TxtValues(z) + {v}
  {
    QuotedReads(v);
    var z' := z[id := ChallengeRecord(v, id)];
    hide TxtContent, Quoted;
    forall w | w in TxtValues(z) ensures w in TxtValues(z') {
      var o :| o in z && TxtContent(z[o].content) == w;
      assert o in z' && z'[o] == z[o];
    }
    assert TxtContent(z'[id].content) == v;
    forall o | o in z && o != id ensures TxtContent(z[o].content) != v {
      assert TxtContent(z[o].content) in TxtValues(z);
    }
  }

  // ------------------------------------------------------------------
  // The in-memory provider: the simple specification
  // ------------------------------------------------------------------

  type Challenges = map<string, seq<string>>

  function MemoryReplaced(challenges: Challenges, host: string, values: seq<string>): Challenges {
    if values == [] then challenges - {host} else challenges[host := values]
  }

  function MemoryValues(challenges: Challenges, host: string): seq<string> {
    if host in challenges then challenges[host] else []
  }

  /** The name holds the in-memory provider's list: each value in exactly one record. */
  ghost predicate Represents(z: Zone, list: seq<string>) {
    TxtTidy(z) && TxtValues(z) == ValueSet(list)
  }

  class MemoryProvider {
    var names: map<string, (seq<Address>, string)>
    var challenges: Challenges

    constructor ()
      ensures names == map[] && challenges == map[]
    {
      names, challenges := map[], map[];
    }

    method PublishName(host: string, addresses: seq<Address>, account: string) returns (r: Outcome<()>)
      modifies this
      ensures r == (if !ValidHostname(host) then Failed(InvalidHostname)
        else if !ValidRecords(addresses, account) then Failed(InvalidChange) else Done(()))
      ensures names == if r.Done? then old(names)[host := (addresses, account)] else old(names)
      ensures challenges == old(challenges)
    {
      if !ValidHostname(host) {
        return Failed(InvalidHostname);
      }
      if !ValidRecords(addresses, account) {
        return Failed(InvalidChange);
      }
      names := names[host := (addresses, account)];
      return Done(());
    }

    method SetChallenge(host: string, values: seq<string>) returns (r: Outcome<()>)
      modifies this
      ensures r == (if !ValidHostname(host) then Failed(InvalidHostname)
        else if !ValidChallengeValues(values) then Failed(InvalidChange) else Done(()))
      ensures MemoryValues(challenges, host) == if r.Done? then values else old(MemoryValues(challenges, host))
      ensures forall other | other != host :: MemoryValues(challenges, other) == old(MemoryValues(challenges, other))
      ensures challenges == if r.Done? then MemoryReplaced(old(challenges), host, values) else old(challenges)
      ensures names == old(names)
    {
      if !ValidHostname(host) {
        return Failed(InvalidHostname);
      }
      if !ValidChallengeValues(values) {
        return Failed(InvalidChange);
      }
      if values == [] {
        challenges := challenges - {host};
      } else {
        challenges := challenges[host := values];
      }
      return Done(());
    }

    method RetireName(host: string) returns (r: Outcome<()>)
      modifies this
      ensures r == (if ValidHostname(host) then Done(()) else Failed(InvalidHostname)) && challenges == old(challenges)
      ensures r.Done? ==> host !in names
      ensures forall other | other != host || r.Failed? ::
        (other in names <==> other in old(names)) && (other in names ==> names[other] == old(names)[other])
    {
      if !ValidHostname(host) {
        return Failed(InvalidHostname);
      }
      names := names - {host};
      return Done(());
    }

    method RetireChallenge(host: string) returns (r: Outcome<()>)
      modifies this
      ensures r == (if ValidHostname(host) then Done(()) else Failed(InvalidHostname)) && names == old(names)
      ensures challenges == if r.Done? then MemoryReplaced(old(challenges), host, []) else old(challenges)
    {
      if !ValidHostname(host) {
        return Failed(InvalidHostname);
      }
      challenges := challenges - {host};
      return Done(());
    }
  }

  // ------------------------------------------------------------------
  // The Cloudflare provider
  // ------------------------------------------------------------------

  predicate Listable(z: Zone) {
    |z| <= 1000
  }

  /** The records Cloudflare holds at one name; `nextId` stands for its choice of fresh ids. */
  class NameZone {
    var zone: Zone
    var nextId: nat

    ghost predicate Valid()
      reads this
    {
      IdsBelow(zone, nextId)
    }

    constructor ()
      ensures Valid() && zone == map[]
    {
      zone, nextId := map[], 0;
    }

    /** One page of at most 1000 records; a name that holds more is not listed at all. */
    method ListRecords() returns (r: Outcome<seq<Record>>)
      requires Valid()
      ensures r.Failed? <==> !Listable(zone)
      ensures r.Failed? ==> r.error == DnsError.Unavailable
      ensures r.Done? ==> Lists(r.value, zone)
    {
      if |zone| > 1000 {
        return Failed(DnsError.Unavailable);
      }
      var existing: seq<Record> := [];
      var todo := zone.Keys;
      while todo != {}
        invariant todo <= zone.Keys
        invariant forall r | r in existing :: r.id in zone && zone[r.id] == r && r.id !in todo
        invariant forall id | id in zone && id !in todo :: zone[id] in existing
        invariant forall i, j | 0 <= i < j < |existing| :: existing[i].id != existing[j].id
        decreases |todo|
      {
        var id :| id in todo;
        assert forall i | 0 <= i < |existing| :: existing[i] in existing;
        existing, todo := existing + [zone[id]], todo - {id};
      }
      return Done(existing);
    }

    /** `publish_name`: the zone stands after the first `budget` calls of the plan, and
        the operation succeeds exactly when that is all of them. */
    method PublishName(addresses: seq<Address>, account: string, budget: nat)
      returns (r: Outcome<()>, ghost existing: seq<Record>, ghost ids: seq<nat>)
      requires Valid()
      modifies this
      ensures Valid()
      ensures !ValidRecords(addresses, account) ==> r == Failed(InvalidChange) && zone == old(zone)
      ensures ValidRecords(addresses, account) && !Listable(old(zone)) ==>
        r == Failed(DnsError.Unavailable) && zone == old(zone)
      ensures ValidRecords(addresses, account) && Listable(old(zone)) && !NoForeign(old(zone)) ==>
        r == Failed(DnsError.Conflict) && zone == old(zone)
      ensures ValidRecords(addresses, account) && Listable(old(zone)) && NoForeign(old(zone)) ==>
        && var desired := ServingDesired(addresses, account);
        && Publishing(old(zone), existing, desired, ids)
        && var calls := Calls(PlanOf(existing, desired), ids);
        && zone == After(old(zone), existing, desired, ids, if budget < |calls| then budget else |calls|)
        && r == (if budget < |calls| then Failed(DnsError.Unavailable) else Done(()))
        && Published(old(zone), zone, KeySet(desired), r.Done?)
        && (budget >= |old(zone)| + |desired| ==> r.Done?)
    {
      existing, ids := [], [];
      if !ValidRecords(addresses, account) {
        return Failed(InvalidChange), [], [];
      }
      var desired := ServingDesired(addresses, account);
      ServingDesiredExact(addresses, account);
      hide ServingDesired, Published, Listable, PlanOf, ValidRecords, KeyOf, Foreign, Apply, ApplyAll, FreshIds, Lists,
        NoForeign, ServingKeys;
      var list := ListRecords();
      if list.Failed? {
        return Failed(list.error), existing, ids;
      }
      var listed := list.value;
      existing := listed;
      var planned := PlanServing(listed, desired);
      ForeignListed(listed, zone);
      if planned.Failed? {
        return Failed(planned.error), existing, ids;
      }
      var plan := planned.value;
      CallBound(zone, listed, desired, NewIds(nextId, |plan.missing|));
      ids := NewIds(nextId, |plan.missing|);
      NewIdsFresh(zone, nextId, |plan.missing|);
      ghost var z0 := zone;
      r := Send(plan, ids, budget);
      PublishedAt(z0, existing, desired, ids, if r.Done? then |Calls(plan, ids)| else budget);
    }

    /** Sends a plan's creates, updates and deletes in order, up to `budget` calls. */
    method Send(plan: Plan, ghost ids: seq<nat>, budget: nat) returns (r: Outcome<()>)
      requires Valid() && ids == NewIds(nextId, |plan.missing|) && |ids| == |plan.missing|
      modifies this
      ensures Valid()
      ensures var n := |Calls(plan, ids)|;
        && zone == Sent(old(zone), plan, ids, if budget < n then budget else n)
        && r == if budget < n then Failed(DnsError.Unavailable) else Done(())
    {
      hide Sent, Apply, NewIds, IdsBelow, Calls, ApplyAll;
      ghost var z0 := zone;
      CallCount(plan, ids);
      SentNone(z0, plan, ids);
      var n := 0;
      for i := 0 to |plan.missing|
        invariant n == i <= budget && nextId == old(nextId) + i && Valid()
        invariant zone == Sent(z0, plan, ids, n)
      {
        if n == budget {
          return Failed(DnsError.Unavailable);
        }
        SentNext(z0, plan, ids, n);
        NewIdAt(old(nextId), |plan.missing|, i);
        ApplyBelow(zone, Create(plan.missing[i], nextId), nextId);
        zone, nextId, n := Apply(zone, Create(plan.missing[i], nextId)), nextId + 1, n + 1;
      }
      for i := 0 to |plan.updates|
        invariant n == |plan.missing| + i <= budget && Valid()
        invariant zone == Sent(z0, plan, ids, n)
      {
        if n == budget {
          return Failed(DnsError.Unavailable);
        }
        SentNext(z0, plan, ids, n);
        ApplyBelow(zone, Update(plan.updates[i].id), nextId);
        zone, n := Apply(zone, Update(plan.updates[i].id)), n + 1;
      }
      for i := 0 to |plan.stale|
        invariant n == |plan.missing| + |plan.updates| + i <= budget && Valid()
        invariant zone == Sent(z0, plan, ids, n)
      {
        if n == budget {
          return Failed(DnsError.Unavailable);
        }
        SentNext(z0, plan, ids, n);
        ApplyBelow(zone, Delete(plan.stale[i].id), nextId);
        zone, n := Apply(zone, Delete(plan.stale[i].id)), n + 1;
      }
      return Done(());
    }

    /** `retire_name`: deletes the managed records, authorizations first. */
    method RetireName(budget: nat) returns (r: Outcome<()>)
      requires Valid()
      modifies this
      ensures Valid()
      ensures !Listable(old(zone)) ==> r == Failed(DnsError.Unavailable) && zone == old(zone)
      ensures r == Failed(DnsError.Conflict) <==>
        Listable(old(zone)) && exists id :: id in old(zone) && Managed(old(zone)[id]) && Foreign(old(zone)[id])
      ensures r == Failed(DnsError.Conflict) ==> zone == old(zone)
      ensures Retiring(old(zone), zone)
      ensures r.Done? ==> forall id | id in zone :: !Managed(zone[id])
      ensures r.Done? || r.error in {DnsError.Conflict, DnsError.Unavailable}
      ensures Listable(old(zone)) && budget >= |old(zone)| ==> r != Failed(DnsError.Unavailable)
    {
      hide Listable, CaaSafe, RetireOrder, ManagedOf, Managed, Retiring, IdsBelow, Lists, RetiredTo,
        Foreign, KeyOf;
      ghost var z0 := zone;
      RetiringRefl(z0);
      var list := ListRecords();
      if list.Failed? {
        return Failed(list.error);
      }
      var existing := list.value;
      AnyListed(existing, zone, ForeignServing);
      if exists i :: 0 <= i < |existing| && ForeignServing(existing[i]) {
        return Failed(DnsError.Conflict);
      }
      var records := RetireOrder(existing);
      RetireOrderSize(zone, existing);
      RetiredToNone(z0, existing);
      for n := 0 to |records|
        invariant n <= budget && zone == RetiredTo(z0, existing, n) && Valid()
      {
        if n == budget {
          RetireSafeAt(z0, existing, n);
          return Failed(DnsError.Unavailable);
        }
        RetiredToNext(z0, existing, n);
        DropBelow(zone, records[n].id, nextId);
        zone := zone - {records[n].id};
      }
      RetireSafeAt(z0, existing, |records|);
      return Done(());
    }

    /** `set_challenge`: replaces the TXT set by exactly `values`, as the in-memory
        provider does in one step; no wanted value is missing on the way. */
    method SetChallenge(values: seq<string>, budget: nat) returns (r: Outcome<()>)
      requires Valid()
      modifies this
      ensures Valid()
      ensures r == Failed(InvalidChange) <==> !ValidChallengeValues(values)
      ensures ValidChallengeValues(values) && !Listable(old(zone)) ==>
        r == Failed(DnsError.Unavailable) && zone == old(zone)
      ensures r == Failed(DnsError.Conflict) <==>
        ValidChallengeValues(values) && Listable(old(zone)) && exists id :: id in old(zone) && Unowned(old(zone)[id])
      ensures r == Failed(InvalidChange) || r == Failed(DnsError.Conflict) ==> zone == old(zone)
      ensures Reconcile.PartialWrite(TxtValues(old(zone)), ValueSet(values), TxtValues(zone))
      ensures OnlyAdds(old(zone), zone)
      ensures r.Done? ==> TxtTidy(zone) && TxtValues(zone) == ValueSet(values)
      ensures r.Done? ==>
        forall memory: Challenges, host: string ::
          Represents(zone, MemoryValues(MemoryReplaced(memory, host, values), host))
      ensures r.Done? || r.error in {InvalidChange, DnsError.Conflict, DnsError.Unavailable}
      ensures Listable(old(zone)) && budget >= |old(zone)| + |values| ==> r != Failed(DnsError.Unavailable)
    {
      hide Listable, TxtValues, TxtTidy, TxtContent, IdsBelow, ChallengeOwned;
      if !ValidChallengeValues(values) {
        return Failed(InvalidChange);
      }
      ghost var z0 := zone;
      var list := ListRecords();
      if list.Failed? {
        return Failed(list.error);
      }
      var records := list.value;
      AnyListed(records, zone, Unowned);
      RecordCount(records, zone);
      if exists i :: 0 <= i < |records| && Unowned(records[i]) {
        return Failed(DnsError.Conflict);
      }
      var n, kept := Sweep(records, ValueSet(values), budget);
      if n > budget {
        return Failed(DnsError.Unavailable);
      }
      r := Fill(values, kept, n, budget);
    }

    /** The deleting loop: keeps one record per wanted value. `n` counts the calls, and
        exceeds the budget when the loop was cut short. */
    method Sweep(records: seq<Record>, wanted: set<string>, budget: nat) returns (n: nat, kept: set<string>)
      requires Valid() && Lists(records, zone) && forall id | id in zone :: ChallengeOwned(zone[id])
      modifies this
      ensures Valid() && n <= |records| && nextId == old(nextId)
      ensures forall id | id in zone :: id in old(zone) && zone[id] == old(zone)[id]
      ensures Reconcile.PartialWrite(TxtValues(old(zone)), wanted, TxtValues(zone))
      ensures n <= budget ==> TxtTidy(zone) && TxtValues(zone) == kept == TxtValues(old(zone)) * wanted
    {
      hide TxtValues, TxtTidy, TxtContent, Sweeping, IdsBelow, ChallengeOwned, Lists;
      kept, n := {}, 0;
      ghost var z0 := zone;
      SweepStart(z0, wanted);
      assert FirstOf(records, 0) == {};
      for i := 0 to |records|
        invariant n <= i && n <= budget && Valid() && nextId == old(nextId)
        invariant forall id | id in zone :: id in z0 && zone[id] == z0[id]
        invariant Sweeping(z0, wanted, zone, kept, FirstOf(records, i))
      {
        ListedIds(records, z0, i);
        var id, value := records[i].id, TxtContent(records[i].content);
        if value in wanted && value !in kept {
          SweepKeep(z0, wanted, zone, kept, FirstOf(records, i), id);
          kept := kept + {value};
        } else {
          if n == budget {
            SweepIsPartialWrite(z0, wanted, zone, kept, FirstOf(records, i));
            n := n + 1;
            return;
          }
          SweepDelete(z0, wanted, zone, kept, FirstOf(records, i), id);
          DropBelow(zone, id, nextId);
          zone, n := zone - {id}, n + 1;
        }
      }
      ListedIds(records, z0, |records|);
      SweptIsTidy(z0, wanted, zone, kept);
      SweepIsPartialWrite(z0, wanted, zone, kept, z0.Keys);
    }

    /** The creating loop, from a tidy zone that holds exactly the kept values. */
    method Fill(values: seq<string>, kept: set<string>, used: nat, budget: nat) returns (r: Outcome<()>)
      requires Valid() && TxtTidy(zone) && TxtValues(zone) == kept && used <= budget && ValidChallengeValues(values)
      modifies this
      ensures Valid() && TxtTidy(zone) && kept <= TxtValues(zone) <= kept + ValueSet(values)
      ensures OnlyAdds(old(zone), zone)
      ensures r == Done(()) || r == Failed(DnsError.Unavailable)
      ensures r.Done? ==> TxtValues(zone) == kept + ValueSet(values)
      ensures budget >= used + |values| ==> r.Done?
    {
      hide TxtValues, TxtTidy, TxtContent, IdsBelow, ChallengeRecord, ValidChallengeValue, OnlyAdds;
      OnlyAddsRefl(zone);
      var n := used;
      for m := 0 to |values|
        invariant n <= used + m && n <= budget && Valid()
        invariant TxtTidy(zone) && TxtValues(zone) == kept + ValueSet(values[..m]) && OnlyAdds(old(zone), zone)
      {
        assert values[..m + 1] == values[..m] + [values[m]];
        if values[m] !in kept {
          if n == budget {
            return Failed(DnsError.Unavailable);
          }
          assert values[m] !in values[..m];
          AddBelow(zone, values[m], nextId);
          CreateTxt(zone, values[m], nextId);
          OnlyAddsNext(old(zone), zone, values[m], nextId);
          zone, nextId, n := zone[nextId := ChallengeRecord(values[m], nextId)], nextId + 1, n + 1;
        }
      }
      assert values[..|values|] == values;
      return Done(());
    }

    /** `retire_challenge`: deletes the relay's TXT records. */
    method RetireChallenge(budget: nat) returns (r: Outcome<()>)
      requires Valid()
      modifies this
      ensures Valid()
      ensures !Listable(old(zone)) ==> r == Failed(DnsError.Unavailable) && zone == old(zone)
      ensures r == Failed(DnsError.Conflict) <==>
        Listable(old(zone)) && exists id :: id in old(zone) && old(zone)[id].kind.TXT? && !ChallengeOwned(old(zone)[id])
      ensures r == Failed(DnsError.Conflict) ==> zone == old(zone)
      ensures forall id | id in zone :: id in old(zone) && zone[id] == old(zone)[id]
      ensures forall id | id in old(zone) && !old(zone)[id].kind.TXT? :: id in zone
      ensures r.Done? ==> forall id | id in zone :: !zone[id].kind.TXT?
      ensures r.Done? || r.error in {DnsError.Conflict, DnsError.Unavailable}
      ensures Listable(old(zone)) && budget >= |old(zone)| ==> r != Failed(DnsError.Unavailable)
    {
      hide Listable, ChallengeOwned, IdsBelow, Lists;
      ghost var z0 := zone;
      var list := ListRecords();
      if list.Failed? {
        return Failed(list.error);
      }
      var records := list.value;
      AnyListed(records, zone, ForeignTxt);
      RecordCount(records, zone);
      if exists i :: 0 <= i < |records| && ForeignTxt(records[i]) {
        return Failed(DnsError.Conflict);
      }
      var n := 0;
      for i := 0 to |records|
        invariant n <= i && n <= budget && nextId == old(nextId) && Valid()
        invariant forall id | id in zone :: id in z0 && zone[id] == z0[id]
        invariant forall id | id in z0 && !z0[id].kind.TXT? :: id in zone
        invariant forall id | id in FirstOf(records, i) && id in zone :: !zone[id].kind.TXT?
      {
        ListedIds(records, z0, i);
        if records[i].kind.TXT? {
          if n == budget {
            return Failed(DnsError.Unavailable);
          }
          DropBelow(zone, records[i].id, nextId);
          zone, n := zone - {records[i].id}, n + 1;
        }
      }
      ListedIds(records, z0, |records|);
      return Done(());
    }
  }

  function NewIds(nextId: nat, n: nat): seq<nat> {
    seq(n, i requires 0 <= i < n => nextId + i)
  }

  lemma NewIdsFresh(z: Zone, nextId: nat, n: nat)
    requires forall id | id in z :: id < nextId
    ensures FreshIds(z, NewIds(nextId, n))
  {
  }

  ghost function Sent(z: Zone, plan: Plan, ids: seq<nat>, n: nat): Zone
    requires |plan.missing| <= |ids| && n <= |Calls(plan, ids)|
  {
    ApplyAll(z, Calls(plan, ids)[..n])
  }

  lemma SentNone(z: Zone, plan: Plan, ids: seq<nat>)
    requires |plan.missing| <= |ids|
    ensures Sent(z, plan, ids, 0) == z
  {
    assert Calls(plan, ids)[..0] == [];
  }

  lemma SentNext(z: Zone, plan: Plan, ids: seq<nat>, n: nat)
    requires |plan.missing| <= |ids| && n < |Calls(plan, ids)| == |plan.missing| + |plan.updates| + |plan.stale|
    ensures Sent(z, plan, ids, n + 1) == Apply(Sent(z, plan, ids, n),
      if n < |plan.missing| then Create(plan.missing[n], ids[n])
      else if n < |plan.missing| + |plan.updates| then Update(plan.updates[n - |plan.missing|].id)
      else Delete(plan.stale[n - |plan.missing| - |plan.updates|].id))
  {
    hide Calls, Apply, ApplyAll;
    CallAt(plan, ids, n);
    ApplyNext(z, Calls(plan, ids), n);
  }

  ghost predicate IdsBelow(z: Zone, nextId: nat) {
    forall id | id in z :: z[id].id == id && id < nextId
  }

  lemma NewIdAt(nextId: nat, n: nat, i: nat)
    requires i < n
    ensures NewIds(nextId, n)[i] == nextId + i
  {
  }

  lemma ApplyBelow(z: Zone, c: Call, nextId: nat)
    requires IdsBelow(z, nextId) && (c.Create? ==> c.id == nextId)
    ensures IdsBelow(Apply(z, c), if c.Create? then nextId + 1 else nextId)
  {
  }

  predicate ForeignServing(r: Record) {
    Managed(r) && Foreign(r)
  }

  predicate ForeignTxt(r: Record) {
    r.kind.TXT? && !ChallengeOwned(r)
  }

  lemma AnyListed(existing: seq<Record>, z: Zone, p: Record -> bool)
    requires Lists(existing, z)
    ensures (exists i :: 0 <= i < |existing| && p(existing[i])) <==> exists id :: id in z && p(z[id])
  {
    if i :| 0 <= i < |existing| && p(existing[i]) {
      assert existing[i] in existing;
    }
    if id :| id in z && p(z[id]) {
      assert z[id] in existing;
    }
  }

  lemma ListedIds(existing: seq<Record>, z: Zone, i: nat)
    requires Lists(existing, z) && i <= |existing|
    ensures i < |existing| ==>
      existing[i].id in z && z[existing[i].id] == existing[i] && existing[i].id !in FirstOf(existing, i)
    ensures i < |existing| ==> FirstOf(existing, i + 1) == FirstOf(existing, i) + {existing[i].id}
    ensures i == |existing| ==> FirstOf(existing, i) == z.Keys
  {
    if i == |existing| {
      forall id | id in z ensures id in FirstOf(existing, i) {
        var j :| 0 <= j < |existing| && existing[j] == z[id];
        assert existing[j].id == id;
      }
    }
    assert forall j | 0 <= j < |existing| :: existing[j] in existing;
  }

  lemma ForeignListed(existing: seq<Record>, z: Zone)
    requires Lists(existing, z)
    ensures NoForeign(z) <==> !exists i :: 0 <= i < |existing| && Foreign(existing[i])
  {
    hide Foreign;
    if i :| 0 <= i < |existing| && Foreign(existing[i]) {
      assert existing[i] in existing;
    }
    forall id | id in z ensures exists i :: 0 <= i < |existing| && existing[i] == z[id] {
      assert z[id] in existing;
    }
  }

  lemma {:induction false} RecordCount(existing: seq<Record>, z: Zone)
    requires Lists(existing, z)
    ensures |existing| == |z|
    decreases |existing|
  {
    if existing == [] {
      assert z.Keys == {};
    } else {
      var front, last := existing[..|existing| - 1], existing[|existing| - 1];
      assert existing == front + [last];
      ListsFront(front, last, z);
      hide Lists;
      RecordCount(front, z - {last.id});
      assert (z - {last.id}).Keys == z.Keys - {last.id};
    }
  }

  lemma ListsFront(front: seq<Record>, last: Record, z: Zone)
    requires Lists(front + [last], z)
    ensures last.id in z && Lists(front, z - {last.id})
  {
    var existing := front + [last];
    assert existing[|front|] == last && last in existing;
    forall i | 0 <= i < |front| ensures existing[i] == front[i] && front[i] in existing {
    }
  }

  lemma {:induction false} ManagedOfSize(existing: seq<Record>)
    ensures |ManagedOf(existing)| <= |existing|
  {
    if existing != [] {
      ManagedOfSize(existing[..|existing| - 1]);
    }
  }

  lemma {:induction false} ScanSize(existing: seq<Record>, desired: set<Key>)
    ensures |ScanAll(existing, desired).updates| + |ScanAll(existing, desired).stale| <= |existing|
  {
    hide KeyOf;
    if existing != [] {
      ScanSize(existing[..|existing| - 1], desired);
    }
  }

  lemma {:induction false} MissingSize(desired: seq<Key>, found: set<Key>)
    ensures |Missing(desired, found)| <= |desired|
  {
    if desired != [] {
      MissingSize(desired[..|desired| - 1], found);
    }
  }

  /** A plan makes at most one call for each record there is and each key there should be. */
  lemma CallBound(z: Zone, existing: seq<Record>, desired: seq<Key>, ids: seq<nat>)
    requires Lists(existing, z) && |PlanOf(existing, desired).missing| <= |ids|
    ensures |Calls(PlanOf(existing, desired), ids)| <= |z| + |desired|
  {
    hide Lists, Calls, ScanAll, Missing, SortByRank;
    RecordCount(existing, z);
    var s := ScanAll(existing, KeySet(desired));
    ScanSize(existing, KeySet(desired));
    MissingSize(desired, s.found);
    SortedByRank(Missing(desired, s.found), CreateRank);
    SortedByRank(s.stale, DeleteRank);
    CallCount(PlanOf(existing, desired), ids);
  }

  lemma RetireOrderSize(z: Zone, existing: seq<Record>)
    requires Lists(existing, z)
    ensures |RetireOrder(existing)| <= |z|
  {
    RecordCount(existing, z);
    ManagedOfSize(existing);
    SortedByRank(ManagedOf(existing), DeleteRank);
  }

  /** What a retirement keeps at every point: it only removes managed records, and an
      authorization never outlives the wildcard denial. */
  ghost predicate Retiring(z: Zone, z': Zone) {
    && (forall id | id in z' :: id in z && z'[id] == z[id])
    && (forall id | id in z && !Managed(z[id]) :: id in z')
    && Reconcile.PartialWrite(Keys(z), {}, Keys(z'))
    && (CaaSafe(z) ==> CaaSafe(z'))
  }

  lemma RetiringRefl(z: Zone)
    ensures Retiring(z, z)
  {
  }

  /** The zone after the first `n` deletes of a retirement. */
  ghost function RetiredTo(z: Zone, existing: seq<Record>, n: nat): Zone
    requires n <= |RetireOrder(existing)|
  {
    z - FirstOf(RetireOrder(existing), n)
  }

  lemma RetiredToNone(z: Zone, existing: seq<Record>)
    ensures RetiredTo(z, existing, 0) == z
  {
    assert FirstOf(RetireOrder(existing), 0) == {};
  }

  lemma RetiredToNext(z: Zone, existing: seq<Record>, n: nat)
    requires n < |RetireOrder(existing)|
    ensures RetiredTo(z, existing, n + 1) == RetiredTo(z, existing, n) - {RetireOrder(existing)[n].id}
  {
    var rs := RetireOrder(existing);
    assert FirstOf(rs, n + 1) == FirstOf(rs, n) + {rs[n].id};
  }

  lemma DropBelow(z: Zone, id: nat, nextId: nat)
    requires IdsBelow(z, nextId)
    ensures IdsBelow(z - {id}, nextId)
  {
  }

  lemma AddBelow(z: Zone, value: string, nextId: nat)
    requires IdsBelow(z, nextId)
    ensures nextId !in z && IdsBelow(z[nextId := ChallengeRecord(value, nextId)], nextId + 1)
  {
  }

  lemma OnlyAddsRefl(z: Zone)
    ensures OnlyAdds(z, z)
  {
  }

  lemma OnlyAddsNext(z0: Zone, z: Zone, value: string, id: nat)
    requires OnlyAdds(z0, z)
    ensures OnlyAdds(z0, z[id := ChallengeRecord(value, id)])
  {
  }

  predicate Unowned(r: Record) {
    !ChallengeOwned(r)
  }

  lemma SweepStart(z: Zone, wanted: set<string>)
    ensures Sweeping(z, wanted, z, {}, {})
  {
  }

  lemma RetireSafeAt(z: Zone, existing: seq<Record>, n: nat)
    requires Lists(existing, z) && n <= |RetireOrder(existing)|
    ensures Retiring(z, RetiredTo(z, existing, n))
    ensures n == |RetireOrder(existing)| ==>
      forall id | id in RetiredTo(z, existing, n) :: !Managed(RetiredTo(z, existing, n)[id])
  {
    hide CaaSafe, RetireOrder, KeyOf, Keys;
    RetireRemovesManaged(z, existing, n);
    if CaaSafe(z) {
      RetireKeepsCaaSafe(z, existing, n);
    }
  }
}
