/** The Cloudflare provider does what reconciliation assumes of a provider: wherever one of
    its operations stops, the records of the name changed as a provider write may change
    them, and when it finishes they are what a finished write leaves.
  */
module Refinement {
  import opened Schema
  import opened Cloudflare
  import opened CloudflareRuns
  import opened CloudflareNames
  import R = Reconcile

  // ------------------------------------------------------------------
  // The records of a name, as reconciliation sees them
  // ------------------------------------------------------------------

  const ISSUE_PREFIX := "letsencrypt.org; validationmethods=dns-01; accounturi="

  /** IPv6 addresses, and only they, are written with colons. */
  function AddressKind(ip: string): Kind {
    if ':' in ip then AAAA else A
  }

  function KeyFor(r: R.Record): Key {
    match r
    case Address(ip) => HostKey(AddressKind(ip), ip)
    case Issue(account) => CaaKey(IssueTag, IssueValue(account))
    case DenyWildcard => DENY_WILDCARD
  }

  function RecordFor(k: Key): Option<R.Record> {
    match k
    case HostKey(kind, content) => if kind == AddressKind(content) then Some(R.Address(content)) else None
    case CaaKey(tag, value) =>
      if tag.IssueWildTag? && value == ";" then Some(R.DenyWildcard)
      else if tag.IssueTag? && ISSUE_PREFIX <= value then Some(R.Issue(value[|ISSUE_PREFIX|..]))
      else None
  }

  lemma KeysAndRecords(k: Key, r: R.Record)
    ensures RecordFor(k) == Some(r) <==> k == KeyFor(r)
  {
    if r.Issue? {
      assert IssueValue(r.account) == ISSUE_PREFIX + r.account;
      assert IssueValue(r.account)[|ISSUE_PREFIX|..] == r.account;
    }
    if k.CaaKey? && k.tag.IssueTag? && ISSUE_PREFIX <= k.value {
      assert k.value == ISSUE_PREFIX + k.value[|ISSUE_PREFIX|..];
    }
  }

  ghost function Image(keys: set<Key>): set<R.Record> {
    set k | k in keys && RecordFor(k).Some? :: RecordFor(k).value
  }

  lemma ImageHas(keys: set<Key>, r: R.Record)
    ensures r in Image(keys) <==> KeyFor(r) in keys
  {
    hide RecordFor, KeyFor;
    KeysAndRecords(KeyFor(r), r);
    if r in Image(keys) {
      var k :| k in keys && RecordFor(k).Some? && RecordFor(k).value == r;
      KeysAndRecords(k, r);
    }
  }

  lemma ImagePartial(before: set<Key>, target: set<Key>, after: set<Key>)
    requires R.PartialWrite(before, target, after)
    ensures R.PartialWrite(Image(before), Image(target), Image(after))
  {
    hide Image;
    forall r
      ensures r in Image(before) && r in Image(target) ==> r in Image(after)
      ensures r in Image(after) ==> r in Image(before) || r in Image(target)
    {
      ImageHas(before, r);
      ImageHas(target, r);
      ImageHas(after, r);
    }
  }

  /** The serving records of a name. */
  ghost function Serving(z: Zone): set<R.Record> {
    Image(Keys(z))
  }

  /** A worker's list is the one its placement is configured with, entry by entry, and passed
      the environment's own check. */
  ghost predicate Configured(addresses: seq<Address>, ingress: R.Ingress, placement: string) {
    && 1 <= |addresses| <= 8 && (forall a | a in addresses :: !a.unspecified && (a.V6? <==> ':' in a.text))
    && R.AddressList(ingress, placement) == Texts(addresses)
  }

  function Texts(addresses: seq<Address>): seq<string> {
    seq(|addresses|, i requires 0 <= i < |addresses| => addresses[i].text)
  }

  /** In every reachable state the provider's validation of a publication succeeds exactly
      when reconciliation allows the write: the stored hostname and the account that was read
      always pass it, so only the number of listed addresses decides. */
  lemma PublicationAccepted(states: seq<R.System>, steps: seq<R.SystemStep>, i: nat, id: Uuid,
      addresses: seq<Address>)
    requires R.IsRun(states, steps) && i < |states| && id in states[i].sites && id in states[i].db.installations
    requires R.Held(states[i].db.installations[id], states[i].sites[id])
    requires states[i].sites[id].holder.value.phase.Publish?
      && states[i].sites[id].holder.value.phase.progress.Writing?
    requires Configured(addresses, states[i].ingress, states[i].sites[id].holder.value.placement)
    ensures var row, site := states[i].db.installations[id], states[i].sites[id];
      (ValidHostname(row.hostname) && ValidRecords(addresses, site.holder.value.phase.account)) <==>
        R.Enabled(row, site, states[i].ingress, R.FinishWrite)
  {
    hide R.IsRun, ValidHostname, KnownAccount, R.Desired, R.Enabled, R.Publishable, Configured, ValidRecords;
    R.PublishesKnown(states, steps, i, id);
    AcceptedExactly(states[i].db.installations[id], states[i].sites[id], states[i].ingress, addresses);
  }

  lemma AcceptedExactly(row: Installation, site: R.Site, ingress: R.Ingress, addresses: seq<Address>)
    requires R.Held(row, site) && site.holder.value.phase.Publish? && site.holder.value.phase.progress.Writing?
    requires Configured(addresses, ingress, site.holder.value.placement)
    requires KnownAccount(site.holder.value.phase.account)
    ensures ValidRecords(addresses, site.holder.value.phase.account) <==> R.Enabled(row, site, ingress, R.FinishWrite)
  {
    hide KnownAccount, R.Desired;
  }

  lemma DesiredImage(addresses: seq<Address>, account: string, ingress: R.Ingress, placement: string)
    requires Configured(addresses, ingress, placement)
    ensures Image(KeySet(ServingDesired(addresses, account))) == R.Desired(ingress, placement, account)
  {
    ServingDesiredExact(addresses, account);
    var keys := KeySet(ServingDesired(addresses, account));
    hide Image, ServingDesired, KeySet;
    forall r ensures r in Image(keys) <==> r in R.Desired(ingress, placement, account) {
      ImageHas(keys, r);
      DesiredKey(addresses, account, ingress, placement, r);
    }
  }

  lemma DesiredKey(addresses: seq<Address>, account: string, ingress: R.Ingress, placement: string,
      r: R.Record)
    requires Configured(addresses, ingress, placement)
    ensures KeyFor(r) in (set a | a in addresses :: AddressKey(a)) +
      {CaaKey(IssueTag, IssueValue(account)), DENY_WILDCARD}
      <==> r in R.Desired(ingress, placement, account)
  {
    match r
    case Address(ip) =>
      var list := Texts(addresses);
      if a :| a in addresses && AddressKey(a) == KeyFor(r) {
        var n :| 0 <= n < |addresses| && addresses[n] == a;
        assert list[n] == ip;
      }
      if ip in list {
        var n :| 0 <= n < |list| && list[n] == ip;
        assert AddressKey(addresses[n]) == KeyFor(r);
      }
    case Issue(other) =>
      KeysAndRecords(CaaKey(IssueTag, IssueValue(account)), r);
      KeysAndRecords(CaaKey(IssueTag, IssueValue(account)), R.Issue(account));
    case DenyWildcard =>
  }

  // ------------------------------------------------------------------
  // Publication and retirement
  // ------------------------------------------------------------------

  /** Wherever a publication stops, it has made a provider write that reconciliation allows;
      finished, it is reconciliation's finished write. */
  lemma PublishImplementsWrite(row: Installation, site: R.Site, ingress: R.Ingress,
                               addresses: seq<Address>, account: string, z0: Zone, z: Zone, finished: bool)
    requires R.Held(row, site) && site.holder.value.phase == R.Publish(account, R.Writing)
    requires R.Publishable(ingress, site.holder.value.placement)
    requires Configured(addresses, ingress, site.holder.value.placement)
    requires site.serving == Serving(z0) && Published(z0, z, KeySet(ServingDesired(addresses, account)), finished)
    ensures R.Enabled(row, site, ingress, R.WriteServing(Serving(z)))
    ensures finished ==>
      R.Enabled(row, site, ingress, R.FinishWrite)
        && R.MoveSite(row, site, ingress, R.FinishWrite).serving == Serving(z)
  {
    var wanted := KeySet(ServingDesired(addresses, account));
    PublishedWrites(z0, z, wanted, finished);
    ImagePartial(Keys(z0), wanted, Keys(z));
    DesiredImage(addresses, account, ingress, site.holder.value.placement);
    hide Image, Keys, ServingDesired, Published, Configured, R.Desired, R.Publishable;
  }

  lemma PublishedWrites(z0: Zone, z: Zone, desired: set<Key>, finished: bool)
    requires Published(z0, z, desired, finished)
    ensures R.PartialWrite(Keys(z0), desired, Keys(z)) && (finished ==> Keys(z) == desired)
  {
    hide Keys, NoForeign, CaaSafe, HasCaa, CaaUnproxied, Exact;
  }

  /** So does a retirement. */
  lemma RetireImplementsWrite(row: Installation, site: R.Site, ingress: R.Ingress, z0: Zone, z: Zone)
    requires R.Held(row, site) && site.holder.value.phase == R.Remove(R.Writing) && R.KindOf(row, site).RemoveRecords?
    requires site.serving == Serving(z0) && Retiring(z0, z)
    ensures R.Enabled(row, site, ingress, R.WriteServing(Serving(z)))
    ensures (forall id | id in z :: !Managed(z[id])) ==>
      R.Enabled(row, site, ingress, R.FinishWrite)
        && R.MoveSite(row, site, ingress, R.FinishWrite).serving == Serving(z)
  {
    RetiringWrites(z0, z);
    ImagePartial(Keys(z0), {}, Keys(z));
    assert Image({}) == {};
    if forall id | id in z :: !Managed(z[id]) {
      assert Keys(z) == {};
    }
    hide Image, Keys, Retiring;
  }

  lemma RetiringWrites(z0: Zone, z: Zone)
    requires Retiring(z0, z)
    ensures R.PartialWrite(Keys(z0), {}, Keys(z))
  {
    hide Keys, CaaSafe;
  }

  // ------------------------------------------------------------------
  // The challenge set
  // ------------------------------------------------------------------

  /** Replacing the challenge set is reconciliation's TXT write. */
  lemma SetChallengeImplementsWrite(row: Installation, site: R.Site, ingress: R.Ingress,
                                    revision: nat, values: seq<string>, z0: Zone, z: Zone)
    requires R.Held(row, site) && site.holder.value.phase == R.SetTxt(revision, ValueSet(values), R.Writing)
    requires R.ValidTarget(ValueSet(values)) && site.txt == TxtValues(z0)
    requires R.PartialWrite(TxtValues(z0), ValueSet(values), TxtValues(z))
    ensures R.Enabled(row, site, ingress, R.WriteTxt(TxtValues(z)))
    ensures TxtValues(z) == ValueSet(values) ==>
      R.Enabled(row, site, ingress, R.FinishWrite) && R.MoveSite(row, site, ingress, R.FinishWrite).txt == TxtValues(z)
  {
    hide TxtValues, R.ValidTarget;
  }

  /** So is retiring it, whatever else the name holds. */
  lemma RetireChallengeImplementsWrite(row: Installation, site: R.Site, ingress: R.Ingress, z0: Zone,
      z: Zone)
    requires R.Held(row, site) && site.holder.value.phase == R.Remove(R.Writing) && R.KindOf(row, site).RemoveTxtAll?
    requires site.txt == TxtValues(z0) && forall id | id in z :: id in z0 && z[id] == z0[id]
    ensures R.Enabled(row, site, ingress, R.WriteTxt(TxtValues(z)))
    ensures (forall id | id in z :: !z[id].kind.TXT?) ==>
      R.Enabled(row, site, ingress, R.FinishWrite) && R.MoveSite(row, site, ingress, R.FinishWrite).txt == TxtValues(z)
  {
    forall v | v in TxtValues(z) ensures v in TxtValues(z0) {
      var id :| id in z && z[id].kind.TXT? && TxtContent(z[id].content) == v;
      assert id in z0 && z0[id].kind.TXT? && TxtContent(z0[id].content) == v;
    }
    if forall id | id in z :: !z[id].kind.TXT? {
      assert TxtValues(z) == {};
    }
    hide TxtValues;
  }
}
