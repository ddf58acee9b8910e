/** The Cloudflare adapter: a name's records change by a sequence of single-record API
    calls, so every prefix of the sequence must be safe and every interruption must be
    recoverable by listing and planning again.
  */
module Cloudflare {
  import opened Schema

  // ------------------------------------------------------------------
  // Records and keys
  // ------------------------------------------------------------------

  datatype Kind = A | AAAA | CAA | CNAME | NS | TXT | OtherKind(name: string)

  datatype Tag = IssueTag | IssueWildTag | OtherTag(name: string)

  datatype CaaData = CaaData(flags: nat, tag: Tag, value: string)

  /** A record's comment: the serving comment, a comment with the challenge prefix, or
      anything else. */
  datatype Comment = ServingComment | ChallengeComment(suffix: string) | OtherComment(text: string)

  datatype Record = Record(id: nat, kind: Kind, content: string, ttl: nat, proxied: bool, comment: Comment,
    data: Option<CaaData>)

  datatype Key = HostKey(kind: Kind, content: string) | CaaKey(tag: Tag, value: string)

  datatype DnsError = InvalidHostname | InvalidChange | Unavailable | Conflict

  datatype Outcome<+T> = Done(value: T) | Failed(error: DnsError)

  const TTL_SECONDS: nat := 300
  const DENY_WILDCARD: Key := CaaKey(IssueWildTag, ";")

  predicate Managed(r: Record) {
    r.kind.A? || r.kind.AAAA? || r.kind.CAA?
  }

  function KeyOf(r: Record): Option<Key> {
    if r.kind.CAA? then
      if r.data.None? || r.data.value.flags != 0 || r.data.value.tag.OtherTag? then None
      else Some(CaaKey(r.data.value.tag, r.data.value.value))
    else Some(HostKey(r.kind, r.content))
  }

  /** A record that makes planning refuse the name. */
  predicate Foreign(r: Record) {
    r.kind.CNAME? || r.kind.NS? || (Managed(r) && (r.comment != ServingComment || KeyOf(r).None?))
  }

  predicate Current(r: Record) {
    r.ttl == TTL_SECONDS && !r.proxied
  }

  /** The record a create call for `k` makes. */
  function NewRecord(k: Key, id: nat): Record {
    match k
    case HostKey(kind, content) => Record(id, kind, content, TTL_SECONDS, false, ServingComment, None)
    case CaaKey(tag, value) => Record(id, CAA, "", TTL_SECONDS, false, ServingComment, Some(CaaData(0, tag, value)))
  }

  /** The patch body of an address carries `proxied: false`; that of a CAA does not. */
  function Patched(r: Record): Record {
    r.(ttl := TTL_SECONDS, proxied := r.proxied && r.kind.CAA?, comment := ServingComment)
  }

  // ------------------------------------------------------------------
  // A name's records and the calls that change them
  // ------------------------------------------------------------------

  /** The records at one name, by id. */
  type Zone = map<nat, Record>

  datatype Call = Create(key: Key, id: nat) | Update(id: nat) | Delete(id: nat)

  function Apply(z: Zone, c: Call): Zone {
    match c
    case Create(k, id) => z[id := NewRecord(k, id)]
    case Update(id) => if id in z then z[id := Patched(z[id])] else z
    case Delete(id) => z - {id}
  }

  function ApplyAll(z: Zone, calls: seq<Call>): Zone {
    if calls == [] then z else Apply(ApplyAll(z, calls[..|calls| - 1]), calls[|calls| - 1])
  }

  /** `existing` is a listing of the zone, in any order. */
  ghost predicate Lists(existing: seq<Record>, z: Zone) {
    && (forall r | r in existing :: r.id in z && z[r.id] == r)
    && (forall id | id in z :: z[id] in existing && z[id].id == id)
    && (forall i, j | 0 <= i < j < |existing| :: existing[i].id != existing[j].id)
  }

  ghost predicate Owns(z: Zone, k: Key, id: nat) {
    id in z && Managed(z[id]) && KeyOf(z[id]) == Some(k)
  }

  ghost predicate Has(z: Zone, k: Key) {
    exists id :: Owns(z, k, id)
  }

  // ------------------------------------------------------------------
  // Planning
  // ------------------------------------------------------------------

  datatype Plan = Plan(missing: seq<Key>, updates: seq<Record>, stale: seq<Record>)

  /** The loop's accumulators. */
  datatype Scan = Scan(found: set<Key>, updates: seq<Record>, stale: seq<Record>)

  function CreateRank(k: Key): nat {
    if k.CaaKey? && k.tag.IssueWildTag? then 0 else if k.CaaKey? && k.tag.IssueTag? then 1 else 2
  }

  function DeleteRank(r: Record): nat {
    if r.kind.CAA? && r.data.Some? && r.data.value.tag.IssueTag? then 0
    else if r.kind.CAA? && r.data.Some? && r.data.value.tag.IssueWildTag? then 2
    else 1
  }

  function ScanRecord(s: Scan, r: Record, desired: set<Key>): Scan {
    if !Managed(r) || KeyOf(r).None? then s
    else if KeyOf(r).value in desired && KeyOf(r).value !in s.found then
      s.(found := s.found + {KeyOf(r).value}, updates := if Current(r) then s.updates else s.updates + [r])
    else s.(stale := s.stale + [r])
  }

  function ScanAll(existing: seq<Record>, desired: set<Key>): Scan {
    if existing == [] then Scan({}, [], [])
    else ScanRecord(ScanAll(existing[..|existing| - 1], desired), existing[|existing| - 1], desired)
  }

  /** The keys of `desired`, each once, that were not found. */
  function Missing(desired: seq<Key>, found: set<Key>): seq<Key> {
    if desired == [] then []
    else
      var rest := Missing(desired[..|desired| - 1], found);
      var k := desired[|desired| - 1];
      if k in found || k in rest then rest else rest + [k]
  }

  function OfRank<T>(s: seq<T>, rank: T -> nat, n: nat): seq<T> {
    if s == [] then []
    else OfRank(s[..|s| - 1], rank, n) + (if rank(s[|s| - 1]) == n then [s[|s| - 1]] else [])
  }

  /** A stable sort by a rank of 0, 1 or 2. */
  function SortByRank<T>(s: seq<T>, rank: T -> nat): seq<T> {
    OfRank(s, rank, 0) + OfRank(s, rank, 1) + OfRank(s, rank, 2)
  }

  function KeySet(desired: seq<Key>): set<Key> {
    set k | k in desired
  }

  function PlanOf(existing: seq<Record>, desired: seq<Key>): Plan {
    var s := ScanAll(existing, KeySet(desired));
    Plan(SortByRank(Missing(desired, s.found), CreateRank), s.updates, SortByRank(s.stale, DeleteRank))
  }

  /** Planning reads the listing once; it refuses exactly the names that hold a foreign record. */
  method PlanServing(existing: seq<Record>, desired: seq<Key>) returns (r: Outcome<Plan>)
    ensures r.Failed? <==> exists i :: 0 <= i < |existing| && Foreign(existing[i])
    ensures r.Failed? ==> r.error == DnsError.Conflict
    ensures r.Done? ==> r.value == PlanOf(existing, desired)
  {
    var wanted := KeySet(desired);
    var found: set<Key>, updates: seq<Record>, stale: seq<Record> := {}, [], [];
    for i := 0 to |existing|
      invariant Scan(found, updates, stale) == ScanAll(existing[..i], wanted)
      invariant forall j | 0 <= j < i :: !Foreign(existing[j])
    {
      var record := existing[i];
      assert existing[..i + 1][..i] == existing[..i];
      if record.kind.CNAME? || record.kind.NS? {
        return Failed(DnsError.Conflict);
      }
      if Managed(record) {
        if record.comment != ServingComment || KeyOf(record).None? {
          return Failed(DnsError.Conflict);
        }
        var key := KeyOf(record).value;
        if key in wanted && key !in found {
          found := found + {key};
          if !Current(record) {
            updates := updates + [record];
          }
        } else {
          stale := stale + [record];
        }
      }
    }
    assert existing[..|existing|] == existing;
    return Done(Plan(SortByRank(Missing(desired, found), CreateRank), updates, SortByRank(stale, DeleteRank)));
  }

  // ------------------------------------------------------------------
  // What the sort and the filter keep
  // ------------------------------------------------------------------

  lemma {:induction false} OfRankMembers<T>(s: seq<T>, rank: T -> nat, n: nat)
    ensures forall x :: x in OfRank(s, rank, n) <==> x in s && rank(x) == n
    ensures |OfRank(s, rank, n)| <= |s|
  {
    if s != [] {
      var front, last := s[..|s| - 1], s[|s| - 1];
      OfRankMembers(front, rank, n);
      assert s == front + [last];
    }
  }

  lemma {:induction false} OfRankSizes<T>(s: seq<T>, rank: T -> nat)
    requires forall x | x in s :: rank(x) <= 2
    ensures |OfRank(s, rank, 0)| + |OfRank(s, rank, 1)| + |OfRank(s, rank, 2)| == |s|
  {
    if s != [] {
      assert s[|s| - 1] in s;
      OfRankSizes(s[..|s| - 1], rank);
    }
  }

  lemma SortedAt<T>(s: seq<T>, rank: T -> nat, i: nat)
    requires i < |SortByRank(s, rank)|
    ensures var n := if i < |OfRank(s, rank, 0)| then 0
      else if i < |OfRank(s, rank, 0)| + |OfRank(s, rank, 1)| then 1 else 2;
      rank(SortByRank(s, rank)[i]) == n && SortByRank(s, rank)[i] in OfRank(s, rank, n)
  {
    var s0, s1, s2 := OfRank(s, rank, 0), OfRank(s, rank, 1), OfRank(s, rank, 2);
    hide OfRank;
    if i < |s0| {
      RankedMember(s, rank, 0, i);
    } else if i < |s0| + |s1| {
      RankedMember(s, rank, 1, i - |s0|);
    } else {
      RankedMember(s, rank, 2, i - |s0| - |s1|);
    }
  }

  lemma {:induction false} RankedMember<T>(s: seq<T>, rank: T -> nat, n: nat, i: nat)
    requires i < |OfRank(s, rank, n)|
    ensures OfRank(s, rank, n)[i] in OfRank(s, rank, n) && rank(OfRank(s, rank, n)[i]) == n
  {
    if i < |OfRank(s[..|s| - 1], rank, n)| {
      RankedMember(s[..|s| - 1], rank, n, i);
    }
  }

  /** Sorting keeps the members and puts lower ranks first. */
  lemma SortedByRank<T>(s: seq<T>, rank: T -> nat)
    requires forall x | x in s :: rank(x) <= 2
    ensures |SortByRank(s, rank)| == |s|
    ensures forall x :: x in SortByRank(s, rank) <==> x in s
    ensures forall i, j | 0 <= i < j < |s| :: rank(SortByRank(s, rank)[i]) <= rank(SortByRank(s, rank)[j])
  {
    OfRankSizes(s, rank);
    OfRankMembers(s, rank, 0);
    OfRankMembers(s, rank, 1);
    OfRankMembers(s, rank, 2);
    var s0, s1, s2 := OfRank(s, rank, 0), OfRank(s, rank, 1), OfRank(s, rank, 2);
    forall i | 0 <= i < |s|
      ensures rank(SortByRank(s, rank)[i]) == if i < |s0| then 0 else if i < |s0| + |s1| then 1 else 2
    {
      SortedAt(s, rank, i);
    }
  }

  lemma {:induction false} MissingMembers(desired: seq<Key>, found: set<Key>)
    ensures forall k :: k in Missing(desired, found) <==> k in desired && k !in found
    ensures forall i, j | 0 <= i < j < |Missing(desired, found)| ::
      Missing(desired, found)[i] != Missing(desired, found)[j]
  {
    if desired != [] {
      var front, last := desired[..|desired| - 1], desired[|desired| - 1];
      MissingMembers(front, found);
      assert desired == front + [last];
    }
  }

  /** A stable sort repeats no element its input does not repeat. */
  lemma {:induction false} OfRankDistinct<T>(s: seq<T>, rank: T -> nat, n: nat)
    requires forall i, j | 0 <= i < j < |s| :: s[i] != s[j]
    ensures forall i, j | 0 <= i < j < |OfRank(s, rank, n)| :: OfRank(s, rank, n)[i] != OfRank(s, rank, n)[j]
  {
    if s != [] {
      var front, last := s[..|s| - 1], s[|s| - 1];
      OfRankDistinct(front, rank, n);
      OfRankMembers(front, rank, n);
      assert last !in front;
    }
  }

  lemma SortDistinct<T>(s: seq<T>, rank: T -> nat)
    requires forall i, j | 0 <= i < j < |s| :: s[i] != s[j]
    ensures forall i, j | 0 <= i < j < |SortByRank(s, rank)| :: SortByRank(s, rank)[i] != SortByRank(s, rank)[j]
  {
    var s0, s1, s2 := OfRank(s, rank, 0), OfRank(s, rank, 1), OfRank(s, rank, 2);
    OfRankDistinct(s, rank, 0);
    OfRankDistinct(s, rank, 1);
    OfRankDistinct(s, rank, 2);
    OfRankMembers(s, rank, 0);
    OfRankMembers(s, rank, 1);
    OfRankMembers(s, rank, 2);
    var all := SortByRank(s, rank);
    forall i, j | 0 <= i < j < |all| ensures all[i] != all[j] {
      SortedAt(s, rank, i);
      SortedAt(s, rank, j);
      if j < |s0| {
        assert all[i] == s0[i] && all[j] == s0[j];
      } else if |s0| <= i && j < |s0| + |s1| {
        assert all[i] == s1[i - |s0|] && all[j] == s1[j - |s0|];
      } else if |s0| + |s1| <= i {
        assert all[i] == s2[i - |s0| - |s1|] && all[j] == s2[j - |s0| - |s1|];
      }
    }
  }

  // ------------------------------------------------------------------
  // What the scan finds
  // ------------------------------------------------------------------

  predicate Counted(existing: seq<Record>, r: Record) {
    r in existing && Managed(r)
  }

  /** Of the managed records of each desired key one is kept; every other managed record
      is stale; a kept record is updated exactly when its metadata drifted. */
  ghost predicate ScanOk(existing: seq<Record>, desired: set<Key>, s: Scan) {
    && (forall r | r in s.stale :: Counted(existing, r))
    && (forall r | r in s.updates :: Counted(existing, r) && r !in s.stale && !Current(r))
    && (forall r | Counted(existing, r) && r !in s.stale ::
          KeyOf(r).Some? && KeyOf(r).value in s.found && (Current(r) || r in s.updates))
    && (forall r, r' | Counted(existing, r) && Counted(existing, r') && r !in s.stale && r' !in s.stale
      && KeyOf(r) == KeyOf(r') ::
          r == r')
    && s.found <= desired
    && (forall k | k in s.found :: exists r :: Counted(existing, r) && r !in s.stale && KeyOf(r) == Some(k))
    && (forall r | Counted(existing, r) && KeyOf(r).Some? && KeyOf(r).value in desired :: KeyOf(r).value in s.found)
  }

  ghost predicate Clean(existing: seq<Record>) {
    && (forall r | r in existing :: !Foreign(r))
    && (forall i, j | 0 <= i < j < |existing| :: existing[i].id != existing[j].id)
  }

  lemma {:induction false} ScanCorrect(existing: seq<Record>, desired: set<Key>)
    requires Clean(existing)
    ensures ScanOk(existing, desired, ScanAll(existing, desired))
    ensures forall i, j | 0 <= i < j < |ScanAll(existing, desired).stale| ::
      ScanAll(existing, desired).stale[i] != ScanAll(existing, desired).stale[j]
  {
    if existing != [] {
      var front, last := existing[..|existing| - 1], existing[|existing| - 1];
      assert forall r | r in front :: r in existing;
      ScanCorrect(front, desired);
      assert last in existing;
      assert last !in front by {
        assert forall i | 0 <= i < |front| :: existing[i].id != last.id;
      }
      assert forall r :: Counted(existing, r) <==> Counted(front, r) || (r == last && Managed(last)) by {
        assert existing == front + [last];
      }
      ScanStep(front, existing, last, desired, ScanAll(front, desired));
    }
  }

  lemma ScanStep(front: seq<Record>, existing: seq<Record>, last: Record, desired: set<Key>, s: Scan)
    requires ScanOk(front, desired, s) && !Foreign(last) && last !in front
    requires forall r :: Counted(existing, r) <==> Counted(front, r) || (r == last && Managed(last))
    ensures ScanOk(existing, desired, ScanRecord(s, last, desired))
  {
    var s' := ScanRecord(s, last, desired);
    assert last !in s.stale && last !in s.updates by {
      assert !Counted(front, last);
    }
    forall k | k in s'.found ensures exists r :: Counted(existing, r) && r !in s'.stale && KeyOf(r) == Some(k) {
      if k in s.found {
        var r :| Counted(front, r) && r !in s.stale && KeyOf(r) == Some(k);
        assert Counted(existing, r) && r !in s'.stale;
      } else {
        assert Counted(existing, last) && last !in s'.stale;
      }
    }
  }

  // ------------------------------------------------------------------
  // The plan, in terms of the zone
  // ------------------------------------------------------------------

  function Ids(rs: seq<Record>): set<nat> {
    set r | r in rs :: r.id
  }

  ghost predicate FromZone(z: Zone, rs: seq<Record>) {
    forall r | r in rs :: r.id in z && z[r.id] == r && Managed(r)
  }

  ghost predicate Kept(z: Zone, p: Plan, id: nat) {
    id in z && Managed(z[id]) && id !in Ids(p.stale)
  }

  ghost predicate PlanOk(z: Zone, desired: set<Key>, p: Plan) {
    && FromZone(z, p.stale) && FromZone(z, p.updates)
    && (forall id | Kept(z, p, id) :: KeyOf(z[id]).Some? && KeyOf(z[id]).value in desired)
    && (forall id | Kept(z, p, id) :: Current(z[id]) || id in Ids(p.updates))
    && (forall id | id in Ids(p.updates) :: Kept(z, p, id))
    && (forall r | r in p.updates :: !Current(r))
    && (forall i, j | Kept(z, p, i) && Kept(z, p, j) && KeyOf(z[i]) == KeyOf(z[j]) :: i == j)
    && (forall k | k in desired && Has(z, k) :: exists id :: Kept(z, p, id) && Owns(z, k, id))
    && (forall k :: k in p.missing <==> k in desired && !Has(z, k))
    && (forall i, j | 0 <= i < j < |p.missing| ::
          p.missing[i] != p.missing[j] && CreateRank(p.missing[i]) <= CreateRank(p.missing[j]))
    && (forall i, j | 0 <= i < j < |p.stale| ::
          p.stale[i].id != p.stale[j].id && DeleteRank(p.stale[i]) <= DeleteRank(p.stale[j]))
  }

  ghost predicate NoForeign(z: Zone) {
    forall id | id in z :: z[id].id == id && !Foreign(z[id])
  }

  lemma ListedClean(existing: seq<Record>, z: Zone)
    requires Lists(existing, z) && NoForeign(z)
    ensures Clean(existing)
    ensures forall r :: Counted(existing, r) <==> r.id in z && z[r.id] == r && Managed(r)
    ensures forall id | id in z :: z[id].id == id
  {
  }

  lemma PlanParts(existing: seq<Record>, z: Zone, desired: seq<Key>)
    requires Lists(existing, z) && NoForeign(z)
    ensures var s, p := ScanAll(existing, KeySet(desired)), PlanOf(existing, desired);
      && ScanOk(existing, KeySet(desired), s)
      && p.updates == s.updates
      && (forall r :: r in p.stale <==> r in s.stale)
      && (forall k :: k in p.missing <==> k in desired && k !in s.found)
      && (forall i, j | 0 <= i < j < |p.missing| ::
            p.missing[i] != p.missing[j] && CreateRank(p.missing[i]) <= CreateRank(p.missing[j]))
      && (forall i, j | 0 <= i < j < |p.stale| ::
            p.stale[i] != p.stale[j] && DeleteRank(p.stale[i]) <= DeleteRank(p.stale[j]))
  {
    ListedClean(existing, z);
    ScanCorrect(existing, KeySet(desired));
    var s := ScanAll(existing, KeySet(desired));
    hide ScanAll, ScanOk, Lists, NoForeign, Clean;
    var missing := Missing(desired, s.found);
    MissingMembers(desired, s.found);
    hide Missing;
    SortedByRank(missing, CreateRank);
    SortDistinct(missing, CreateRank);
    SortedByRank(s.stale, DeleteRank);
    SortDistinct(s.stale, DeleteRank);
    hide SortByRank;
  }

  lemma PlanCorrect(existing: seq<Record>, z: Zone, desired: seq<Key>)
    requires Lists(existing, z) && NoForeign(z)
    ensures PlanOk(z, KeySet(desired), PlanOf(existing, desired))
  {
    hide ScanAll, PlanOf, Clean, KeyOf, Current, CreateRank, DeleteRank, Has, Owns, Managed, ScanOk, Kept, Lists,
      NoForeign;
    PlanParts(existing, z, desired);
    ListedClean(existing, z);
    var s, p := ScanAll(existing, KeySet(desired)), PlanOf(existing, desired);
    ScannedCounted(existing, KeySet(desired), s);
    StaleIds(existing, z, s, p);
    KeptWell(existing, z, KeySet(desired), s, p);
    forall k | k in KeySet(desired) ensures k in s.found <==> Has(z, k)
      ensures Has(z, k) ==> exists id :: Kept(z, p, id) && Owns(z, k, id)
    {
      FoundIsKept(existing, z, KeySet(desired), s, p, k);
    }
    FoundDesired(existing, KeySet(desired), s);
  }

  lemma ScannedCounted(existing: seq<Record>, desired: set<Key>, s: Scan)
    requires ScanOk(existing, desired, s)
    ensures forall r | r in s.stale || r in s.updates :: Counted(existing, r)
  {
    hide KeyOf, Current;
  }

  lemma FoundDesired(existing: seq<Record>, desired: set<Key>, s: Scan)
    requires ScanOk(existing, desired, s)
    ensures s.found <= desired
  {
    hide KeyOf, Current;
  }

  /** The kept records are wanted, one per key, and current or about to be updated. */
  lemma KeptWell(existing: seq<Record>, z: Zone, desired: set<Key>, s: Scan, p: Plan)
    requires ScanOk(existing, desired, s) && p.updates == s.updates
    requires forall r :: Counted(existing, r) <==> r.id in z && z[r.id] == r && Managed(r)
    requires forall id | id in z :: z[id].id == id
    requires forall id | id in z && Managed(z[id]) ::
      Counted(existing, z[id]) && (id in Ids(p.stale) <==> z[id] in s.stale)
    ensures forall id | Kept(z, p, id) ::
      KeyOf(z[id]).Some? && KeyOf(z[id]).value in desired && (Current(z[id]) || id in Ids(p.updates))
    ensures forall id | id in Ids(p.updates) :: Kept(z, p, id)
    ensures forall r | r in p.updates :: !Current(r)
    ensures forall i, j | Kept(z, p, i) && Kept(z, p, j) && KeyOf(z[i]) == KeyOf(z[j]) :: i == j
  {
    hide KeyOf, Current;
  }

  lemma FoundIsKept(existing: seq<Record>, z: Zone, desired: set<Key>, s: Scan, p: Plan, k: Key)
    requires ScanOk(existing, desired, s) && k in desired
    requires forall r :: Counted(existing, r) <==> r.id in z && z[r.id] == r && Managed(r)
    requires forall id | id in z :: z[id].id == id
    requires forall id | id in z && Managed(z[id]) :: id in Ids(p.stale) <==> z[id] in s.stale
    ensures k in s.found <==> Has(z, k)
    ensures Has(z, k) ==> exists id :: Kept(z, p, id) && Owns(z, k, id)
  {
    hide KeyOf, Current;
    if Has(z, k) {
      var o :| Owns(z, k, o);
      assert Counted(existing, z[o]);
    }
    if k in s.found {
      var r :| Counted(existing, r) && r !in s.stale && KeyOf(r) == Some(k);
      assert Kept(z, p, r.id) && Owns(z, k, r.id);
    }
  }

  lemma StaleIds(existing: seq<Record>, z: Zone, s: Scan, p: Plan)
    requires forall r :: Counted(existing, r) <==> r.id in z && z[r.id] == r && Managed(r)
    requires forall r | r in p.stale :: Counted(existing, r)
    requires forall r :: r in p.stale <==> r in s.stale
    requires forall id | id in z :: z[id].id == id
    ensures forall id | id in z && Managed(z[id]) ::
      Counted(existing, z[id]) && (id in Ids(p.stale) <==> z[id] in s.stale)
  {
  }
}
