/** The gateway's ticket protocol. Tunnel (POST), attach (CONNECT), browser and lifecycle
    tasks interleave at every await, between themselves and with the transactions of
    other gateways and control servers. A world carries the store's whole history, so
    a task can remember at which point of it a check was made.
  */
module Gateway {
  import opened Schema
  import T = Transactions
  import Fencing

  // ------------------------------------------------------------------
  // What the locks protect
  // ------------------------------------------------------------------

  datatype Tunnel = Entry(id: Uuid, generation: nat)

  /** `browser` stands for the waiting end of the ticket's one-shot channel. */
  datatype Ticket = Ticket(host: string, id: Uuid, generation: nat, deadline: Instant, browser: nat)

  type Tunnels = map<string, Tunnel>
  type Tickets = map<nat, Ticket>

  const SETUP_MS: int := 10000
  const LEASE_SECONDS: int := 45

  predicate GenerationCanReplace(current: Option<nat>, candidate: nat) {
    current.None? || current.value < candidate
  }

  predicate TicketClaimMatches(ticket: Ticket, id: Uuid, host: string, generation: nat, authority: Option<string>,
      now: Instant)
  {
    && ticket.deadline > now
    && authority == Some(ticket.host)
    && host == ticket.host && id == ticket.id && generation == ticket.generation
  }

  predicate OwnsTunnel(tunnels: Tunnels, host: string, id: Uuid, generation: nat) {
    host in tunnels && tunnels[host] == Entry(id, generation)
  }

  predicate CanInstall(tunnels: Tunnels, host: string, generation: nat) {
    GenerationCanReplace(if host in tunnels then Some(tunnels[host].generation) else None, generation)
  }

  function Released(tunnels: Tunnels, host: string, id: Uuid, generation: nat): Tunnels {
    if OwnsTunnel(tunnels, host, id, generation) then tunnels - {host} else tunnels
  }

  /** The maps and the sections that run while their lock is held. */
  class Registry {
    var tunnels: Tunnels
    var tickets: Tickets

    constructor ()
      ensures tunnels == map[] && tickets == map[]
    {
      tunnels, tickets := map[], map[];
    }

    /** Returns the tunnel to cancel; an older or equal generation changes nothing. */
    method Install(host: string, id: Uuid, generation: nat) returns (installed: bool, displaced: Option<Tunnel>)
      modifies this
      ensures installed <==> (host in old(tunnels) ==> old(tunnels)[host].generation < generation)
      ensures tickets == old(tickets)
      ensures tunnels == if installed then old(tunnels)[host := Entry(id, generation)] else old(tunnels)
      ensures displaced.Some? <==> installed && host in old(tunnels)
      ensures displaced.Some? ==> displaced.value == old(tunnels)[host]
    {
      displaced := None;
      installed := GenerationCanReplace(if host in tunnels then Some(tunnels[host].generation) else None, generation);
      if installed {
        if host in tunnels {
          displaced := Some(tunnels[host]);
        }
        tunnels := tunnels[host := Entry(id, generation)];
      }
    }

    /** The end of a lifecycle: a displaced one leaves its successor's entry alone. */
    method Release(host: string, id: Uuid, generation: nat)
      modifies this
      ensures tunnels == Released(old(tunnels), host, id, generation) && tickets == old(tickets)
      ensures !OwnsTunnel(tunnels, host, id, generation)
      ensures forall h | h in old(tunnels) && old(tunnels)[h] != Entry(id, generation) ::
        h in tunnels && tunnels[h] == old(tunnels)[h]
    {
      if host in tunnels && tunnels[host].id == id && tunnels[host].generation == generation {
        tunnels := tunnels - {host};
      }
    }

    /** A CONNECT takes its ticket out, or leaves every ticket in place. */
    method TakeTicket(key: nat, id: Uuid, host: string, generation: nat, authority: Option<string>, now: Instant)
      returns (r: Option<Ticket>)
      modifies this
      ensures tunnels == old(tunnels)
      ensures r.Some? <==>
        && key in old(tickets) && now < old(tickets)[key].deadline && authority == Some(host)
        && old(tickets)[key].host == host && old(tickets)[key].id == id && old(tickets)[key].generation == generation
      ensures r.Some? ==> r.value == old(tickets)[key] && tickets == old(tickets) - {key}
      ensures r.None? ==> tickets == old(tickets)
    {
      r := None;
      if key in tickets && TicketClaimMatches(tickets[key], id, host, generation, authority, now) {
        r := Some(tickets[key]);
        tickets := tickets - {key};
      }
    }
  }

  // ------------------------------------------------------------------
  // Tasks
  // ------------------------------------------------------------------

  /** Who a request claims to be; `namedAt` is when the hostname check read the store. */
  datatype Peer = Peer(id: Uuid, host: string, token: string, namedAt: nat)

  /** A check: the point of the store's history it read and its clock. */
  datatype Check = Check(at: nat, now: Instant)

  datatype Attach = Attach(generation: nat, authority: Option<string>)

  datatype Take = Take(key: nat, ticket: Ticket, check: Check)

  datatype Task =
    | PostNamed(p: Peer)
    | PostAuthed(p: Peer, auth: Check)
    | PostClaimed(p: Peer, auth: Check, generation: nat, claimedAt: nat)
    | Lifecycle(p: Peer, auth: Check, generation: nat, claimedAt: nat)
    | ConnectNamed(p: Peer, a: Attach)
    | ConnectAuthed(p: Peer, a: Attach, auth: Check)
    | ConnectListed(p: Peer, a: Attach, auth: Check)
    | ConnectReady(p: Peer, a: Attach, auth: Check)
    | ConnectTook(p: Peer, a: Attach, auth: Check, take: Take)
    | ConnectOwner(p: Peer, a: Attach, auth: Check, take: Take)
    | ConnectPassed(p: Peer, a: Attach, auth: Check, take: Take, current: Check)
    | BrowserNamed(host: string)
    | BrowserTunnel(host: string, tunnel: Tunnel)
    | BrowserCurrent(host: string, tunnel: Tunnel)
    | BrowserWaiting(host: string, key: nat)

  /** A browser stream handed to a CONNECT, with the checks that led to it. */
  datatype Delivery = Delivery(p: Peer, a: Attach, auth: Check, take: Take, current: Check)

  /** `started`, `asked` and `issued` remember every task, every browser's SNI name and
      every ticket there has been. */
  datatype World = World(
    gateway: string,
    states: seq<Db>,
    actions: seq<T.Action>,
    tunnels: Tunnels,
    tickets: Tickets,
    tasks: map<nat, Task>,
    started: set<nat>,
    asked: map<nat, string>,
    issued: Tickets,
    deliveries: seq<Delivery>)

  datatype Event =
    | Store(a: T.Action)
    | PostArrives(t: nat, id: Uuid, host: string, token: string)
    | PostAuthenticates(t: nat, now: Instant)
    | PostClaims(t: nat, now: Instant)
    | PostInstalls(t: nat)
    | Beats(t: nat, now: Instant)
    | LifecycleEnds(t: nat)
    | ConnectArrives(t: nat, id: Uuid, host: string, token: string, attach: Attach)
    | ConnectAuthenticates(t: nat, now: Instant)
    | ConnectLists(t: nat)
    | ConnectChecks(t: nat, now: Instant)
    | ConnectTakes(t: nat, key: nat, now: Instant)
    | ConnectOwns(t: nat)
    | ConnectRechecks(t: nat, now: Instant)
    | Delivers(t: nat)
    | BrowserArrives(t: nat, host: string)
    | BrowserLooks(t: nat)
    | BrowserChecks(t: nat, now: Instant)
    | BrowserIssues(t: nat, key: nat, now: Instant)
    | BrowserLeaves(t: nat)
    | Gives(t: nat)

  function Here(w: World): nat
    requires w.states != []
  {
    |w.states| - 1
  }

  function Database(w: World): Db
    requires w.states != []
  {
    w.states[|w.states| - 1]
  }

  /** What the store's hostname lookup requires. */
  predicate Named(db: Db, id: Uuid, host: string) {
    id in db.installations && db.installations[id].state.DnsReady? && db.installations[id].hostname == host
  }

  ghost predicate Authentic(db: Db, id: Uuid, token: string, now: Instant) {
    exists g :: T.Authenticates(db, id, Scope.Tunnel, token, now, g)
  }

  function Commit(w: World, a: T.Action): World
    requires w.states != []
  {
    w.(states := w.states + [T.Step(Database(w), a)], actions := w.actions + [a])
  }

  function Begin(w: World, t: nat, task: Task): World {
    if t in w.started then w else w.(started := w.started + {t}, tasks := w.tasks[t := task])
  }

  function Become(w: World, t: nat, task: Task): World {
    w.(tasks := w.tasks[t := task])
  }

  /** One step. An event that is not possible changes nothing; a failed check is a step
      that leaves its task where it was until `Gives` ends it. */
  ghost function Next(w: World, e: Event): World
    requires w.states != []
  {
    match e
    case Store(a) => Commit(w, a)
    case PostArrives(t, id, host, token) =>
      if Named(Database(w), id, host) then Begin(w, t, PostNamed(Peer(id, host, token, Here(w)))) else w
    case ConnectArrives(t, id, host, token, a) =>
      if Named(Database(w), id, host) then Begin(w, t, ConnectNamed(Peer(id, host, token, Here(w)), a)) else w
    case BrowserArrives(t, host) =>
      if t in w.started then w else Begin(w, t, BrowserNamed(host)).(asked := w.asked[t := host])
    case _ =>
      if e.t !in w.tasks then w else Continue(w, e, w.tasks[e.t])
  }

  ghost function Continue(w: World, e: Event, task: Task): World
    requires w.states != [] && !e.Store? && e.t in w.tasks && w.tasks[e.t] == task
  {
    if IsPost(task) then PostContinues(w, e, task)
    else if IsConnect(task) then ConnectContinues(w, e, task)
    else if HeldKey(task).Some? then HolderContinues(w, e, task)
    else BrowserContinues(w, e, task)
  }

  predicate IsPost(task: Task) {
    task.PostNamed? || task.PostAuthed? || task.PostClaimed? || task.Lifecycle?
  }

  predicate IsConnect(task: Task) {
    task.ConnectNamed? || task.ConnectAuthed? || task.ConnectListed? || task.ConnectReady?
  }

  /** A tunnel: authenticated, claimed, installed, beating, released. */
  ghost function PostContinues(w: World, e: Event, task: Task): World
    requires w.states != [] && !e.Store? && e.t in w.tasks && w.tasks[e.t] == task
  {
    var db := Database(w);
    match task
    case PostNamed(p) =>
      if e.PostAuthenticates? && Authentic(db, p.id, p.token, e.now)
        then Become(w, e.t, PostAuthed(p, Check(Here(w), e.now)))
      else if e.Gives? then Give(w, e.t) else w
    case PostAuthed(p, auth) =>
      if e.PostClaims? && T.ClaimTunnel(db, p.id, w.gateway, LEASE_SECONDS, e.now).reply.Ok? then
        var w' := Commit(w, T.DoClaim(p.id, w.gateway, LEASE_SECONDS, e.now));
        Become(w', e.t,
          PostClaimed(p, auth, T.ClaimTunnel(db, p.id, w.gateway, LEASE_SECONDS, e.now).reply.value, Here(w')))
      else if e.Gives? then Give(w, e.t) else w
    case PostClaimed(p, auth, generation, at) =>
      if e.PostInstalls? && CanInstall(w.tunnels, p.host, generation)
      then Become(w, e.t, Lifecycle(p, auth, generation, at)).(tunnels := w.tunnels[p.host := Entry(p.id, generation)])
      else if e.Gives? then Give(w, e.t) else w
    case Lifecycle(p, auth, generation, at) =>
      if e.Beats? && OwnsTunnel(w.tunnels, p.host, p.id, generation)
        then Commit(w, T.DoRenewTunnel(p.id, w.gateway, generation, e.now))
      else if e.LifecycleEnds? then Give(w, e.t).(tunnels := Released(w.tunnels, p.host, p.id, generation)) else w
    case _ => w
  }

  /** A CONNECT until it takes its ticket. */
  ghost function ConnectContinues(w: World, e: Event, task: Task): World
    requires w.states != [] && !e.Store? && e.t in w.tasks && w.tasks[e.t] == task
  {
    var db := Database(w);
    match task
    case ConnectNamed(p, a) =>
      if e.ConnectAuthenticates? && Authentic(db, p.id, p.token, e.now)
        then Become(w, e.t, ConnectAuthed(p, a, Check(Here(w), e.now)))
      else if e.Gives? then Give(w, e.t) else w
    case ConnectAuthed(p, a, auth) =>
      if e.ConnectLists? && OwnsTunnel(w.tunnels, p.host, p.id, a.generation)
        then Become(w, e.t, ConnectListed(p, a, auth))
      else if e.Gives? then Give(w, e.t) else w
    case ConnectListed(p, a, auth) =>
      if e.ConnectChecks? && T.TunnelIsCurrent(db, p.id, w.gateway, a.generation, e.now)
        then Become(w, e.t, ConnectReady(p, a, auth))
      else if e.Gives? then Give(w, e.t) else w
    case ConnectReady(p, a, auth) =>
      if e.ConnectTakes? && e.key in w.tickets
        && TicketClaimMatches(w.tickets[e.key], p.id, p.host, a.generation, a.authority, e.now)
      then Become(w, e.t,
        ConnectTook(p, a, auth, Take(e.key, w.tickets[e.key], Check(Here(w), e.now)))).(tickets := w.tickets - {e.key})
      else if e.Gives? then Give(w, e.t) else w
    case _ => w
  }

  /** A CONNECT that holds a ticket. */
  ghost function HolderContinues(w: World, e: Event, task: Task): World
    requires w.states != [] && !e.Store? && e.t in w.tasks && w.tasks[e.t] == task
  {
    var db := Database(w);
    match task
    case ConnectTook(p, a, auth, take) =>
      if e.ConnectOwns? && OwnsTunnel(w.tunnels, p.host, p.id, a.generation)
        then Become(w, e.t, ConnectOwner(p, a, auth, take))
      else if e.Gives? then Give(w, e.t) else w
    case ConnectOwner(p, a, auth, take) =>
      if e.ConnectRechecks? && T.TunnelIsCurrent(db, p.id, w.gateway, a.generation, e.now)
      then Become(w, e.t, ConnectPassed(p, a, auth, take, Check(Here(w), e.now)))
      else if e.Gives? then Give(w, e.t) else w
    case ConnectPassed(p, a, auth, take, current) =>
      if e.Delivers? then Give(w, e.t).(deliveries := w.deliveries + [Delivery(p, a, auth, take, current)])
      else if e.Gives? then Give(w, e.t) else w
    case _ => w
  }

  /** A browser. */
  ghost function BrowserContinues(w: World, e: Event, task: Task): World
    requires w.states != [] && !e.Store? && e.t in w.tasks && w.tasks[e.t] == task
  {
    var db := Database(w);
    match task
    case BrowserNamed(host) =>
      if e.BrowserLooks? && host in w.tunnels then Become(w, e.t, BrowserTunnel(host, w.tunnels[host]))
      else if e.Gives? then Give(w, e.t) else w
    case BrowserTunnel(host, tunnel) =>
      if e.BrowserChecks? && T.TunnelIsCurrent(db, tunnel.id, w.gateway, tunnel.generation, e.now)
        then Become(w, e.t, BrowserCurrent(host, tunnel))
      else if e.Gives? then Give(w, e.t) else w
    case BrowserCurrent(host, tunnel) =>
      if e.BrowserIssues? && e.key !in w.issued then
        var ticket := Ticket(host, tunnel.id, tunnel.generation, e.now + SETUP_MS, e.t);
        Become(w, e.t, BrowserWaiting(host, e.key)).(tickets := w.tickets[e.key := ticket],
          issued := w.issued[e.key := ticket])
      else if e.Gives? then Give(w, e.t) else w
    case BrowserWaiting(host, key) =>
      // Timed out, or received its stream: either way the ticket is removed.
      if e.BrowserLeaves? then Give(w, e.t).(tickets := w.tickets - {key}) else w
    case _ => w
  }

  /** A task ends; a ticket it took is dropped with it. */
  function Give(w: World, t: nat): World {
    w.(tasks := w.tasks - {t})
  }

  ghost predicate Initial(w: World) {
    && |w.states| == 1 && w.actions == [] && EmptyDb(w.states[0])
    && w.tunnels == map[] && w.tickets == map[] && w.tasks == map[] && w.started == {}
    && w.asked == map[] && w.issued == map[] && w.deliveries == []
  }

  ghost predicate IsRun(worlds: seq<World>, events: seq<Event>) {
    && |worlds| == |events| + 1 && Initial(worlds[0])
    && forall i | 0 <= i < |events| :: worlds[i].states != [] && worlds[i + 1] == Next(worlds[i], events[i])
  }

  // ------------------------------------------------------------------
  // Evidence: facts about the past, which no later step can undo
  // ------------------------------------------------------------------

  ghost predicate PeerOk(w: World, p: Peer) {
    p.namedAt < |w.states| && Named(w.states[p.namedAt], p.id, p.host)
  }

  ghost predicate AuthOk(w: World, p: Peer, auth: Check) {
    PeerOk(w, p) && p.namedAt <= auth.at < |w.states| && Authentic(w.states[auth.at], p.id, p.token, auth.now)
  }

  ghost predicate ClaimOk(w: World, p: Peer, auth: Check, generation: nat, at: nat) {
    && AuthOk(w, p, auth) && auth.at < at < |w.states|
    && p.id in w.states[at].installations && w.states[at].installations[p.id].lease.Some?
    && w.states[at].installations[p.id].lease.value.generation == generation
    && w.states[at].installations[p.id].lease.value.gateway == w.gateway
  }

  ghost predicate TakeOk(w: World, p: Peer, a: Attach, auth: Check, take: Take) {
    && AuthOk(w, p, auth) && auth.at <= take.check.at < |w.states|
    && take.key in w.issued && w.issued[take.key] == take.ticket
    && TicketClaimMatches(take.ticket, p.id, p.host, a.generation, a.authority, take.check.now)
  }

  ghost predicate CurrentOk(w: World, p: Peer, a: Attach, auth: Check, take: Take, current: Check) {
    && TakeOk(w, p, a, auth, take) && take.check.at <= current.at < |w.states|
    && T.TunnelIsCurrent(w.states[current.at], p.id, w.gateway, a.generation, current.now)
  }

  ghost predicate AskedFor(w: World, t: nat, host: string) {
    t in w.asked && w.asked[t] == host
  }

  ghost predicate TaskOk(w: World, t: nat, task: Task) {
    match task
    case PostNamed(p) => PeerOk(w, p)
    case PostAuthed(p, auth) => AuthOk(w, p, auth)
    case PostClaimed(p, auth, g, at) => ClaimOk(w, p, auth, g, at)
    case Lifecycle(p, auth, g, at) => ClaimOk(w, p, auth, g, at)
    case ConnectNamed(p, _) => PeerOk(w, p)
    case ConnectAuthed(p, _, auth) => AuthOk(w, p, auth)
    case ConnectListed(p, _, auth) => AuthOk(w, p, auth)
    case ConnectReady(p, _, auth) => AuthOk(w, p, auth)
    case ConnectTook(p, a, auth, take) => TakeOk(w, p, a, auth, take)
    case ConnectOwner(p, a, auth, take) => TakeOk(w, p, a, auth, take)
    case ConnectPassed(p, a, auth, take, current) => CurrentOk(w, p, a, auth, take, current)
    case BrowserNamed(host) => AskedFor(w, t, host)
    case BrowserTunnel(host, _) => AskedFor(w, t, host)
    case BrowserCurrent(host, _) => AskedFor(w, t, host)
    case BrowserWaiting(host, key) => key in w.issued && w.issued[key].browser == t && w.issued[key].host == host
  }

  ghost predicate DeliveryOk(w: World, d: Delivery) {
    CurrentOk(w, d.p, d.a, d.auth, d.take, d.current)
  }

  ghost predicate EvidenceInv(w: World) {
    && Fencing.IsRun(w.states, w.actions)
    && (forall t | t in w.tasks :: TaskOk(w, t, w.tasks[t]))
    && (forall i | 0 <= i < |w.deliveries| :: DeliveryOk(w, w.deliveries[i]))
    && (forall k | k in w.issued :: AskedFor(w, w.issued[k].browser, w.issued[k].host))
  }

  /** `w'` remembers everything `w` does. */
  ghost predicate Remembers(w: World, w': World) {
    && w'.gateway == w.gateway && w.states <= w'.states
    && (forall k | k in w.issued :: k in w'.issued && w'.issued[k] == w.issued[k])
    && (forall t | t in w.asked :: t in w'.asked && w'.asked[t] == w.asked[t])
  }

  lemma EvidenceStays(w: World, w': World, t: nat, task: Task)
    requires Remembers(w, w') && TaskOk(w, t, task)
    ensures TaskOk(w', t, task)
  {
  }

  lemma DeliveryStays(w: World, w': World, d: Delivery)
    requires Remembers(w, w') && DeliveryOk(w, d)
    ensures DeliveryOk(w', d)
  {
  }

  // ------------------------------------------------------------------
  // Where each ticket is
  // ------------------------------------------------------------------

  function HeldKey(task: Task): Option<nat> {
    match task
    case ConnectTook(_, _, _, take) => Some(take.key)
    case ConnectOwner(_, _, _, take) => Some(take.key)
    case ConnectPassed(_, _, _, take, _) => Some(take.key)
    case _ => None
  }

  predicate Holds(w: World, t: nat, k: nat) {
    t in w.tasks && HeldKey(w.tasks[t]) == Some(k)
  }

  predicate Delivered(w: World, i: int, k: nat) {
    0 <= i < |w.deliveries| && w.deliveries[i].take.key == k
  }

  /** A browser that has not issued its ticket yet. */
  predicate Early(task: Task) {
    task.BrowserNamed? || task.BrowserTunnel? || task.BrowserCurrent?
  }

  /** A ticket is in the map, with one CONNECT, or delivered: never in two places. */
  ghost predicate TicketsInv(w: World) {
    && (forall k | k in w.tickets :: k in w.issued && w.issued[k] == w.tickets[k])
    && (forall t, k | Holds(w, t, k) :: k !in w.tickets)
    && (forall t, u, k | Holds(w, t, k) && Holds(w, u, k) :: t == u)
    && (forall i, k | Delivered(w, i, k) :: k !in w.tickets)
    && (forall i, t, k | Delivered(w, i, k) && Holds(w, t, k) :: false)
    && (forall i, j, k | Delivered(w, i, k) && Delivered(w, j, k) :: i == j)
  }

  ghost predicate BrowsersInv(w: World) {
    && (forall t | t in w.tasks :: t in w.started)
    && (forall t | t in w.asked :: t in w.started)
    && (forall k | k in w.issued :: w.issued[k].browser in w.started)
    && (forall k | k in w.issued && w.issued[k].browser in w.tasks :: !Early(w.tasks[w.issued[k].browser]))
    && (forall j, k | j in w.issued && k in w.issued && w.issued[j].browser == w.issued[k].browser :: j == k)
    && (forall k | k in w.tickets ::
          k in w.issued && w.issued[k].browser in w.tasks
            && w.tasks[w.issued[k].browser] == BrowserWaiting(w.issued[k].host, k))
  }

  predicate RunsTunnel(w: World, t: nat, host: string, tunnel: Tunnel) {
    && t in w.tasks && w.tasks[t].Lifecycle? && w.tasks[t].p.host == host
    && w.tasks[t].p.id == tunnel.id && w.tasks[t].generation == tunnel.generation
  }

  ghost predicate TunnelsInv(w: World) {
    forall h | h in w.tunnels :: exists t :: RunsTunnel(w, t, h, w.tunnels[h])
  }

  ghost predicate Inv(w: World) {
    EvidenceInv(w) && TicketsInv(w) && BrowsersInv(w) && TunnelsInv(w)
  }

  // ------------------------------------------------------------------
  // Every step keeps the invariant
  // ------------------------------------------------------------------

  lemma EvidenceKeeps(w: World, w': World)
    requires EvidenceInv(w) && Remembers(w, w') && Fencing.IsRun(w'.states, w'.actions)
    requires forall t | t in w'.tasks :: (t in w.tasks && w'.tasks[t] == w.tasks[t]) || TaskOk(w', t, w'.tasks[t])
    requires w.deliveries <= w'.deliveries
    requires forall i | |w.deliveries| <= i < |w'.deliveries| :: DeliveryOk(w', w'.deliveries[i])
    requires forall k | k in w'.issued && k !in w.issued :: AskedFor(w', w'.issued[k].browser, w'.issued[k].host)
    ensures EvidenceInv(w')
  {
    hide TaskOk, DeliveryOk, Fencing.IsRun;
    forall t | t in w'.tasks ensures TaskOk(w', t, w'.tasks[t]) {
      if t in w.tasks && w'.tasks[t] == w.tasks[t] {
        EvidenceStays(w, w', t, w.tasks[t]);
      }
    }
    forall i | 0 <= i < |w'.deliveries| ensures DeliveryOk(w', w'.deliveries[i]) {
      if i < |w.deliveries| {
        DeliveryStays(w, w', w.deliveries[i]);
      }
    }
  }

  lemma CommitRuns(w: World, a: T.Action)
    requires Fencing.IsRun(w.states, w.actions)
    ensures Fencing.IsRun(Commit(w, a).states, Commit(w, a).actions)
  {
    hide T.Step;
    var w' := Commit(w, a);
    forall i | 0 <= i < |w'.actions| ensures w'.states[i + 1] == T.Step(w'.states[i], w'.actions[i]) {
      if i < |w.actions| {
        assert w.states[i + 1] == T.Step(w.states[i], w.actions[i]);
      }
    }
  }

  /** Tickets stay where they were, or leave. */
  lemma TicketsKeep(w: World, w': World)
    requires TicketsInv(w) && w'.issued == w.issued && w'.deliveries == w.deliveries
    requires forall k | k in w'.tickets :: k in w.tickets && w'.tickets[k] == w.tickets[k]
    requires forall t, k | Holds(w', t, k) :: Holds(w, t, k)
    ensures TicketsInv(w')
  {
    assert forall i, k :: Delivered(w', i, k) <==> Delivered(w, i, k);
  }

  lemma BrowsersKeep(w: World, w': World)
    requires BrowsersInv(w) && w'.issued == w.issued && w.started <= w'.started
    requires forall t | t in w'.tasks || t in w'.asked :: t in w'.started
    requires forall t | t in w'.tasks && Early(w'.tasks[t]) :: t !in w.started || (t in w.tasks && Early(w.tasks[t]))
    requires forall k | k in w'.tickets :: k in w.tickets
    requires forall t | t in w.tasks && w.tasks[t].BrowserWaiting? && w.tasks[t].key in w'.tickets ::
      t in w'.tasks && w'.tasks[t] == w.tasks[t]
    ensures BrowsersInv(w')
  {
    hide Early;
  }

  lemma TasksStarted(w: World)
    requires BrowsersInv(w)
    ensures forall t | t in w.tasks || t in w.asked :: t in w.started
  {
  }

  lemma TunnelsKeep(w: World, w': World)
    requires TunnelsInv(w)
    requires forall h | h in w'.tunnels :: h in w.tunnels && w'.tunnels[h] == w.tunnels[h]
    requires forall t, h | h in w'.tunnels && RunsTunnel(w, t, h, w.tunnels[h]) :: RunsTunnel(w', t, h, w.tunnels[h])
    ensures TunnelsInv(w')
  {
    hide RunsTunnel;
    forall h | h in w'.tunnels ensures exists t :: RunsTunnel(w', t, h, w'.tunnels[h]) {
      var t :| RunsTunnel(w, t, h, w.tunnels[h]);
      assert RunsTunnel(w', t, h, w'.tunnels[h]);
    }
  }

  lemma CommitKeeps(w: World, a: T.Action)
    requires Inv(w) && w.states != []
    ensures Inv(Commit(w, a))
  {
    hide T.Step, TaskOk, DeliveryOk, Fencing.IsRun, TicketsInv, BrowsersInv, TunnelsInv;
    CommitRuns(w, a);
    TasksStarted(w);
    var w' := Commit(w, a);
    EvidenceKeeps(w, w');
    TicketsKeep(w, w');
    BrowsersKeep(w, w');
    TunnelsKeep(w, w');
  }

  /** A task moves on, or begins, without touching a ticket or a tunnel. */
  lemma BecomeKeeps(w: World, w': World, t: nat, task: Task)
    requires Inv(w) && w' == Become(w, t, task).(started := w'.started, asked := w'.asked) && Remembers(w, w')
    requires w.started <= w'.started
    requires TaskOk(w', t, task) && t in w'.started && !task.BrowserWaiting? && !task.Lifecycle?
    requires forall u | u in w'.asked && u !in w.asked :: u in w'.started
    requires if t in w.tasks then
        var prior := w.tasks[t];
        HeldKey(task) == HeldKey(prior) && (Early(task) ==> Early(prior)) && !prior.Lifecycle? && !prior.BrowserWaiting?
      else t !in w.started && HeldKey(task).None?
    ensures Inv(w')
  {
    hide TaskOk, DeliveryOk, Fencing.IsRun, TicketsInv, BrowsersInv, TunnelsInv, AskedFor;
    TasksStarted(w);
    EvidenceKeeps(w, w');
    hide EvidenceInv;
    TicketsKeep(w, w');
    BrowsersKeep(w, w');
    TunnelsKeep(w, w');
  }

  lemma GiveKeeps(w: World, t: nat)
    requires Inv(w) && t in w.tasks && !w.tasks[t].Lifecycle? && !w.tasks[t].BrowserWaiting?
    ensures Inv(Give(w, t))
  {
    hide TaskOk, DeliveryOk, Fencing.IsRun, TicketsInv, BrowsersInv, TunnelsInv, AskedFor;
    var w' := Give(w, t);
    TasksStarted(w);
    EvidenceKeeps(w, w');
    hide EvidenceInv;
    TicketsKeep(w, w');
    BrowsersKeep(w, w');
    TunnelsKeep(w, w');
  }

  lemma InstallKeeps(w: World, w': World, t: nat, p: Peer, auth: Check, generation: nat, at: nat)
    requires Inv(w) && t in w.tasks && w.tasks[t] == PostClaimed(p, auth, generation, at)
    requires w' == Become(w, t,
      Lifecycle(p, auth, generation, at)).(tunnels := w.tunnels[p.host := Entry(p.id, generation)])
    ensures Inv(w')
  {
    hide TaskOk, DeliveryOk, Fencing.IsRun, TicketsInv, BrowsersInv, TunnelsInv, AskedFor;
    TasksStarted(w);
    ClaimedRuns(w, w', t, p, auth, generation, at);
    EvidenceKeeps(w, w');
    hide EvidenceInv;
    TicketsKeep(w, w');
    BrowsersKeep(w, w');
    InstallTunnels(w, w', t, p.host);
  }

  lemma ClaimedRuns(w: World, w': World, t: nat, p: Peer, auth: Check, generation: nat, at: nat)
    requires w'.states == w.states && w'.gateway == w.gateway && TaskOk(w, t, PostClaimed(p, auth, generation, at))
    ensures TaskOk(w', t, Lifecycle(p, auth, generation, at))
  {
  }

  lemma InstallTunnels(w: World, w': World, t: nat, host: string)
    requires TunnelsInv(w) && host in w'.tunnels && RunsTunnel(w', t, host, w'.tunnels[host])
    requires forall h | h in w'.tunnels && h != host :: h in w.tunnels && w'.tunnels[h] == w.tunnels[h]
    requires forall u | u in w.tasks && w.tasks[u].Lifecycle? :: u in w'.tasks && w'.tasks[u] == w.tasks[u]
    ensures TunnelsInv(w')
  {
    forall h | h in w'.tunnels ensures exists u :: RunsTunnel(w', u, h, w'.tunnels[h]) {
      if h != host {
        var u :| RunsTunnel(w, u, h, w.tunnels[h]);
        assert RunsTunnel(w', u, h, w'.tunnels[h]);
      }
    }
  }

  lemma EndKeeps(w: World, t: nat, p: Peer, auth: Check, generation: nat, at: nat)
    requires Inv(w) && t in w.tasks && w.tasks[t] == Lifecycle(p, auth, generation, at)
    ensures Inv(Give(w, t).(tunnels := Released(w.tunnels, p.host, p.id, generation)))
  {
    hide TaskOk, DeliveryOk, Fencing.IsRun, TicketsInv, BrowsersInv, AskedFor, TunnelsInv;
    TasksStarted(w);
    var w' := Give(w, t).(tunnels := Released(w.tunnels, p.host, p.id, generation));
    EvidenceKeeps(w, w');
    hide EvidenceInv;
    TicketsKeep(w, w');
    BrowsersKeep(w, w');
    TunnelsKeep(w, w');
  }

  lemma TakeKeeps(w: World, w': World, t: nat, p: Peer, a: Attach, auth: Check, take: Take)
    requires Inv(w) && w.states != [] && t in w.tasks && w.tasks[t] == ConnectReady(p, a, auth)
    requires take.key in w.tickets && take.ticket == w.tickets[take.key] && take.check.at == Here(w)
    requires TicketClaimMatches(take.ticket, p.id, p.host, a.generation, a.authority, take.check.now)
    requires w' == Become(w, t, ConnectTook(p, a, auth, take)).(tickets := w.tickets - {take.key})
    ensures Inv(w')
  {
    hide TaskOk, DeliveryOk, Fencing.IsRun, TicketsInv, BrowsersInv, TunnelsInv, AskedFor, TicketClaimMatches;
    TasksStarted(w);
    TicketKnown(w, take.key);
    TakeEvidence(w, w', t, p, a, auth, take);
    EvidenceKeeps(w, w');
    hide EvidenceInv;
    BrowsersKeep(w, w');
    TunnelsKeep(w, w');
    TakeTickets(w, w', t, take.key);
  }

  lemma TicketKnown(w: World, key: nat)
    requires TicketsInv(w) && key in w.tickets
    ensures key in w.issued && w.issued[key] == w.tickets[key]
  {
  }

  lemma TakeEvidence(w: World, w': World, t: nat, p: Peer, a: Attach, auth: Check, take: Take)
    requires w.states != [] && w'.states == w.states && w'.gateway == w.gateway && w'.issued == w.issued
    requires TaskOk(w, t, ConnectReady(p, a, auth)) && take.key in w.issued && w.issued[take.key] == take.ticket
    requires take.check.at == Here(w)
    requires TicketClaimMatches(take.ticket, p.id, p.host, a.generation, a.authority, take.check.now)
    ensures TaskOk(w', t, ConnectTook(p, a, auth, take))
  {
  }

  lemma TakeTickets(w: World, w': World, t: nat, key: nat)
    requires TicketsInv(w) && key in w.tickets && w'.tickets == w.tickets - {key} && w'.issued == w.issued
    requires w'.deliveries == w.deliveries
    requires forall u, k | Holds(w', u, k) :: if u == t then k == key else Holds(w, u, k)
    ensures TicketsInv(w')
  {
    hide Holds;
    assert forall i, k :: Delivered(w', i, k) <==> Delivered(w, i, k);
  }

  lemma DeliverKeeps(w: World, w': World, t: nat, d: Delivery)
    requires Inv(w) && t in w.tasks && w.tasks[t] == ConnectPassed(d.p, d.a, d.auth, d.take, d.current)
    requires w' == Give(w, t).(deliveries := w.deliveries + [d])
    ensures Inv(w')
  {
    hide TaskOk, DeliveryOk, Fencing.IsRun, TicketsInv, BrowsersInv, TunnelsInv, AskedFor;
    TasksStarted(w);
    PassedDelivers(w, w', t, d);
    EvidenceKeeps(w, w');
    hide EvidenceInv;
    BrowsersKeep(w, w');
    TunnelsKeep(w, w');
    DeliverTickets(w, w', t, d);
  }

  lemma PassedDelivers(w: World, w': World, t: nat, d: Delivery)
    requires w'.states == w.states && w'.gateway == w.gateway && w'.issued == w.issued
    requires TaskOk(w, t, ConnectPassed(d.p, d.a, d.auth, d.take, d.current))
    ensures DeliveryOk(w', d)
  {
  }

  lemma DeliverTickets(w: World, w': World, t: nat, d: Delivery)
    requires TicketsInv(w) && Holds(w, t, d.take.key) && w'.tickets == w.tickets && w'.issued == w.issued
    requires w'.deliveries == w.deliveries + [d]
    requires forall u, k | Holds(w', u, k) :: u != t && Holds(w, u, k)
    ensures TicketsInv(w')
  {
    hide Holds;
    assert forall i, k | Delivered(w', i, k) :: if i == |w.deliveries| then k == d.take.key else Delivered(w, i, k);
    hide Delivered;
  }

  lemma IssueKeeps(w: World, w': World, t: nat, tunnel: Tunnel, key: nat, ticket: Ticket)
    requires Inv(w) && t in w.tasks && w.tasks[t] == BrowserCurrent(ticket.host, tunnel) && key !in w.issued
    requires ticket.browser == t
    requires w' == Become(w, t, BrowserWaiting(ticket.host, key)).(tickets := w.tickets[key := ticket],
      issued := w.issued[key := ticket])
    ensures Inv(w')
  {
    hide TaskOk, DeliveryOk, Fencing.IsRun, TicketsInv, BrowsersInv, TunnelsInv;
    TasksStarted(w);
    OthersKnown(w);
    assert TaskOk(w, t, BrowserCurrent(ticket.host, tunnel));
    IssueEvidence(w, w', t, tunnel, key, ticket);
    EvidenceKeeps(w, w');
    hide EvidenceInv;
    TunnelsKeep(w, w');
    IssueBrowsers(w, w', t, key, ticket);
    IssueTickets(w, w', key, ticket);
  }

  lemma IssueEvidence(w: World, w': World, t: nat, tunnel: Tunnel, key: nat, ticket: Ticket)
    requires TaskOk(w, t, BrowserCurrent(ticket.host, tunnel)) && ticket.browser == t
    requires w'.asked == w.asked && w'.issued == w.issued[key := ticket]
    ensures AskedFor(w', t, ticket.host) && TaskOk(w', t, BrowserWaiting(ticket.host, key))
  {
  }

  lemma IssueTickets(w: World, w': World, key: nat, ticket: Ticket)
    requires TicketsInv(w) && key !in w.issued && w'.tickets == w.tickets[key := ticket]
    requires w'.issued == w.issued[key := ticket]
    requires w'.deliveries == w.deliveries && forall u, k | Holds(w', u, k) :: Holds(w, u, k)
    requires forall u, k | Holds(w, u, k) :: k in w.issued
    requires forall i, k | Delivered(w, i, k) :: k in w.issued
    ensures TicketsInv(w')
  {
    hide Holds;
    assert forall i, k :: Delivered(w', i, k) <==> Delivered(w, i, k);
    hide Delivered;
  }

  /** Whatever a CONNECT holds or was given is a ticket that was issued. */
  lemma OthersKnown(w: World)
    requires EvidenceInv(w)
    ensures forall t, k | Holds(w, t, k) :: k in w.issued
    ensures forall i, k | Delivered(w, i, k) :: k in w.issued
  {
    hide Fencing.IsRun, AskedFor, AuthOk;
    forall t, k | Holds(w, t, k) ensures k in w.issued {
      assert TaskOk(w, t, w.tasks[t]);
    }
    forall i, k | Delivered(w, i, k) ensures k in w.issued {
      assert DeliveryOk(w, w.deliveries[i]);
    }
  }

  lemma IssueBrowsers(w: World, w': World, t: nat, key: nat, ticket: Ticket)
    requires BrowsersInv(w) && t in w.tasks && Early(w.tasks[t]) && key !in w.issued && ticket.browser == t
    requires w'.started == w.started && w'.asked == w.asked
    requires w'.tasks == w.tasks[t := BrowserWaiting(ticket.host, key)]
    requires w'.tickets == w.tickets[key := ticket] && w'.issued == w.issued[key := ticket]
    ensures BrowsersInv(w')
  {
    assert !Early(BrowserWaiting(ticket.host, key));
    assert forall k | k in w.issued :: w.issued[k].browser != t;
    hide Early;
  }

  lemma LeaveKeeps(w: World, t: nat, host: string, key: nat)
    requires Inv(w) && t in w.tasks && w.tasks[t] == BrowserWaiting(host, key)
    ensures Inv(Give(w, t).(tickets := w.tickets - {key}))
  {
    hide TaskOk, DeliveryOk, Fencing.IsRun, TicketsInv, BrowsersInv, AskedFor, TunnelsInv;
    TasksStarted(w);
    var w' := Give(w, t).(tickets := w.tickets - {key});
    EvidenceKeeps(w, w');
    hide EvidenceInv;
    TicketsKeep(w, w');
    BrowsersKeep(w, w');
    TunnelsKeep(w, w');
  }

  lemma TaskAt(w: World, t: nat)
    requires Inv(w) && t in w.tasks
    ensures TaskOk(w, t, w.tasks[t]) && t in w.started && w.states != []
  {
    hide TaskOk, DeliveryOk, AskedFor;
  }

  /** A task moves to a state whose evidence it now has. */
  lemma MoveKeeps(w: World, t: nat, task: Task)
    requires Inv(w) && t in w.tasks && TaskOk(w, t, task) && !task.BrowserWaiting? && !task.Lifecycle?
    requires HeldKey(task) == HeldKey(w.tasks[t]) && (Early(task) ==> Early(w.tasks[t]))
    requires !w.tasks[t].Lifecycle? && !w.tasks[t].BrowserWaiting?
    ensures Inv(Become(w, t, task))
  {
    hide Inv, TaskOk;
    TaskAt(w, t);
    EvidenceStays(w, Become(w, t, task), t, task);
    BecomeKeeps(w, Become(w, t, task), t, task);
  }

  lemma ArrivalKeeps(w: World, e: Event)
    requires Inv(w) && w.states != [] && (e.PostArrives? || e.ConnectArrives? || e.BrowserArrives?)
    ensures Inv(Next(w, e))
  {
    hide Inv, T.Step;
    var w' := Next(w, e);
    if w' != w {
      TasksKnown(w);
      BecomeKeeps(w, w', e.t, w'.tasks[e.t]);
    }
  }

  lemma TasksKnown(w: World)
    requires Inv(w)
    ensures forall t | t in w.tasks || t in w.asked :: t in w.started
  {
    hide EvidenceInv, TicketsInv, TunnelsInv;
  }

  lemma PostKeeps(w: World, e: Event)
    requires Inv(w) && w.states != [] && !e.Store? && e.t in w.tasks
    requires IsPost(w.tasks[e.t])
    ensures Inv(Continue(w, e, w.tasks[e.t]))
  {
    hide Inv, Authentic, T.Step, T.ClaimTunnel, ConnectContinues, HolderContinues, BrowserContinues;
    var t, task := e.t, w.tasks[e.t];
    TaskAt(w, t);
    match task
    case PostNamed(p) =>
      if e.PostAuthenticates? && Authentic(Database(w), p.id, p.token, e.now) {
        MoveKeeps(w, t, PostAuthed(p, Check(Here(w), e.now)));
      } else if e.Gives? {
        GiveKeeps(w, t);
      }
    case PostAuthed(p, auth) =>
      if e.PostClaims? && T.ClaimTunnel(Database(w), p.id, w.gateway, LEASE_SECONDS, e.now).reply.Ok? {
        var a := T.DoClaim(p.id, w.gateway, LEASE_SECONDS, e.now);
        CommitKeeps(w, a);
        ClaimEvidence(w, t, p, auth, e.now);
        MoveKeeps(Commit(w, a), t,
          PostClaimed(p, auth, T.ClaimTunnel(Database(w), p.id, w.gateway, LEASE_SECONDS, e.now).reply.value,
            Here(Commit(w, a))));
      } else if e.Gives? {
        GiveKeeps(w, t);
      }
    case PostClaimed(p, auth, generation, at) =>
      if e.PostInstalls? && CanInstall(w.tunnels, p.host, generation) {
        InstallKeeps(w, Continue(w, e, task), t, p, auth, generation, at);
      } else if e.Gives? {
        GiveKeeps(w, t);
      }
    case Lifecycle(p, auth, generation, at) =>
      if e.Beats? && OwnsTunnel(w.tunnels, p.host, p.id, generation) {
        CommitKeeps(w, T.DoRenewTunnel(p.id, w.gateway, generation, e.now));
      } else if e.LifecycleEnds? {
        EndKeeps(w, t, p, auth, generation, at);
      }
  }

  lemma ClaimEvidence(w: World, t: nat, p: Peer, auth: Check, now: Instant)
    requires w.states != [] && TaskOk(w, t, PostAuthed(p, auth))
    requires T.ClaimTunnel(Database(w), p.id, w.gateway, LEASE_SECONDS, now).reply.Ok?
    ensures var w' := Commit(w, T.DoClaim(p.id, w.gateway, LEASE_SECONDS, now));
      TaskOk(w', t,
        PostClaimed(p, auth, T.ClaimTunnel(Database(w), p.id, w.gateway, LEASE_SECONDS, now).reply.value, Here(w')))
  {
    hide Authentic, Named;
  }

  lemma ConnectKeeps(w: World, e: Event)
    requires Inv(w) && w.states != [] && !e.Store? && e.t in w.tasks
    requires IsConnect(w.tasks[e.t])
    ensures Inv(Continue(w, e, w.tasks[e.t]))
  {
    hide Inv, Authentic, T.Step, T.TunnelIsCurrent, TicketClaimMatches, Named, PostContinues, HolderContinues,
      BrowserContinues;
    var t, task := e.t, w.tasks[e.t];
    TaskAt(w, t);
    match task
    case ConnectNamed(p, a) =>
      if e.ConnectAuthenticates? && Authentic(Database(w), p.id, p.token, e.now) {
        MoveKeeps(w, t, ConnectAuthed(p, a, Check(Here(w), e.now)));
      } else if e.Gives? {
        GiveKeeps(w, t);
      }
    case ConnectAuthed(p, a, auth) =>
      if e.ConnectLists? && OwnsTunnel(w.tunnels, p.host, p.id, a.generation) {
        MoveKeeps(w, t, ConnectListed(p, a, auth));
      } else if e.Gives? {
        GiveKeeps(w, t);
      }
    case ConnectListed(p, a, auth) =>
      if e.ConnectChecks? && T.TunnelIsCurrent(Database(w), p.id, w.gateway, a.generation, e.now) {
        MoveKeeps(w, t, ConnectReady(p, a, auth));
      } else if e.Gives? {
        GiveKeeps(w, t);
      }
    case ConnectReady(p, a, auth) =>
      if e.ConnectTakes? && e.key in w.tickets
        && TicketClaimMatches(w.tickets[e.key], p.id, p.host, a.generation, a.authority, e.now) {
        TakeKeeps(w, Continue(w, e, task), t, p, a, auth, Take(e.key, w.tickets[e.key], Check(Here(w), e.now)));
      } else if e.Gives? {
        GiveKeeps(w, t);
      }
  }

  lemma HoldingKeeps(w: World, e: Event)
    requires Inv(w) && w.states != [] && !e.Store? && e.t in w.tasks
    requires HeldKey(w.tasks[e.t]).Some?
    ensures Inv(Continue(w, e, w.tasks[e.t]))
  {
    hide Inv, AuthOk, T.Step, T.TunnelIsCurrent, TicketClaimMatches, PostContinues, ConnectContinues, BrowserContinues;
    var t, task := e.t, w.tasks[e.t];
    TaskAt(w, t);
    match task
    case ConnectTook(p, a, auth, take) =>
      if e.ConnectOwns? && OwnsTunnel(w.tunnels, p.host, p.id, a.generation) {
        MoveKeeps(w, t, ConnectOwner(p, a, auth, take));
      } else if e.Gives? {
        GiveKeeps(w, t);
      }
    case ConnectOwner(p, a, auth, take) =>
      if e.ConnectRechecks? && T.TunnelIsCurrent(Database(w), p.id, w.gateway, a.generation, e.now) {
        MoveKeeps(w, t, ConnectPassed(p, a, auth, take, Check(Here(w), e.now)));
      } else if e.Gives? {
        GiveKeeps(w, t);
      }
    case ConnectPassed(p, a, auth, take, current) =>
      if e.Delivers? {
        DeliverKeeps(w, Continue(w, e, task), t, Delivery(p, a, auth, take, current));
      } else if e.Gives? {
        GiveKeeps(w, t);
      }
  }

  lemma BrowserKeeps(w: World, e: Event)
    requires Inv(w) && w.states != [] && !e.Store? && e.t in w.tasks
    requires Early(w.tasks[e.t]) || w.tasks[e.t].BrowserWaiting?
    ensures Inv(Continue(w, e, w.tasks[e.t]))
  {
    hide Inv, T.Step, T.TunnelIsCurrent, PostContinues, ConnectContinues, HolderContinues;
    var t, task := e.t, w.tasks[e.t];
    TaskAt(w, t);
    match task
    case BrowserNamed(host) =>
      if e.BrowserLooks? && host in w.tunnels {
        MoveKeeps(w, t, BrowserTunnel(host, w.tunnels[host]));
      } else if e.Gives? {
        GiveKeeps(w, t);
      }
    case BrowserTunnel(host, tunnel) =>
      if e.BrowserChecks? && T.TunnelIsCurrent(Database(w), tunnel.id, w.gateway, tunnel.generation, e.now) {
        MoveKeeps(w, t, BrowserCurrent(host, tunnel));
      } else if e.Gives? {
        GiveKeeps(w, t);
      }
    case BrowserCurrent(host, tunnel) =>
      if e.BrowserIssues? && e.key !in w.issued {
        IssueKeeps(w, Continue(w, e, task), t, tunnel, e.key,
          Ticket(host, tunnel.id, tunnel.generation, e.now + SETUP_MS, t));
      } else if e.Gives? {
        GiveKeeps(w, t);
      }
    case BrowserWaiting(host, key) =>
      if e.BrowserLeaves? {
        LeaveKeeps(w, t, host, key);
      }
  }

  lemma NextKeeps(w: World, e: Event)
    requires Inv(w) && w.states != []
    ensures Inv(Next(w, e)) && Next(w, e).states != []
  {
    hide Inv, Continue, Commit, Begin;
    if e.Store? {
      CommitKeeps(w, e.a);
    } else if e.PostArrives? || e.ConnectArrives? || e.BrowserArrives? {
      ArrivalKeeps(w, e);
    } else if e.t in w.tasks {
      var task := w.tasks[e.t];
      if IsPost(task) {
        PostKeeps(w, e);
      } else if IsConnect(task) {
        ConnectKeeps(w, e);
      } else if HeldKey(task).Some? {
        HoldingKeeps(w, e);
      } else {
        BrowserKeeps(w, e);
      }
    }
    InvRooted(Next(w, e));
  }

  lemma InvRooted(w: World)
    requires Inv(w)
    ensures w.states != []
  {
    hide TaskOk, DeliveryOk;
  }

  lemma {:induction false} RunKeeps(worlds: seq<World>, events: seq<Event>, n: nat)
    requires IsRun(worlds, events) && n < |worlds|
    ensures Inv(worlds[n])
  {
    hide Next;
    if n > 0 {
      hide Inv;
      RunKeeps(worlds, events, n - 1);
      NextKeeps(worlds[n - 1], events[n - 1]);
    }
  }

  // ------------------------------------------------------------------
  // What a run guarantees
  // ------------------------------------------------------------------

  /** No misrouting. Every delivered browser asked for the host whose one owner, then and
      now, the CONNECT was authenticated as; the CONNECT named the ticket's exact
      generation and authority before the deadline; and the lease was current at a
      check made after the ticket was taken. */
  lemma NoMisrouting(worlds: seq<World>, events: seq<Event>, n: nat, i: nat)
    requires IsRun(worlds, events) && n < |worlds| && i < |worlds[n].deliveries|
    ensures var w, d := worlds[n], worlds[n].deliveries[i];
      && w.states != []
      && AskedFor(w, d.take.ticket.browser, d.p.host)
      && Owner(Database(w), d.p.host, d.p.id)
      && d.p.namedAt <= d.auth.at <= d.take.check.at <= d.current.at < |w.states|
      && Authentic(w.states[d.auth.at], d.p.id, d.p.token, d.auth.now)
      && d.take.check.now < d.take.ticket.deadline && d.a.authority == Some(d.p.host)
      && d.take.ticket.host == d.p.host && d.take.ticket.id == d.p.id && d.take.ticket.generation == d.a.generation
      && T.TunnelIsCurrent(w.states[d.current.at], d.p.id, w.gateway, d.a.generation, d.current.now)
  {
    RunKeeps(worlds, events, n);
    var w, d := worlds[n], worlds[n].deliveries[i];
    hide IsRun, TicketsInv, BrowsersInv, TunnelsInv, Fencing.IsRun, TaskOk, Authentic, T.TunnelIsCurrent;
    assert DeliveryOk(w, d);
    InvRooted(w);
    OwnerStays(w, d.p);
  }

  /** `id` is the one installation with hostname `host`. */
  ghost predicate Owner(db: Db, host: string, id: Uuid) {
    && id in db.installations && db.installations[id].hostname == host
    && forall other | other in db.installations && db.installations[other].hostname == host :: other == id
  }

  lemma OwnerStays(w: World, p: Peer)
    requires Fencing.IsRun(w.states, w.actions) && PeerOk(w, p)
    ensures w.states != [] && Owner(Database(w), p.host, p.id)
  {
    hide T.Step;
    Fencing.InstallationsStay(w.states, w.actions, p.namedAt, |w.states| - 1, p.id);
    Fencing.RunInv(w.states, w.actions, |w.states| - 1);
    hide Fencing.RowInv, Fencing.OperationsInv;
  }

  /** A ticket, and with it its browser, is delivered at most once. */
  lemma DeliveredOnce(worlds: seq<World>, events: seq<Event>, n: nat, i: nat, j: nat)
    requires IsRun(worlds, events) && n < |worlds| && i < |worlds[n].deliveries| && j < |worlds[n].deliveries|
    requires worlds[n].deliveries[i].take.key == worlds[n].deliveries[j].take.key
          || worlds[n].deliveries[i].take.ticket.browser == worlds[n].deliveries[j].take.ticket.browser
    ensures i == j
  {
    RunKeeps(worlds, events, n);
    var w := worlds[n];
    hide IsRun, TunnelsInv, Fencing.IsRun, TaskOk, AuthOk, T.TunnelIsCurrent;
    assert DeliveryOk(w, w.deliveries[i]) && DeliveryOk(w, w.deliveries[j]);
    assert w.deliveries[i].take.key == w.deliveries[j].take.key;
    assert Delivered(w, i, w.deliveries[i].take.key) && Delivered(w, j, w.deliveries[i].take.key);
  }

  /** A ticket leaves the map only with the CONNECT that matches it or with its own browser,
      so a CONNECT that does not match leaves it intact. */
  lemma TicketLeavesOnly(worlds: seq<World>, events: seq<Event>, n: nat, key: nat)
    requires IsRun(worlds, events) && n < |events| && key in worlds[n].tickets && key !in worlds[n + 1].tickets
    ensures var w, e, ticket := worlds[n], events[n], worlds[n].tickets[key];
      || (e.BrowserLeaves? && e.t == ticket.browser)
      || (e.ConnectTakes? && e.key == key && e.t in w.tasks && w.tasks[e.t].ConnectReady?
          && var c := w.tasks[e.t];
          && TicketClaimMatches(ticket, c.p.id, c.p.host, c.a.generation, c.a.authority, e.now)
          && Holds(worlds[n + 1], e.t, key))
  {
    hide Inv, Next, T.Step, TicketClaimMatches;
    RunKeeps(worlds, events, n);
    var w, e := worlds[n], events[n];
    assert worlds[n + 1] == Next(w, e);
    TicketMoves(w, e, key);
    TaskAt(w, e.t);
    TicketFrom(w, key);
  }

  lemma TicketFrom(w: World, key: nat)
    requires Inv(w) && key in w.tickets
    ensures key in w.issued && w.issued[key] == w.tickets[key]
  {
    hide EvidenceInv, BrowsersInv, TunnelsInv;
  }

  lemma TicketMoves(w: World, e: Event, key: nat)
    requires w.states != [] && key in w.tickets && key !in Next(w, e).tickets
    ensures !e.Store? && e.t in w.tasks
    ensures
      || (e.BrowserLeaves? && w.tasks[e.t].BrowserWaiting? && w.tasks[e.t].key == key)
      || (e.ConnectTakes? && e.key == key && w.tasks[e.t].ConnectReady? && Holds(Next(w, e), e.t, key)
          && var c := w.tasks[e.t];
          TicketClaimMatches(w.tickets[key], c.p.id, c.p.host, c.a.generation, c.a.authority, e.now))
  {
    hide T.Step, Named, TicketClaimMatches, Continue;
    if !e.Store? && e.t in w.tasks {
      var task := w.tasks[e.t];
      if task.ConnectReady? || task.BrowserWaiting? {
        TicketTaken(w, e, key);
      } else {
        TicketsStay(w, e);
      }
    }
  }

  lemma TicketTaken(w: World, e: Event, key: nat)
    requires w.states != [] && !e.Store? && e.t in w.tasks
    requires (w.tasks[e.t].ConnectReady? || w.tasks[e.t].BrowserWaiting?)
    ensures key in w.tickets && key !in Continue(w, e, w.tasks[e.t]).tickets ==>
      || (e.BrowserLeaves? && w.tasks[e.t].BrowserWaiting? && w.tasks[e.t].key == key)
      || (e.ConnectTakes? && e.key == key && w.tasks[e.t].ConnectReady? && Holds(Continue(w, e, w.tasks[e.t]), e.t, key)
          && var c := w.tasks[e.t];
          TicketClaimMatches(w.tickets[key], c.p.id, c.p.host, c.a.generation, c.a.authority, e.now))
  {
    hide T.Step, T.ClaimTunnel, Authentic, T.TunnelIsCurrent, TicketClaimMatches, OwnsTunnel,
      PostContinues, HolderContinues;
  }

  lemma TicketsStay(w: World, e: Event)
    requires w.states != [] && !e.Store? && e.t in w.tasks && !w.tasks[e.t].ConnectReady?
    requires !w.tasks[e.t].BrowserWaiting?
    ensures forall k | k in w.tickets :: k in Continue(w, e, w.tasks[e.t]).tickets
  {
    hide PostContinues, ConnectContinues, HolderContinues, BrowserContinues;
    PostSparesTickets(w, e, w.tasks[e.t]);
    ConnectSparesTickets(w, e, w.tasks[e.t]);
    HolderSparesTickets(w, e, w.tasks[e.t]);
    BrowserSparesTickets(w, e, w.tasks[e.t]);
  }

  lemma PostSparesTickets(w: World, e: Event, task: Task)
    requires w.states != [] && !e.Store? && e.t in w.tasks && w.tasks[e.t] == task
    ensures PostContinues(w, e, task).tickets == w.tickets
  {
    hide T.Step, T.ClaimTunnel, Authentic, CanInstall, OwnsTunnel, Released;
  }

  lemma ConnectSparesTickets(w: World, e: Event, task: Task)
    requires w.states != [] && !e.Store? && e.t in w.tasks && w.tasks[e.t] == task && !task.ConnectReady?
    ensures ConnectContinues(w, e, task).tickets == w.tickets
  {
    hide Authentic, T.TunnelIsCurrent, OwnsTunnel;
  }

  lemma HolderSparesTickets(w: World, e: Event, task: Task)
    requires w.states != [] && !e.Store? && e.t in w.tasks && w.tasks[e.t] == task
    ensures HolderContinues(w, e, task).tickets == w.tickets
  {
    hide T.TunnelIsCurrent, OwnsTunnel;
  }

  lemma BrowserSparesTickets(w: World, e: Event, task: Task)
    requires w.states != [] && !e.Store? && e.t in w.tasks && w.tasks[e.t] == task && !task.BrowserWaiting?
    ensures forall k | k in w.tickets :: k in BrowserContinues(w, e, task).tickets
  {
    hide T.TunnelIsCurrent;
  }

  /** Deliveries respect fencing: once a generation is superseded, by a newer claim, a
      rotation, a move or a retirement, no later check lets it through. */
  lemma SupersededNeverDelivers(worlds: seq<World>, events: seq<Event>, n: nat, i: nat, at: nat)
    requires IsRun(worlds, events) && n < |worlds| && i < |worlds[n].deliveries| && at < |worlds[n].states|
    requires Fencing.Superseded(worlds[n].states[at], worlds[n].deliveries[i].p.id,
      worlds[n].deliveries[i].a.generation)
    ensures worlds[n].deliveries[i].current.at < at
  {
    NoMisrouting(worlds, events, n, i);
    RunKeeps(worlds, events, n);
    var w, d := worlds[n], worlds[n].deliveries[i];
    hide IsRun, TicketsInv, BrowsersInv, TunnelsInv, TaskOk, Authentic, T.TunnelIsCurrent, T.Step;
    if at <= d.current.at {
      Fencing.LeaseFencing(w.states, w.actions, at, d.current.at, d.p.id, d.a.generation);
    }
  }

  /** Ordered by their lease checks, an installation's deliveries never go back to an
      older generation. */
  lemma DeliveriesFollowGenerations(worlds: seq<World>, events: seq<Event>, n: nat, i: nat, j: nat)
    requires IsRun(worlds, events) && n < |worlds| && i < |worlds[n].deliveries| && j < |worlds[n].deliveries|
    requires worlds[n].deliveries[i].p.id == worlds[n].deliveries[j].p.id
    requires worlds[n].deliveries[i].current.at <= worlds[n].deliveries[j].current.at
    ensures worlds[n].deliveries[i].a.generation <= worlds[n].deliveries[j].a.generation
  {
    hide T.Step, Next, Inv, T.TunnelIsCurrent;
    NoMisrouting(worlds, events, n, i);
    RunKeeps(worlds, events, n);
    StoreRuns(worlds[n]);
    var w, d, d' := worlds[n], worlds[n].deliveries[i], worlds[n].deliveries[j];
    hide IsRun, Fencing.IsRun;
    Fencing.LeaseIsExclusive(w.states, w.actions, d.current.at, d.p.id, w.gateway, d.a.generation, d.current.now);
    if d'.a.generation < d.a.generation {
      SupersededNeverDelivers(worlds, events, n, j, d.current.at);
    }
  }

  lemma StoreRuns(w: World)
    requires Inv(w)
    ensures Fencing.IsRun(w.states, w.actions)
  {
    hide TaskOk, DeliveryOk;
  }

  ghost predicate LeasedTunnel(w: World, t: nat, host: string) {
    && host in w.tunnels && RunsTunnel(w, t, host, w.tunnels[host])
    && ClaimOk(w, w.tasks[t].p, w.tasks[t].auth, w.tunnels[host].generation, w.tasks[t].claimedAt)
  }

  /** Nothing leaks: every entry of the tunnel map has its running lifecycle, whose
      generation was leased to this gateway, and every ticket its waiting browser. */
  lemma NothingLeaks(worlds: seq<World>, events: seq<Event>, n: nat)
    requires IsRun(worlds, events) && n < |worlds|
    ensures var w := worlds[n];
      && (forall h | h in w.tunnels :: exists t :: LeasedTunnel(w, t, h))
      && (forall k | k in w.tickets ::
            w.tickets[k].browser in w.tasks && w.tasks[w.tickets[k].browser] == BrowserWaiting(w.tickets[k].host, k))
  {
    RunKeeps(worlds, events, n);
    var w := worlds[n];
    hide IsRun, ClaimOk, AuthOk;
    forall h | h in w.tunnels ensures exists t :: LeasedTunnel(w, t, h) {
      var t :| RunsTunnel(w, t, h, w.tunnels[h]);
      assert TaskOk(w, t, w.tasks[t]);
      assert LeasedTunnel(w, t, h);
    }
  }
}
