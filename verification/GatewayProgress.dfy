/** What the ticket protocol does and achieves. Every task and delivery goes back to the steps
    and checks that made it, and a connected installation gets its browsers: from every
    reachable world a tunnel can open, a browser can wait and its ticket can be delivered.
  */
module GatewayProgress {
  import opened Schema
  import T = Transactions
  import Fencing
  import Effects
  import opened Gateway

  // ------------------------------------------------------------------
  // How a task came to be what it is
  // ------------------------------------------------------------------

  predicate Was(w: World, t: nat, task: Task) {
    t in w.tasks && w.tasks[t] == task
  }

  /** The one step that makes `t` this task, and what held when it was made. */
  ghost predicate MadeBy(w: World, e: Event, t: nat, task: Task)
    requires w.states != []
  {
    var db := Database(w);
    match task
    case PostNamed(p) => e == PostArrives(t, p.id, p.host, p.token) && Named(db, p.id, p.host)
    case PostAuthed(p, auth) =>
      e == PostAuthenticates(t, auth.now) && Was(w, t, PostNamed(p)) && Authentic(db, p.id, p.token, auth.now)
    case PostClaimed(p, auth, g, _) =>
      && e.PostClaims? && e.t == t && Was(w, t, PostAuthed(p, auth))
      && T.ClaimTunnel(db, p.id, w.gateway, 45, e.now).reply == Ok(g)
    case Lifecycle(p, auth, g, at) =>
      && e == PostInstalls(t) && Was(w, t, PostClaimed(p, auth, g, at))
      && (p.host in w.tunnels ==> w.tunnels[p.host].generation < g)
    case ConnectNamed(p, a) => e == ConnectArrives(t, p.id, p.host, p.token, a) && Named(db, p.id, p.host)
    case ConnectAuthed(p, a, auth) =>
      e == ConnectAuthenticates(t, auth.now) && Was(w, t, ConnectNamed(p, a)) && Authentic(db, p.id, p.token, auth.now)
    case ConnectListed(p, a, auth) =>
      e == ConnectLists(t) && Was(w, t, ConnectAuthed(p, a, auth)) && Lists(w, p.host, Entry(p.id, a.generation))
    case ConnectReady(p, a, auth) =>
      && e.ConnectChecks? && e.t == t && Was(w, t, ConnectListed(p, a, auth))
      && T.TunnelIsCurrent(db, p.id, w.gateway, a.generation, e.now)
    case ConnectTook(p, a, auth, take) =>
      && e == ConnectTakes(t, take.key, take.check.now) && Was(w, t, ConnectReady(p, a, auth))
      && take.key in w.tickets && w.tickets[take.key] == take.ticket && take.check.now < take.ticket.deadline
      && a.authority == Some(p.host) && take.ticket.host == p.host && take.ticket.id == p.id
      && take.ticket.generation == a.generation
    case ConnectOwner(p, a, auth, take) =>
      e == ConnectOwns(t) && Was(w, t, ConnectTook(p, a, auth, take)) && Lists(w, p.host, Entry(p.id, a.generation))
    case ConnectPassed(p, a, auth, take, current) =>
      && e == ConnectRechecks(t, current.now) && Was(w, t, ConnectOwner(p, a, auth, take))
      && T.TunnelIsCurrent(db, p.id, w.gateway, a.generation, current.now)
    case BrowserNamed(host) => e == BrowserArrives(t, host)
    case BrowserTunnel(host, tunnel) =>
      e == BrowserLooks(t) && Was(w, t, BrowserNamed(host)) && Lists(w, host, tunnel)
    case BrowserCurrent(host, tunnel) =>
      && e.BrowserChecks? && e.t == t && Was(w, t, BrowserTunnel(host, tunnel))
      && T.TunnelIsCurrent(db, tunnel.id, w.gateway, tunnel.generation, e.now)
    case BrowserWaiting(host, key) =>
      && e.BrowserIssues? && e.t == t && e.key == key && t in w.tasks && w.tasks[t].BrowserCurrent?
      && w.tasks[t].host == host
  }

  predicate Lists(w: World, host: string, tunnel: Tunnel) {
    host in w.tunnels && w.tunnels[host] == tunnel
  }

  /** Every task of the next world was there before, or this step made it what it is. */
  ghost predicate Accounted(w: World, e: Event, w': World)
    requires w.states != []
  {
    forall t | t in w'.tasks :: Was(w, t, w'.tasks[t]) || MadeBy(w, e, t, w'.tasks[t])
  }

  predicate Arrives(e: Event) {
    e.Store? || e.PostArrives? || e.ConnectArrives? || e.BrowserArrives?
  }

  lemma ArrivalSpares(w: World, e: Event)
    requires w.states != [] && Arrives(e)
    ensures var w' := Next(w, e);
      && w'.tunnels == w.tunnels && w'.deliveries == w.deliveries && w'.issued == w.issued
      && (!e.Store? ==> w'.states == w.states)
  {
    hide T.Step, Named;
  }

  lemma TaskContinues(w: World, e: Event)
    requires w.states != [] && !Arrives(e)
    ensures Next(w, e) == if e.t in w.tasks then Continue(w, e, w.tasks[e.t]) else w
  {
    hide Continue, T.Step, Named;
  }

  lemma ArrivalAccounted(w: World, e: Event)
    requires w.states != [] && Arrives(e)
    ensures Accounted(w, e, Next(w, e))
  {
    hide T.Step, Named;
  }

  lemma PostAccounted(w: World, e: Event, task: Task)
    requires w.states != [] && !e.Store? && e.t in w.tasks && w.tasks[e.t] == task && IsPost(task)
    ensures Accounted(w, e, PostContinues(w, e, task))
  {
    hide T.Step, T.ClaimTunnel, Authentic, OwnsTunnel, Released;
  }

  lemma ConnectAccounted(w: World, e: Event, task: Task)
    requires w.states != [] && !e.Store? && e.t in w.tasks && w.tasks[e.t] == task && IsConnect(task)
    ensures Accounted(w, e, ConnectContinues(w, e, task))
  {
    hide Authentic, T.TunnelIsCurrent;
  }

  lemma HolderAccounted(w: World, e: Event, task: Task)
    requires w.states != [] && !e.Store? && e.t in w.tasks && w.tasks[e.t] == task && HeldKey(task).Some?
    ensures Accounted(w, e, HolderContinues(w, e, task))
  {
    hide T.TunnelIsCurrent;
  }

  lemma BrowserAccounted(w: World, e: Event, task: Task)
    requires w.states != [] && !e.Store? && e.t in w.tasks && w.tasks[e.t] == task
    requires !IsPost(task) && !IsConnect(task) && HeldKey(task).None?
    ensures Accounted(w, e, BrowserContinues(w, e, task))
  {
    hide T.TunnelIsCurrent;
  }

  lemma StepAccounted(w: World, e: Event)
    requires w.states != []
    ensures Accounted(w, e, Next(w, e))
  {
    hide Next, PostContinues, ConnectContinues, HolderContinues, BrowserContinues, MadeBy;
    if Arrives(e) {
      ArrivalAccounted(w, e);
      return;
    }
    TaskContinues(w, e);
    if e.t in w.tasks {
      var task := w.tasks[e.t];
      if IsPost(task) {
        PostAccounted(w, e, task);
      } else if IsConnect(task) {
        ConnectAccounted(w, e, task);
      } else if HeldKey(task).Some? {
        HolderAccounted(w, e, task);
      } else {
        BrowserAccounted(w, e, task);
      }
    }
  }

  lemma Rooted(worlds: seq<World>, events: seq<Event>, n: nat)
    requires IsRun(worlds, events) && n < |worlds|
    ensures worlds[n].states != []
    ensures n < |events| ==> worlds[n + 1] == Next(worlds[n], events[n])
  {
    hide Inv, Next;
    RunKeeps(worlds, events, n);
    InvRooted(worlds[n]);
  }

  ghost predicate MadeAt(worlds: seq<World>, events: seq<Event>, i: nat, t: nat, task: Task)
    requires |worlds| == |events| + 1
  {
    i < |events| && worlds[i].states != [] && MadeBy(worlds[i], events[i], t, task)
  }

  /** Whatever a task is in a run, an earlier step made it so. */
  lemma {:induction false} Origin(worlds: seq<World>, events: seq<Event>, n: nat, t: nat, task: Task)
    returns (i: nat)
    requires IsRun(worlds, events) && n < |worlds| && Was(worlds[n], t, task)
    ensures i < n && MadeAt(worlds, events, i, t, task)
  {
    hide Next, MadeBy;
    assert n > 0;
    Rooted(worlds, events, n - 1);
    StepAccounted(worlds[n - 1], events[n - 1]);
    i := n - 1;
    if Was(worlds[n - 1], t, task) {
      i := Origin(worlds, events, n - 1, t, task);
    }
  }

  // ------------------------------------------------------------------
  // Every delivery passed every check, in order
  // ------------------------------------------------------------------

  /** The eight steps of a CONNECT that is given a browser. */
  datatype Steps = Steps(
    named: nat, authed: nat, listed: nat, ready: nat, took: nat, owner: nat, passed: nat, given: nat)

  ghost predicate ConnectTrace(worlds: seq<World>, events: seq<Event>, t: nat, d: Delivery, s: Steps)
    requires |worlds| == |events| + 1
  {
    && s.named < s.authed < s.listed < s.ready < s.took < s.owner < s.passed < s.given < |events|
    && MadeAt(worlds, events, s.named, t, ConnectNamed(d.p, d.a))
    && MadeAt(worlds, events, s.authed, t, ConnectAuthed(d.p, d.a, d.auth))
    && MadeAt(worlds, events, s.listed, t, ConnectListed(d.p, d.a, d.auth))
    && MadeAt(worlds, events, s.ready, t, ConnectReady(d.p, d.a, d.auth))
    && MadeAt(worlds, events, s.took, t, ConnectTook(d.p, d.a, d.auth, d.take))
    && MadeAt(worlds, events, s.owner, t, ConnectOwner(d.p, d.a, d.auth, d.take))
    && MadeAt(worlds, events, s.passed, t, ConnectPassed(d.p, d.a, d.auth, d.take, d.current))
    && events[s.given] == Delivers(t)
  }

  lemma PassedTraced(worlds: seq<World>, events: seq<Event>, n: nat, t: nat, d: Delivery) returns (s: Steps)
    requires IsRun(worlds, events) && n < |events| && events[n] == Delivers(t)
    requires Was(worlds[n], t, ConnectPassed(d.p, d.a, d.auth, d.take, d.current))
    ensures s.given == n && ConnectTrace(worlds, events, t, d, s)
  {
    hide Next, IsRun, Named, Authentic, T.TunnelIsCurrent, Database;
    NoneAtFirst(worlds, events);
    var passed := Origin(worlds, events, n, t, ConnectPassed(d.p, d.a, d.auth, d.take, d.current));
    var owner := Origin(worlds, events, passed, t, ConnectOwner(d.p, d.a, d.auth, d.take));
    var took := Origin(worlds, events, owner, t, ConnectTook(d.p, d.a, d.auth, d.take));
    var ready := Origin(worlds, events, took, t, ConnectReady(d.p, d.a, d.auth));
    var listed := Origin(worlds, events, ready, t, ConnectListed(d.p, d.a, d.auth));
    var authed := Origin(worlds, events, listed, t, ConnectAuthed(d.p, d.a, d.auth));
    var named := Origin(worlds, events, authed, t, ConnectNamed(d.p, d.a));
    s := Steps(named, authed, listed, ready, took, owner, passed, n);
  }

  lemma DeliveryStep(w: World, e: Event)
    requires w.states != []
    ensures Next(w, e).deliveries == w.deliveries
      || (&& e.Delivers? && e.t in w.tasks && w.tasks[e.t].ConnectPassed?
          && var c := w.tasks[e.t];
          Next(w, e).deliveries == w.deliveries + [Delivery(c.p, c.a, c.auth, c.take, c.current)])
  {
    hide Next, PostContinues, ConnectContinues, HolderContinues, BrowserContinues, T.Step;
    if Arrives(e) {
      ArrivalSpares(w, e);
      return;
    }
    TaskContinues(w, e);
    if e.t in w.tasks {
      OthersDeliverNothing(w, e, w.tasks[e.t]);
      HolderDelivers(w, e, w.tasks[e.t]);
    }
  }

  lemma OthersDeliverNothing(w: World, e: Event, task: Task)
    requires w.states != [] && !e.Store? && e.t in w.tasks && w.tasks[e.t] == task
    ensures PostContinues(w, e, task).deliveries == w.deliveries
    ensures ConnectContinues(w, e, task).deliveries == w.deliveries
    ensures BrowserContinues(w, e, task).deliveries == w.deliveries
  {
    hide T.Step, T.ClaimTunnel, Authentic, T.TunnelIsCurrent, CanInstall, OwnsTunnel, Released, TicketClaimMatches;
  }

  lemma HolderDelivers(w: World, e: Event, task: Task)
    requires w.states != [] && !e.Store? && e.t in w.tasks && w.tasks[e.t] == task
    ensures HolderContinues(w, e, task).deliveries == w.deliveries
      || (&& e.Delivers? && task.ConnectPassed?
          && HolderContinues(w, e, task).deliveries ==
               w.deliveries + [Delivery(task.p, task.a, task.auth, task.take, task.current)])
  {
    hide T.TunnelIsCurrent, OwnsTunnel;
  }

  /** Every delivery went through the whole of its CONNECT's checks, in this order: named,
      authenticated, its tunnel listed, its lease current, the ticket taken before its deadline
      with every field matching, the tunnel still listed, the lease still current. */
  lemma {:induction false} DeliveriesChecked(worlds: seq<World>, events: seq<Event>, n: nat, i: nat)
    returns (t: nat, s: Steps)
    requires IsRun(worlds, events) && n < |worlds| && i < |worlds[n].deliveries|
    ensures ConnectTrace(worlds, events, t, worlds[n].deliveries[i], s) && s.given < n
  {
    hide Next, ConnectTrace, IsRun;
    NoneAtFirst(worlds, events);
    Rooted(worlds, events, n - 1);
    var w, e := worlds[n - 1], events[n - 1];
    DeliveryStep(w, e);
    if i < |w.deliveries| {
      t, s := DeliveriesChecked(worlds, events, n - 1, i);
    } else {
      t := e.t;
      s := PassedTraced(worlds, events, n - 1, t, worlds[n].deliveries[i]);
    }
  }

  lemma NoneAtFirst(worlds: seq<World>, events: seq<Event>)
    requires IsRun(worlds, events)
    ensures |worlds| == |events| + 1 && worlds[0].deliveries == [] && worlds[0].issued == map[]
  {
    hide Next;
  }

  // ------------------------------------------------------------------
  // Where a ticket comes from
  // ------------------------------------------------------------------

  lemma IssueStep(w: World, e: Event, k: nat)
    requires w.states != [] && k in Next(w, e).issued
    ensures var ticket := Next(w, e).issued[k];
      || (k in w.issued && w.issued[k] == ticket)
      || (&& k !in w.issued && e == BrowserIssues(ticket.browser, k, ticket.deadline - 10000)
          && Was(w, e.t, BrowserCurrent(ticket.host, Entry(ticket.id, ticket.generation))))
  {
    hide Next, PostContinues, ConnectContinues, HolderContinues, BrowserContinues, T.Step;
    if Arrives(e) {
      ArrivalSpares(w, e);
      return;
    }
    TaskContinues(w, e);
    if e.t in w.tasks {
      OthersIssueNothing(w, e, w.tasks[e.t]);
      BrowserIssue(w, e, w.tasks[e.t], k);
    }
  }

  lemma OthersIssueNothing(w: World, e: Event, task: Task)
    requires w.states != [] && !e.Store? && e.t in w.tasks && w.tasks[e.t] == task
    ensures PostContinues(w, e, task).issued == w.issued
    ensures ConnectContinues(w, e, task).issued == w.issued
    ensures HolderContinues(w, e, task).issued == w.issued
  {
    hide T.Step, T.ClaimTunnel, Authentic, T.TunnelIsCurrent, CanInstall, OwnsTunnel, Released, TicketClaimMatches;
  }

  lemma BrowserIssue(w: World, e: Event, task: Task, k: nat)
    requires w.states != [] && !e.Store? && e.t in w.tasks && w.tasks[e.t] == task
    ensures k in BrowserContinues(w, e, task).issued ==>
      var ticket := BrowserContinues(w, e, task).issued[k];
      || (k in w.issued && w.issued[k] == ticket)
      || (&& k !in w.issued && e == BrowserIssues(ticket.browser, k, ticket.deadline - 10000)
          && task == BrowserCurrent(ticket.host, Entry(ticket.id, ticket.generation)))
  {
    hide T.TunnelIsCurrent;
  }

  /** Browser `t` asked for `host` and found this tunnel there, and then its lease current. */
  ghost predicate BrowserTrace(worlds: seq<World>, events: seq<Event>, n: nat, t: nat, host: string, tunnel: Tunnel,
      a: nat, l: nat, c: nat)
    requires |worlds| == |events| + 1
  {
    && a < l < c < n
    && MadeAt(worlds, events, a, t, BrowserNamed(host))
    && MadeAt(worlds, events, l, t, BrowserTunnel(host, tunnel))
    && MadeAt(worlds, events, c, t, BrowserCurrent(host, tunnel))
  }

  lemma CurrentTraced(worlds: seq<World>, events: seq<Event>, n: nat, t: nat, host: string, tunnel: Tunnel)
    returns (a: nat, l: nat, c: nat)
    requires IsRun(worlds, events) && n < |worlds| && Was(worlds[n], t, BrowserCurrent(host, tunnel))
    ensures a < l < c < n && BrowserTrace(worlds, events, n, t, host, tunnel, a, l, c)
  {
    hide Next, IsRun, T.TunnelIsCurrent;
    c := Origin(worlds, events, n, t, BrowserCurrent(host, tunnel));
    l := Origin(worlds, events, c, t, BrowserTunnel(host, tunnel));
    a := Origin(worlds, events, l, t, BrowserNamed(host));
  }

  /** Every ticket names a tunnel that its browser found under the host it asked for, whose lease
      it then found current, and runs out ten seconds after it was issued. */
  lemma {:induction false} TicketsNameTunnels(worlds: seq<World>, events: seq<Event>, n: nat, k: nat)
    returns (a: nat, l: nat, c: nat, m: nat)
    requires IsRun(worlds, events) && n < |worlds| && k in worlds[n].issued
    ensures var ticket := worlds[n].issued[k];
      && c < m < n && events[m] == BrowserIssues(ticket.browser, k, ticket.deadline - 10000)
      && BrowserTrace(worlds, events, m, ticket.browser, ticket.host, Entry(ticket.id, ticket.generation), a, l, c)
  {
    hide Next, IsRun, BrowserTrace;
    NoneAtFirst(worlds, events);
    Rooted(worlds, events, n - 1);
    IssueStep(worlds[n - 1], events[n - 1], k);
    if k in worlds[n - 1].issued && worlds[n - 1].issued[k] == worlds[n].issued[k] {
      a, l, c, m := TicketsNameTunnels(worlds, events, n - 1, k);
    } else {
      var ticket := worlds[n].issued[k];
      m := n - 1;
      a, l, c := CurrentTraced(worlds, events, m, ticket.browser, ticket.host, Entry(ticket.id, ticket.generation));
    }
  }

  // ------------------------------------------------------------------
  // What the gateway does to its tunnels and to the store
  // ------------------------------------------------------------------

  /** An entry changes only to a newer generation, and goes only with its own lifecycle. */
  lemma EntriesOnlyAdvance(w: World, e: Event, host: string)
    requires w.states != [] && host in w.tunnels
    ensures var w' := Next(w, e);
      if host in w'.tunnels then
        w'.tunnels[host] == w.tunnels[host] || w'.tunnels[host].generation > w.tunnels[host].generation
      else
        && e.LifecycleEnds? && e.t in w.tasks && w.tasks[e.t].Lifecycle?
        && Entry(w.tasks[e.t].p.id, w.tasks[e.t].generation) == w.tunnels[host] && w.tasks[e.t].p.host == host
  {
    hide Next, PostContinues, ConnectContinues, HolderContinues, BrowserContinues, T.Step;
    if Arrives(e) {
      ArrivalSpares(w, e);
      return;
    }
    TaskContinues(w, e);
    if e.t in w.tasks {
      OthersSpareTunnels(w, e, w.tasks[e.t]);
      PostTunnels(w, e, w.tasks[e.t], host);
    }
  }

  lemma OthersSpareTunnels(w: World, e: Event, task: Task)
    requires w.states != [] && !e.Store? && e.t in w.tasks && w.tasks[e.t] == task
    ensures ConnectContinues(w, e, task).tunnels == w.tunnels
    ensures HolderContinues(w, e, task).tunnels == w.tunnels
    ensures BrowserContinues(w, e, task).tunnels == w.tunnels
  {
    hide Authentic, T.TunnelIsCurrent, OwnsTunnel, TicketClaimMatches;
  }

  lemma PostTunnels(w: World, e: Event, task: Task, host: string)
    requires w.states != [] && !e.Store? && e.t in w.tasks && w.tasks[e.t] == task && host in w.tunnels
    ensures var w' := PostContinues(w, e, task);
      if host in w'.tunnels then
        w'.tunnels[host] == w.tunnels[host] || w'.tunnels[host].generation > w.tunnels[host].generation
      else
        && e.LifecycleEnds? && task.Lifecycle? && task.p.host == host
        && Entry(task.p.id, task.generation) == w.tunnels[host]
  {
    hide T.Step, T.ClaimTunnel, Authentic;
  }

  /** The gateway itself changes the store only to claim for an authenticated peer and to extend
      the lease of a tunnel that its map still lists. */
  lemma CommitsOnly(w: World, e: Event)
    requires w.states != [] && !e.Store? && Next(w, e).states != w.states
    ensures e.t in w.tasks
    ensures var task, db' := w.tasks[e.t], Next(w, e).states;
      || (&& e.PostClaims? && task.PostAuthed?
          && db' == w.states + [T.Step(Database(w), T.DoClaim(task.p.id, w.gateway, 45, e.now))])
      || (&& e.Beats? && task.Lifecycle? && Lists(w, task.p.host, Entry(task.p.id, task.generation))
          && db' == w.states + [T.Step(Database(w), T.DoRenewTunnel(task.p.id, w.gateway, task.generation, e.now))])
  {
    hide Next, PostContinues, ConnectContinues, HolderContinues, BrowserContinues, T.Step;
    if Arrives(e) {
      ArrivalSpares(w, e);
      return;
    }
    TaskContinues(w, e);
    if e.t in w.tasks {
      OthersCommitNothing(w, e, w.tasks[e.t]);
      PostCommits(w, e, w.tasks[e.t]);
    }
  }

  lemma OthersCommitNothing(w: World, e: Event, task: Task)
    requires w.states != [] && !e.Store? && e.t in w.tasks && w.tasks[e.t] == task
    ensures ConnectContinues(w, e, task).states == w.states
    ensures HolderContinues(w, e, task).states == w.states
    ensures BrowserContinues(w, e, task).states == w.states
  {
    hide Authentic, T.TunnelIsCurrent, OwnsTunnel, TicketClaimMatches;
  }

  lemma PostCommits(w: World, e: Event, task: Task)
    requires w.states != [] && !e.Store? && e.t in w.tasks && w.tasks[e.t] == task
    ensures var db' := PostContinues(w, e, task).states;
      || db' == w.states
      || (&& e.PostClaims? && task.PostAuthed?
          && db' == w.states + [T.Step(Database(w), T.DoClaim(task.p.id, w.gateway, 45, e.now))])
      || (&& e.Beats? && task.Lifecycle? && Lists(w, task.p.host, Entry(task.p.id, task.generation))
          && db' == w.states + [T.Step(Database(w), T.DoRenewTunnel(task.p.id, w.gateway, task.generation, e.now))])
  {
    hide T.Step, T.ClaimTunnel, Authentic, CanInstall, Released;
  }

  // ------------------------------------------------------------------
  // A connected installation gets its browsers
  // ------------------------------------------------------------------

  ghost predicate Reaches(worlds: seq<World>, events: seq<Event>, w: World) {
    IsRun(worlds, events) && worlds[|events|] == w && w.states != []
  }

  lemma Extend(worlds: seq<World>, events: seq<Event>, w: World, e: Event)
    returns (worlds': seq<World>, events': seq<Event>)
    requires Reaches(worlds, events, w)
    ensures worlds <= worlds' && events <= events' && Reaches(worlds', events', Next(w, e))
  {
    hide Next, Inv;
    worlds', events' := worlds + [Next(w, e)], events + [e];
    forall i | 0 <= i < |events'| ensures worlds'[i].states != [] && worlds'[i + 1] == Next(worlds'[i], events'[i]) {
      if i < |events| {
        assert worlds'[i] == worlds[i] && worlds'[i + 1] == worlds[i + 1] && events'[i] == events[i];
      }
    }
    Rooted(worlds', events', |events'|);
  }

  lemma PostSteps(w: World, t: nat, now: Instant)
    requires w.states != []
    ensures forall id, host, token | t !in w.started && Named(Database(w), id, host) ::
      Next(w, PostArrives(t, id, host, token)) == Begin(w, t, PostNamed(Peer(id, host, token, Here(w))))
    ensures t in w.tasks ==>
      match w.tasks[t]
      case PostNamed(p) =>
        Authentic(Database(w), p.id, p.token, now) ==>
          Next(w, PostAuthenticates(t, now)) == Become(w, t, PostAuthed(p, Check(Here(w), now)))
      case PostAuthed(p, auth) =>
        var out := T.ClaimTunnel(Database(w), p.id, w.gateway, LEASE_SECONDS, now);
        out.reply.Ok? ==>
          var w' := Commit(w, T.DoClaim(p.id, w.gateway, LEASE_SECONDS, now));
          Next(w, PostClaims(t, now)) == Become(w', t, PostClaimed(p, auth, out.reply.value, Here(w')))
      case PostClaimed(p, auth, g, at) =>
        CanInstall(w.tunnels, p.host, g) ==>
          Next(w, PostInstalls(t)) ==
            Become(w, t, Lifecycle(p, auth, g, at)).(tunnels := w.tunnels[p.host := Entry(p.id, g)])
      case _ => true
  {
    hide T.Step, T.ClaimTunnel, Authentic, Named, ConnectContinues, HolderContinues, BrowserContinues;
  }

  lemma BrowserSteps(w: World, t: nat, key: nat, now: Instant)
    requires w.states != []
    ensures forall host | t !in w.started ::
      Next(w, BrowserArrives(t, host)) == Begin(w, t, BrowserNamed(host)).(asked := w.asked[t := host])
    ensures t in w.tasks ==>
      match w.tasks[t]
      case BrowserNamed(host) =>
        host in w.tunnels ==> Next(w, BrowserLooks(t)) == Become(w, t, BrowserTunnel(host, w.tunnels[host]))
      case BrowserTunnel(host, tunnel) =>
        T.TunnelIsCurrent(Database(w), tunnel.id, w.gateway, tunnel.generation, now) ==>
          Next(w, BrowserChecks(t, now)) == Become(w, t, BrowserCurrent(host, tunnel))
      case BrowserCurrent(host, tunnel) =>
        key !in w.issued ==>
          var ticket := Ticket(host, tunnel.id, tunnel.generation, now + 10000, t);
          Next(w, BrowserIssues(t, key, now)) ==
            Become(w, t, BrowserWaiting(host, key)).(tickets := w.tickets[key := ticket],
              issued := w.issued[key := ticket])
      case _ => true
  {
    hide T.TunnelIsCurrent, PostContinues, ConnectContinues, HolderContinues;
  }

  lemma ConnectSteps(w: World, t: nat, key: nat, now: Instant)
    requires w.states != []
    ensures forall id, host, token, a | t !in w.started && Named(Database(w), id, host) ::
      Next(w, ConnectArrives(t, id, host, token, a)) == Begin(w, t, ConnectNamed(Peer(id, host, token, Here(w)), a))
    ensures t in w.tasks ==>
      match w.tasks[t]
      case ConnectNamed(p, a) =>
        Authentic(Database(w), p.id, p.token, now) ==>
          Next(w, ConnectAuthenticates(t, now)) == Become(w, t, ConnectAuthed(p, a, Check(Here(w), now)))
      case ConnectAuthed(p, a, auth) =>
        OwnsTunnel(w.tunnels, p.host, p.id, a.generation) ==>
          Next(w, ConnectLists(t)) == Become(w, t, ConnectListed(p, a, auth))
      case ConnectListed(p, a, auth) =>
        T.TunnelIsCurrent(Database(w), p.id, w.gateway, a.generation, now) ==>
          Next(w, ConnectChecks(t, now)) == Become(w, t, ConnectReady(p, a, auth))
      case ConnectReady(p, a, auth) =>
        key in w.tickets && TicketClaimMatches(w.tickets[key], p.id, p.host, a.generation, a.authority, now) ==>
          var take := Take(key, w.tickets[key], Check(Here(w), now));
          Next(w, ConnectTakes(t, key, now)) ==
            Become(w, t, ConnectTook(p, a, auth, take)).(tickets := w.tickets - {key})
      case _ => true
  {
    hide Authentic, T.TunnelIsCurrent, OwnsTunnel, TicketClaimMatches, Named, PostContinues, HolderContinues,
      BrowserContinues;
  }

  lemma HolderSteps(w: World, t: nat, now: Instant)
    requires w.states != [] && t in w.tasks
    ensures match w.tasks[t]
      case ConnectTook(p, a, auth, take) =>
        OwnsTunnel(w.tunnels, p.host, p.id, a.generation) ==>
          Next(w, ConnectOwns(t)) == Become(w, t, ConnectOwner(p, a, auth, take))
      case ConnectOwner(p, a, auth, take) =>
        T.TunnelIsCurrent(Database(w), p.id, w.gateway, a.generation, now) ==>
          Next(w, ConnectRechecks(t, now)) == Become(w, t, ConnectPassed(p, a, auth, take, Check(Here(w), now)))
      case ConnectPassed(p, a, auth, take, current) =>
        Next(w, Delivers(t)) ==
          Give(w, t).(deliveries := w.deliveries + [Delivery(p, a, auth, take, current)])
      case _ => true
  {
    hide T.TunnelIsCurrent, OwnsTunnel, PostContinues, ConnectContinues, BrowserContinues;
  }

  /** A tunnel's entry never carries a generation beyond its installation's counter, so a new
      claim always replaces it. */
  lemma FreshClaimInstalls(w: World, id: Uuid, host: string)
    requires Inv(w) && w.states != [] && Named(Database(w), id, host)
    ensures CanInstall(w.tunnels, host, Database(w).installations[id].generation + 1)
  {
    if host in w.tunnels {
      var t := Runner(w, host);
      TaskAt(w, t);
      StoreRuns(w);
      hide Inv;
      var p, at := w.tasks[t].p, w.tasks[t].claimedAt;
      OwnerStays(w, p);
      ClaimBounded(w, t);
    }
  }

  lemma Runner(w: World, host: string) returns (t: nat)
    requires Inv(w) && host in w.tunnels
    ensures RunsTunnel(w, t, host, w.tunnels[host])
  {
    hide EvidenceInv, TicketsInv, BrowsersInv;
    t :| RunsTunnel(w, t, host, w.tunnels[host]);
  }

  lemma LeasedWithin(db: Db, id: Uuid)
    requires Fencing.Inv(db) && id in db.installations && db.installations[id].lease.Some?
    ensures db.installations[id].lease.value.generation <= db.installations[id].generation
  {
    hide Fencing.Inv, Fencing.IdentityInv, Fencing.BearersInv, Fencing.ChallengeInv, Fencing.JobsInv;
    Fencing.RowAt(db, id);
  }

  lemma ReachedKeeps(worlds: seq<World>, events: seq<Event>, w: World)
    requires Reaches(worlds, events, w)
    ensures Inv(w)
  {
    hide Inv, Next;
    RunKeeps(worlds, events, |events|);
  }

  lemma ClaimBounded(w: World, t: nat)
    requires w.states != [] && Fencing.IsRun(w.states, w.actions) && t in w.tasks && w.tasks[t].Lifecycle?
    requires TaskOk(w, t, w.tasks[t])
    ensures w.tasks[t].p.id in Database(w).installations
    ensures w.tasks[t].generation <= Database(w).installations[w.tasks[t].p.id].generation
  {
    hide T.Step, Authentic, Named, Fencing.IsRun, Fencing.Inv;
    var at, id := w.tasks[t].claimedAt, w.tasks[t].p.id;
    Fencing.RunInv(w.states, w.actions, at);
    LeasedWithin(w.states[at], id);
    Fencing.InstallationsStay(w.states, w.actions, at, |w.states| - 1, id);
  }

  /** The tunnel of `id` is open under `host` with the next generation, leased from `now`; the
      installation is otherwise as it was. */
  ghost predicate Opened(w: World, w': World, t: nat, id: Uuid, host: string, now: Instant)
    requires w.states != [] && w'.states != []
  {
    && id in Database(w).installations && id in Database(w').installations
    && var row, row' := Database(w).installations[id], Database(w').installations[id];
    && row' == row.(generation := row.generation + 1, lease := row'.lease)
    && w' == w.(states := w'.states, actions := w'.actions, tasks := w'.tasks, started := w.started + {t},
                tunnels := w.tunnels[host := Entry(id, row'.generation)])
    && (forall now' :: T.TunnelIsCurrent(Database(w'), id, w.gateway, row'.generation, now') <==> now' < now + 45000)
    && t in w'.tasks && w'.tasks[t].Lifecycle? && w'.tasks[t].p.host == host
    && w'.tasks[t].generation == row'.generation
  }

  /** Whoever is named, authenticated and placed here can open its tunnel. */
  lemma TunnelOpens(worlds: seq<World>, events: seq<Event>, w: World, t: nat, id: Uuid, host: string, token: string,
      now: Instant)
    returns (worlds': seq<World>, events': seq<Event>, w': World)
    requires Reaches(worlds, events, w) && t !in w.started && w.gateway != ""
    requires Named(Database(w), id, host) && Authentic(Database(w), id, token, now)
    requires Database(w).installations[id].placement == w.gateway
    ensures worlds <= worlds' && Reaches(worlds', events', w') && Opened(w, w', t, id, host, now)
  {
    hide Next, T.Step, T.ClaimTunnel, Authentic, Inv, IsRun;
    ReachedKeeps(worlds, events, w);
    FreshClaimInstalls(w, id, host);
    var p, auth := Peer(id, host, token, Here(w)), Check(Here(w), now);
    PostSteps(w, t, now);
    var w1 := Begin(w, t, PostNamed(p));
    worlds', events' := Extend(worlds, events, w, PostArrives(t, id, host, token));
    PostSteps(w1, t, now);
    var w2 := Become(w1, t, PostAuthed(p, auth));
    worlds', events' := Extend(worlds', events', w1, PostAuthenticates(t, now));
    worlds', events', w' := AuthedOpens(worlds', events', w2, t, p, auth, now);
  }

  lemma AuthedOpens(worlds: seq<World>, events: seq<Event>, w: World, t: nat, p: Peer, auth: Check, now: Instant)
    returns (worlds': seq<World>, events': seq<Event>, w': World)
    requires Reaches(worlds, events, w) && t in w.tasks && w.tasks[t] == PostAuthed(p, auth) && w.gateway != ""
    requires Named(Database(w), p.id, p.host) && Database(w).installations[p.id].placement == w.gateway
    requires CanInstall(w.tunnels, p.host, Database(w).installations[p.id].generation + 1)
    ensures worlds <= worlds' && Reaches(worlds', events', w')
    ensures t in w.started ==> Opened(w, w', t, p.id, p.host, now)
    ensures w'.started == w.started
  {
    hide Next, T.Step, T.ClaimTunnel, T.TunnelIsCurrent, CanInstall, IsRun;
    var db, id := Database(w), p.id;
    PostSteps(w, t, now);
    Effects.ClaimExact(db, id, w.gateway, LEASE_SECONDS, now);
    ClaimSteps(db, id, w.gateway, now);
    var g := db.installations[id].generation + 1;
    var committed := Commit(w, T.DoClaim(id, w.gateway, LEASE_SECONDS, now));
    var w1 := Become(committed, t, PostClaimed(p, auth, g, Here(committed)));
    worlds', events' := Extend(worlds, events, w, PostClaims(t, now));
    PostSteps(w1, t, now);
    worlds', events' := Extend(worlds', events', w1, PostInstalls(t));
    w' := Next(w1, PostInstalls(t));
    if t in w.started {
      assert w.started + {t} == w.started;
    }
  }

  lemma ClaimSteps(db: Db, id: Uuid, gateway: string, now: Instant)
    ensures T.Step(db, T.DoClaim(id, gateway, LEASE_SECONDS, now)) ==
      T.ClaimTunnel(db, id, gateway, LEASE_SECONDS, now).db
  {
    hide T.ClaimTunnel;
  }

  /** A browser that asks for an open tunnel's host waits with its ticket for it. */
  lemma BrowserWaits(worlds: seq<World>, events: seq<Event>, w: World, t: nat, host: string, key: nat, now: Instant)
    returns (worlds': seq<World>, events': seq<Event>, w': World)
    requires Reaches(worlds, events, w) && t !in w.started && key !in w.issued && host in w.tunnels
    requires T.TunnelIsCurrent(Database(w), w.tunnels[host].id, w.gateway, w.tunnels[host].generation, now)
    ensures worlds <= worlds' && Reaches(worlds', events', w')
    ensures var ticket := Ticket(host, w.tunnels[host].id, w.tunnels[host].generation, now + 10000, t);
      w' == w.(tasks := w.tasks[t := BrowserWaiting(host, key)], started := w.started + {t},
               asked := w.asked[t := host], tickets := w.tickets[key := ticket], issued := w.issued[key := ticket])
  {
    hide Next, T.TunnelIsCurrent, IsRun;
    var w1;
    worlds', events', w1 := BrowserFindsTunnel(worlds, events, w, t, host, now);
    BrowserSteps(w1, t, key, now);
    worlds', events' := Extend(worlds', events', w1, BrowserIssues(t, key, now));
    w' := Next(w1, BrowserIssues(t, key, now));
  }

  lemma BrowserFindsTunnel(worlds: seq<World>, events: seq<Event>, w: World, t: nat, host: string, now: Instant)
    returns (worlds': seq<World>, events': seq<Event>, w': World)
    requires Reaches(worlds, events, w) && t !in w.started && host in w.tunnels
    requires T.TunnelIsCurrent(Database(w), w.tunnels[host].id, w.gateway, w.tunnels[host].generation, now)
    ensures worlds <= worlds' && Reaches(worlds', events', w')
    ensures w' == w.(tasks := w.tasks[t := BrowserCurrent(host, w.tunnels[host])], started := w.started + {t},
                     asked := w.asked[t := host])
  {
    hide Next, T.TunnelIsCurrent, IsRun;
    BrowserSteps(w, t, 0, now);
    var w1 := Begin(w, t, BrowserNamed(host)).(asked := w.asked[t := host]);
    worlds', events' := Extend(worlds, events, w, BrowserArrives(t, host));
    BrowserSteps(w1, t, 0, now);
    var w2 := Become(w1, t, BrowserTunnel(host, w.tunnels[host]));
    worlds', events' := Extend(worlds', events', w1, BrowserLooks(t));
    BrowserSteps(w2, t, 0, now);
    worlds', events' := Extend(worlds', events', w2, BrowserChecks(t, now));
    w' := Become(w2, t, BrowserCurrent(host, w.tunnels[host]));
  }

  /** A waiting ticket is delivered to the CONNECT of the tunnel it names, as long as that tunnel
      is open and leased and the ticket has not run out. */
  lemma TicketIsDelivered(worlds: seq<World>, events: seq<Event>, w: World, t: nat, token: string, key: nat,
      now: Instant)
    returns (worlds': seq<World>, events': seq<Event>, w': World)
    requires Reaches(worlds, events, w) && t !in w.started && key in w.tickets && now < w.tickets[key].deadline
    requires var ticket := w.tickets[key];
      && OwnsTunnel(w.tunnels, ticket.host, ticket.id, ticket.generation)
      && Named(Database(w), ticket.id, ticket.host) && Authentic(Database(w), ticket.id, token, now)
      && T.TunnelIsCurrent(Database(w), ticket.id, w.gateway, ticket.generation, now)
    ensures worlds <= worlds' && Reaches(worlds', events', w')
    ensures var ticket, check := w.tickets[key], Check(Here(w), now);
      && w'.tickets == w.tickets - {key}
      && w'.deliveries == w.deliveries + [
           Delivery(Peer(ticket.id, ticket.host, token, Here(w)), Attach(ticket.generation, Some(ticket.host)), check,
                    Take(key, ticket, check), check)]
  {
    hide Next, T.TunnelIsCurrent, Authentic, Named, OwnsTunnel, IsRun;
    var ticket, check := w.tickets[key], Check(Here(w), now);
    var p, a := Peer(ticket.id, ticket.host, token, Here(w)), Attach(ticket.generation, Some(ticket.host));
    var w1;
    worlds', events', w1 := ConnectGetsReady(worlds, events, w, t, p, a, now);
    ConnectSteps(w1, t, key, now);
    worlds', events' := Extend(worlds', events', w1, ConnectTakes(t, key, now));
    worlds', events', w' := HeldIsDelivered(worlds', events', Next(w1, ConnectTakes(t, key, now)), t, p, a, check,
      Take(key, ticket, check), now);
  }

  lemma ConnectGetsReady(worlds: seq<World>, events: seq<Event>, w: World, t: nat, p: Peer, a: Attach, now: Instant)
    returns (worlds': seq<World>, events': seq<Event>, w': World)
    requires Reaches(worlds, events, w) && t !in w.started && p.namedAt == Here(w)
    requires OwnsTunnel(w.tunnels, p.host, p.id, a.generation)
    requires Named(Database(w), p.id, p.host) && Authentic(Database(w), p.id, p.token, now)
    requires T.TunnelIsCurrent(Database(w), p.id, w.gateway, a.generation, now)
    ensures worlds <= worlds' && Reaches(worlds', events', w')
    ensures w' == w.(tasks := w.tasks[t := ConnectReady(p, a, Check(Here(w), now))], started := w.started + {t})
  {
    hide Next, T.TunnelIsCurrent, Authentic, Named, OwnsTunnel, IsRun;
    var check := Check(Here(w), now);
    ConnectSteps(w, t, 0, now);
    var w1 := Begin(w, t, ConnectNamed(p, a));
    worlds', events' := Extend(worlds, events, w, ConnectArrives(t, p.id, p.host, p.token, a));
    ConnectSteps(w1, t, 0, now);
    var w2 := Become(w1, t, ConnectAuthed(p, a, check));
    worlds', events' := Extend(worlds', events', w1, ConnectAuthenticates(t, now));
    ConnectSteps(w2, t, 0, now);
    var w3 := Become(w2, t, ConnectListed(p, a, check));
    worlds', events' := Extend(worlds', events', w2, ConnectLists(t));
    ConnectSteps(w3, t, 0, now);
    worlds', events' := Extend(worlds', events', w3, ConnectChecks(t, now));
    w' := Become(w3, t, ConnectReady(p, a, check));
  }

  lemma HeldIsDelivered(worlds: seq<World>, events: seq<Event>, w: World, t: nat, p: Peer, a: Attach, auth: Check,
      take: Take, now: Instant)
    returns (worlds': seq<World>, events': seq<Event>, w': World)
    requires Reaches(worlds, events, w) && t in w.tasks && w.tasks[t] == ConnectTook(p, a, auth, take)
    requires OwnsTunnel(w.tunnels, p.host, p.id, a.generation)
    requires T.TunnelIsCurrent(Database(w), p.id, w.gateway, a.generation, now)
    ensures worlds <= worlds' && Reaches(worlds', events', w') && w'.tickets == w.tickets
    ensures w'.deliveries == w.deliveries + [Delivery(p, a, auth, take, Check(Here(w), now))]
  {
    hide Next, T.TunnelIsCurrent, OwnsTunnel, IsRun;
    HolderSteps(w, t, now);
    var w1 := Become(w, t, ConnectOwner(p, a, auth, take));
    worlds', events' := Extend(worlds, events, w, ConnectOwns(t));
    HolderSteps(w1, t, now);
    var w2 := Become(w1, t, ConnectPassed(p, a, auth, take, Check(Here(w), now)));
    worlds', events' := Extend(worlds', events', w1, ConnectRechecks(t, now));
    HolderSteps(w2, t, now);
    worlds', events' := Extend(worlds', events', w2, Delivers(t));
    w' := Next(w2, Delivers(t));
  }

  /** End to end: an installation that is named, authenticated and placed here opens its tunnel,
      a browser asks for its host, and the installation's CONNECT gets that browser. */
  lemma BrowserIsServed(worlds: seq<World>, events: seq<Event>, w: World, id: Uuid, host: string, token: string,
      post: nat, browser: nat, connect: nat, key: nat, now: Instant)
    returns (worlds': seq<World>, events': seq<Event>, w': World)
    requires Reaches(worlds, events, w) && w.gateway != "" && key !in w.issued
    requires post !in w.started && browser !in w.started && connect !in w.started
    requires post != browser && post != connect && browser != connect
    requires Named(Database(w), id, host) && Authentic(Database(w), id, token, now)
    requires Database(w).installations[id].placement == w.gateway
    ensures worlds <= worlds' && Reaches(worlds', events', w') && |w'.deliveries| == |w.deliveries| + 1
    ensures var d := w'.deliveries[|w.deliveries|];
      && d.take.key == key && d.take.ticket.browser == browser && d.take.ticket.deadline == now + 10000
      && d.p.id == id && d.p.host == host && d.p.token == token
      && d.a.generation == Database(w).installations[id].generation + 1
  {
    hide IsRun, T.TunnelIsCurrent, T.Authenticates;
    var w1, w2;
    worlds', events', w1 := TunnelOpens(worlds, events, w, post, id, host, token, now);
    StillAuthentic(Database(w), Database(w1), id, token, now);
    worlds', events', w2 := BrowserWaits(worlds', events', w1, browser, host, key, now);
    worlds', events', w' := TicketIsDelivered(worlds', events', w2, connect, token, key, now);
  }

  lemma StillAuthentic(db: Db, db': Db, id: Uuid, token: string, now: Instant)
    requires id in db.installations && id in db'.installations && Authentic(db, id, token, now)
    requires db'.installations[id].bearers == db.installations[id].bearers
    requires db'.installations[id].state == db.installations[id].state
    ensures Authentic(db', id, token, now)
  {
    var g :| T.Authenticates(db, id, Scope.Tunnel, token, now, g);
    assert T.Authenticates(db', id, Scope.Tunnel, token, now, g);
  }

  /** A running tunnel's heartbeat keeps its lease for 45 seconds more. */
  lemma BeatExtends(worlds: seq<World>, events: seq<Event>, w: World, t: nat, now: Instant)
    returns (worlds': seq<World>, events': seq<Event>, w': World)
    requires Reaches(worlds, events, w) && t in w.tasks && w.tasks[t].Lifecycle?
    requires var task := w.tasks[t];
      && OwnsTunnel(w.tunnels, task.p.host, task.p.id, task.generation)
      && T.TunnelIsCurrent(Database(w), task.p.id, w.gateway, task.generation, now)
    ensures worlds <= worlds' && Reaches(worlds', events', w') && w'.tunnels == w.tunnels
    ensures forall now' ::
      T.TunnelIsCurrent(Database(w'), w.tasks[t].p.id, w.gateway, w.tasks[t].generation, now') <==> now' < now + 45000
  {
    hide IsRun, T.TunnelIsCurrent, T.RenewTunnel, OwnsTunnel;
    var p, g := w.tasks[t].p, w.tasks[t].generation;
    BeatSteps(w, t, now);
    Effects.RenewTunnelExact(Database(w), p.id, w.gateway, g, now);
    worlds', events' := Extend(worlds, events, w, Beats(t, now));
    w' := Next(w, Beats(t, now));
  }

  lemma BeatSteps(w: World, t: nat, now: Instant)
    requires w.states != [] && t in w.tasks && w.tasks[t].Lifecycle?
    requires OwnsTunnel(w.tunnels, w.tasks[t].p.host, w.tasks[t].p.id, w.tasks[t].generation)
    ensures var w' := Next(w, Beats(t, now));
      && w'.tunnels == w.tunnels && w'.states != []
      && Database(w') == T.RenewTunnel(Database(w), w.tasks[t].p.id, w.gateway, w.tasks[t].generation, now).0
  {
    hide T.RenewTunnel, OwnsTunnel;
  }
}
