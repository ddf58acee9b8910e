/** Runs of the witness that show where its guarantees end. */
module WitnessExamples {
  import opened Schema
  import opened Witness
  import opened WitnessRuns

  // ------------------------------------------------------------------
  // Playing events
  // ------------------------------------------------------------------

  ghost function Play(w: World, events: seq<Event>): World {
    if events == [] then w else Next(Play(w, events[..|events| - 1]), events[|events| - 1])
  }

  ghost function Trace(w: World, events: seq<Event>): seq<World> {
    seq(|events| + 1, i requires 0 <= i <= |events| => Play(w, events[..i]))
  }

  lemma TraceIsRun(w: World, events: seq<Event>)
    requires Initial(w)
    ensures IsRun(Trace(w, events), events) && Trace(w, events)[|events|] == Play(w, events)
  {
    forall i | 0 <= i < |events| ensures Trace(w, events)[i + 1] == Next(Trace(w, events)[i], events[i]) {
      assert events[..i + 1][..i] == events[..i];
    }
    assert events[..|events|] == events;
  }

  lemma {:induction false} PlayJoin(w: World, es: seq<Event>, fs: seq<Event>)
    ensures Play(w, es + fs) == Play(Play(w, es), fs)
    decreases |fs|
  {
    hide Next;
    if fs == [] {
      assert es + fs == es;
    } else {
      var n := |fs| - 1;
      PlayJoin(w, es, fs[..n]);
      assert (es + fs)[..|es + fs| - 1] == es + fs[..n];
    }
  }

  lemma PlayOne(w: World, e: Event)
    ensures Play(w, [e]) == Next(w, e)
  {
    assert [e][..0] == [];
  }

  lemma PlayTwo(w: World, a: Event, b: Event)
    ensures Play(w, [a] + [b]) == Next(Next(w, a), b)
  {
    hide Next;
    PlayOne(w, a);
    PlayJoin(w, [a], [b]);
    PlayOne(Next(w, a), b);
  }

  function Enter(p: nat): seq<Event> {
    [Begin(p)] + [Load(p)]
  }

  function Consult(p: nat): seq<Event> {
    [Fetch(p)] + [Event.Verdict(p)]
  }

  function Record(p: nat, tag: nat): seq<Event> {
    [Swap(p, tag)] + [Finish(p)]
  }

  ghost function Entered(w: World, p: nat): World
    requires p in w.procs
  {
    var proc := w.procs[p];
    w.(locks := w.locks[proc.host := p],
      procs := w.procs[p := proc.(phase := Loaded(0, w.remoteHigh, w.revision, Local(w, proc.host)))])
  }

  lemma EnterPlays(w: World, p: nat)
    requires p in w.procs && w.procs[p].phase.Idle? && w.procs[p].host !in w.locks
    ensures Play(w, Enter(p)) == Entered(w, p)
  {
    hide Play;
    PlayTwo(w, Begin(p), Load(p));
    var w1 := Next(w, Begin(p));
    assert w1 == Move(w, p, Holding(0, w.remoteHigh)).(locks := w.locks[w.procs[p].host := p]);
    LoadNext(w1, p);
    hide Next;
    assert Entered(w, p).procs ==
      w1.procs[p := w1.procs[p].(phase := Loaded(0, w.remoteHigh, w.revision, Local(w, w.procs[p].host)))];
  }

  lemma LoadNext(w: World, p: nat)
    requires p in w.procs && w.procs[p].phase.Holding?
    ensures var s := w.procs[p].phase;
      Next(w, Load(p)) == Move(w, p, Loaded(s.attempt, s.floor, w.revision, Local(w, w.procs[p].host)))
  {
  }

  /** What a process with an empty cache reads of the remote. */
  ghost function Seen(w: World, p: nat): Option<Remote>
    requires p in w.procs
  {
    if w.procs[p].hasRemote then w.remote else None
  }

  lemma ConsultPlays(w: World, p: nat)
    requires p in w.procs && w.procs[p].seen.None? && w.procs[p].phase.Loaded?
    ensures var s := w.procs[p].phase;
      Play(w, Consult(p)) ==
      match Judge(s.revision, w.pristine, s.local, Seen(w, p))
      case Refuse(error) => RefuseCheck(w, p, error)
      case Proceed => Move(w, p, Passed(s.attempt, s.floor, s.revision, s.local, Seen(w, p)))
  {
    hide Play, Judge, Next, RefuseCheck;
    PlayTwo(w, Fetch(p), Event.Verdict(p));
    FetchNext(w, p);
    VerdictNext(FetchRemote(w, p), p);
    SameRefusal(w, FetchRemote(w, p), p);
  }

  lemma FetchNext(w: World, p: nat)
    requires p in w.procs && w.procs[p].seen.None? && w.procs[p].phase.Loaded?
    ensures Next(w, Fetch(p)) == FetchRemote(w, p)
  {
  }

  lemma SameRefusal(w: World, w': World, p: nat)
    requires p in w.procs && p in w'.procs && w' == Move(w, p, w'.procs[p].phase)
    ensures forall error :: RefuseCheck(w', p, error) == RefuseCheck(w, p, error)
  {
  }

  /** The world after a process records the revision it checked: in its host's file and, when
      it has a remote, there too. */
  ghost function Recorded(w: World, p: nat, revision: nat, floor: nat, tag: nat): World
    requires p in w.procs
  {
    var proc := w.procs[p];
    var remote := if proc.hasRemote && RevisionOf(w.remote) != Some(revision) then Some(Remote(revision, tag))
      else w.remote;
    var high := HostHigh(w, proc.host);
    w.(remote := remote, locals := w.locals[proc.host := revision], locks := w.locks - {proc.host},
    procs := w.procs[p := Proc(proc.host, proc.hasRemote, if proc.hasRemote then remote else proc.seen, Idle)],
    hostHigh := w.hostHigh[proc.host := MaxNat(high, revision)],
    remoteHigh := if proc.hasRemote then MaxNat(w.remoteHigh, revision) else w.remoteHigh,
    log := w.log + [Ack(p, proc.host, proc.hasRemote, false, revision, high, floor)])
  }

  lemma RecordPlays(w: World, p: nat, tag: nat)
    requires p in w.procs && w.procs[p].phase.Passed? && w.procs[p].phase.remote == Seen(w, p)
    ensures Play(w, Record(p, tag)) == Recorded(w, p, w.procs[p].phase.revision, w.procs[p].phase.floor, tag)
  {
    hide Play;
    PlayTwo(w, Swap(p, tag), Finish(p));
    var w1 := SwapRemote(w, p, tag);
    assert Next(w, Swap(p, tag)) == w1;
    FinishNext(w1, p);
    hide Next;
    RecordedBoth(w, p, tag);
  }

  lemma FinishNext(w: World, p: nat)
    requires p in w.procs && w.procs[p].phase.Stored?
    ensures Next(w, Finish(p)) == FinishCheck(w, p)
  {
    hide FinishCheck;
  }

  lemma RecordedBoth(w: World, p: nat, tag: nat)
    requires p in w.procs && w.procs[p].phase.Passed? && w.procs[p].phase.remote == Seen(w, p)
    ensures var w1 := SwapRemote(w, p, tag);
      && p in w1.procs && w1.procs[p].phase.Stored?
      && FinishCheck(w1, p) == Recorded(w, p, w.procs[p].phase.revision, w.procs[p].phase.floor, tag)
  {
    hide SwapRemote, FinishCheck, Recorded;
    SwapStores(w, p, tag);
    StoredRecords(w, p, tag);
  }

  /** The world between the two writes. */
  ghost function Halfway(w: World, p: nat, tag: nat): World
    requires p in w.procs && w.procs[p].phase.Passed?
  {
    var proc, s := w.procs[p], w.procs[p].phase;
    var remote := if proc.hasRemote && RevisionOf(w.remote) != Some(s.revision) then Some(Remote(s.revision, tag))
      else w.remote;
    w.(remote := remote,
      procs := w.procs[p := Proc(proc.host, proc.hasRemote, if proc.hasRemote then remote else proc.seen,
      Stored(s.floor, s.revision, s.local))])
  }

  lemma SwapStores(w: World, p: nat, tag: nat)
    requires p in w.procs && w.procs[p].phase.Passed? && w.procs[p].phase.remote == Seen(w, p)
    ensures SwapRemote(w, p, tag) == Halfway(w, p, tag)
  {
    hide Release;
  }

  lemma StoredRecords(w: World, p: nat, tag: nat)
    requires p in w.procs && w.procs[p].phase.Passed?
    ensures p in Halfway(w, p, tag).procs && Halfway(w, p, tag).procs[p].phase.Stored?
    ensures FinishCheck(Halfway(w, p, tag), p) == Recorded(w, p, w.procs[p].phase.revision, w.procs[p].phase.floor, tag)
  {
    var a, b := FinishCheck(Halfway(w, p, tag), p), Recorded(w, p, w.procs[p].phase.revision, w.procs[p].phase.floor,
      tag);
    assert a.procs == b.procs;
  }

  function Solo(p: nat, tag: nat): seq<Event> {
    Enter(p) + Consult(p) + Record(p, tag)
  }

  /** An uncontended full check by an idle process with an empty cache. */
  lemma SoloPlays(w: World, p: nat, tag: nat)
    requires p in w.procs && w.procs[p].seen.None? && w.procs[p].phase.Idle? && w.procs[p].host !in w.locks
    requires Judge(w.revision, w.pristine, Local(w, w.procs[p].host), Seen(w, p)).Proceed?
    ensures Play(w, Solo(p, tag)) == Recorded(w, p, w.revision, w.remoteHigh, tag)
  {
    hide Play, Next, Judge;
    PlayJoin(w, Enter(p) + Consult(p), Record(p, tag));
    PlayJoin(w, Enter(p), Consult(p));
    EnterPlays(w, p);
    var w1 := Entered(w, p);
    ConsultPlays(w1, p);
    var w2 := Play(w1, Consult(p));
    hide Solo, Enter, Consult, Record;
    RecordPlays(w2, p, tag);
    SoloRecorded(w, p, tag);
  }

  lemma SoloRecorded(w: World, p: nat, tag: nat)
    requires p in w.procs && w.procs[p].phase.Idle? && w.procs[p].host !in w.locks
    ensures var s := Entered(w, p).procs[p].phase;
      var w2 := Move(Entered(w, p), p, Passed(s.attempt, s.floor, s.revision, s.local, Seen(w, p)));
      Recorded(w2, p, w.revision, w.remoteHigh, tag) == Recorded(w, p, w.revision, w.remoteHigh, tag)
  {
    var s := Entered(w, p).procs[p].phase;
    var w2 := Move(Entered(w, p), p, Passed(s.attempt, s.floor, s.revision, s.local, Seen(w, p)));
    var a, b := Recorded(w2, p, w.revision, w.remoteHigh, tag), Recorded(w, p, w.revision, w.remoteHigh, tag);
    assert a.locks == b.locks && a.procs == b.procs;
  }

  // ------------------------------------------------------------------
  // A fleet of three processes on three hosts
  // ------------------------------------------------------------------

  /** A new deployment: an empty database at revision 1. The first process may be local-only. */
  ghost function Fleet(hasRemote: bool): World {
    World(1, true, map[], map[], None,
      map[1 := Proc(1, hasRemote, None, Idle), 2 := Proc(2, true, None, Idle), 3 := Proc(3, true, None, Idle)], map[],
        0, [])
  }

  function Deploy(hasRemote: bool): seq<Event> {
    [Start(1, 1, hasRemote)] + [Start(2, 2, true)] + [Start(3, 3, true)]
  }

  ghost function Empty(): World {
    World(1, true, map[], map[], None, map[], map[], 0, [])
  }

  lemma DeployPlays(hasRemote: bool)
    ensures Initial(Empty()) && Play(Empty(), Deploy(hasRemote)) == Fleet(hasRemote)
  {
    var w := Empty();
    PlayTwo(w, Start(1, 1, hasRemote), Start(2, 2, true));
    PlayJoin(w, [Start(1, 1, hasRemote)] + [Start(2, 2, true)], [Start(3, 3, true)]);
    PlayOne(Next(Next(w, Start(1, 1, hasRemote)), Start(2, 2, true)), Start(3, 3, true));
    hide Play;
  }

  lemma AdvancePlays(w: World)
    requires w.pristine
    ensures Play(w, [Advance(true)]) == w.(revision := w.revision + 1)
  {
    PlayOne(w, Advance(true));
  }

  lemma RestorePlays(w: World)
    requires w.pristine
    ensures Play(w, [Restore(1, true)]) == w.(revision := 1)
  {
    PlayOne(w, Restore(1, true));
  }

  /** A run that has played so far. */
  ghost predicate At(events: seq<Event>, w: World) {
    Play(Empty(), events) == w
  }

  lemma Then(events: seq<Event>, w: World, more: seq<Event>) returns (events': seq<Event>, w': World)
    requires At(events, w)
    ensures events' == events + more && w' == Play(w, more) && At(events', w')
  {
    hide Play;
    PlayJoin(Empty(), events, more);
    events', w' := events + more, Play(w, more);
  }

  /** The database advances and `p` checks it. */
  lemma NextCheck(events: seq<Event>, w: World, p: nat, tag: nat) returns (events': seq<Event>, w': World)
    requires At(events, w) && w.pristine && p in w.procs && w.procs[p].seen.None? && w.procs[p].phase.Idle?
    requires w.procs[p].host !in w.locks
    requires Judge(w.revision + 1, true, Local(w, w.procs[p].host), Seen(w, p)).Proceed?
    ensures At(events', w') && w' == Recorded(w.(revision := w.revision + 1), p, w.revision + 1, w.remoteHigh, tag)
    ensures events' == events + [Advance(true)] + Solo(p, tag)
  {
    hide At, Play, Judge, Solo;
    AdvancePlays(w);
    var e1, w1 := Then(events, w, [Advance(true)]);
    SoloPlays(w1, p, tag);
    events', w' := Then(e1, w1, Solo(p, tag));
  }

  lemma Check(events: seq<Event>, w: World, p: nat, tag: nat) returns (events': seq<Event>, w': World)
    requires At(events, w) && p in w.procs && w.procs[p].seen.None? && w.procs[p].phase.Idle?
    requires w.procs[p].host !in w.locks
    requires Judge(w.revision, w.pristine, Local(w, w.procs[p].host), Seen(w, p)).Proceed?
    ensures At(events', w') && w' == Recorded(w, p, w.revision, w.remoteHigh, tag) && events' == events + Solo(p, tag)
  {
    hide At, Play, Judge, Solo;
    SoloPlays(w, p, tag);
    events', w' := Then(events, w, Solo(p, tag));
  }

  lemma RollBack(events: seq<Event>, w: World) returns (events': seq<Event>, w': World)
    requires At(events, w) && w.pristine
    ensures At(events', w') && w' == w.(revision := 1)
  {
    hide At, Play;
    RestorePlays(w);
    events', w' := Then(events, w, [Restore(1, true)]);
  }

  lemma Deployed(hasRemote: bool) returns (events: seq<Event>)
    ensures At(events, Fleet(hasRemote)) && events == Deploy(hasRemote)
  {
    hide Play, Deploy;
    DeployPlays(hasRemote);
    events := Deploy(hasRemote);
  }

  lemma AsRun(events: seq<Event>, w: World) returns (worlds: seq<World>)
    requires At(events, w)
    ensures IsRun(worlds, events) && worlds[|events|] == w
  {
    hide Play, Next;
    worlds := Trace(Empty(), events);
    TraceIsRun(Empty(), events);
  }

  /** An acknowledgement of 2 that a later one of 1 undercuts. */
  ghost predicate Undercut(w: World, i: nat, j: nat) {
    i < j < |w.log| && w.log[i].Ack? && w.log[j].Ack? && w.log[i].revision == 2 && w.log[j].revision == 1
  }

  /** The cache can accept a rolled-back database: another host has acknowledged a later
      revision remotely, and this host's file and cache still hold the restored one. */
  lemma CacheMissesRollback() returns (worlds: seq<World>, events: seq<Event>)
    ensures IsRun(worlds, events)
    ensures var w := worlds[|events|];
      Undercut(w, 1, 2) && w.log[1].hasRemote && w.log[2].hasRemote && w.log[2].fast && w.log[2].floor == 2
  {
    hide At, Play, Next, Solo, Enter, Deploy;
    events := Deployed(true);
    var w := Fleet(true);
    events, w := Check(events, w, 1, 7);
    events, w := NextCheck(events, w, 2, 8);
    events, w := RollBack(events, w);
    EnterPlays(w, 1);
    events, w := Then(events, w, Enter(1));
    ShortcutPlays(w, 1);
    events, w := Then(events, w, [Shortcut(1)]);
    worlds := AsRun(events, w);
  }

  lemma ShortcutPlays(w: World, p: nat)
    requires p in w.procs && CacheHit(w.procs[p])
    ensures Play(w, [Shortcut(p)]) == Acknowledge(w, p, true, w.procs[p].phase.revision, w.procs[p].phase.floor)
  {
    PlayOne(w, Shortcut(p));
    hide Play, Acknowledge;
  }

  /** A full check can refuse a database that never went back: another host acknowledges a
      newer revision between the check's two reads. */
  lemma RefusalWithoutRollback() returns (worlds: seq<World>, events: seq<Event>)
    ensures IsRun(worlds, events) && forall i | 0 <= i < |events| :: !events[i].Restore?
    ensures LastIsRefusal(worlds[|events|], StaleDatabase)
  {
    hide At, Play, Next, Solo, Enter, Deploy, Consult;
    events := Deployed(true);
    var w := Fleet(true);
    events, w := Check(events, w, 2, 7);
    EnterPlays(w, 1);
    events, w := Then(events, w, Enter(1));
    events, w := NextCheck(events, w, 3, 8);
    ConsultPlays(w, 1);
    events, w := Then(events, w, Consult(1));
    worlds := AsRun(events, w);
    NoRestores();
  }

  lemma NoRestores()
    ensures forall e | e in Deploy(true) || e in Solo(2, 7) || e in Enter(1) || e in Solo(3, 8) || e in Consult(1) ::
      !e.Restore?
  {
  }

  // ------------------------------------------------------------------
  // Dropping the conditions under which an acknowledgement is protected
  // ------------------------------------------------------------------

  /** The earlier process is local-only: a full check on another host accepts less. */
  lemma LocalAcknowledgementForgotten() returns (worlds: seq<World>, events: seq<Event>)
    ensures IsRun(worlds, events)
    ensures var w := worlds[|events|];
      Undercut(w, 1, 2) && !w.log[1].hasRemote && w.log[2].hasRemote && !w.log[2].fast && w.log[1].host != w.log[2].host
  {
    hide At, Play, Next, Solo, Deploy;
    events := Deployed(false);
    var w := Fleet(false);
    events, w := Check(events, w, 1, 0);
    events, w := NextCheck(events, w, 1, 0);
    events, w := RollBack(events, w);
    events, w := Check(events, w, 2, 7);
    worlds := AsRun(events, w);
  }

  /** The later process is local-only: it accepts less than the remote holds. */
  lemma LocalCheckUnaware() returns (worlds: seq<World>, events: seq<Event>)
    ensures IsRun(worlds, events)
    ensures var w := worlds[|events|];
      Undercut(w, 1, 2) && w.log[1].hasRemote && !w.log[2].hasRemote && w.log[1].host != w.log[2].host
        && w.log[2].floor == 2
  {
    hide At, Play, Next, Solo, Deploy;
    events := Deployed(false);
    var w := Fleet(false);
    events, w := Check(events, w, 2, 7);
    events, w := NextCheck(events, w, 3, 8);
    events, w := RollBack(events, w);
    events, w := Check(events, w, 1, 0);
    worlds := AsRun(events, w);
  }

  /** The later full check began first: it finishes below what was acknowledged meanwhile,
      although the database never went back. */
  lemma EarlierCheckOvertaken() returns (worlds: seq<World>, events: seq<Event>)
    ensures IsRun(worlds, events) && forall i | 0 <= i < |events| :: !events[i].Restore?
    ensures var w := worlds[|events|];
      Undercut(w, 1, 2) && w.log[1].hasRemote && w.log[2].hasRemote && !w.log[2].fast && w.log[2].floor < 2
  {
    hide At, Play, Next, Solo, Enter, Deploy, Consult, Record;
    events := Deployed(true);
    var w := Fleet(true);
    events, w := Check(events, w, 2, 7);
    EnterPlays(w, 1);
    events, w := Then(events, w, Enter(1));
    ConsultPlays(w, 1);
    events, w := Then(events, w, Consult(1));
    events, w := NextCheck(events, w, 3, 8);
    KnownPlays(w, 1, 0);
    events, w := Then(events, w, Record(1, 0));
    worlds := AsRun(events, w);
    NoRestores();
    NoRestoreRecords();
  }

  lemma NoRestoreRecords()
    ensures forall e | e in Record(1, 0) :: !e.Restore?
  {
  }

  /** A check that found its revision in the remote writes only its host's file. */
  lemma KnownPlays(w: World, p: nat, tag: nat)
    requires p in w.procs && w.procs[p].hasRemote && w.procs[p].phase.Passed?
    requires RevisionOf(w.procs[p].phase.remote) == Some(w.procs[p].phase.revision)
    ensures var w', s := Play(w, Record(p, tag)), w.procs[p].phase;
      w'.log == w.log + [Ack(p, w.procs[p].host, true, false, s.revision, HostHigh(w, w.procs[p].host), s.floor)]
  {
    hide Play;
    PlayTwo(w, Swap(p, tag), Finish(p));
    var w1 := SwapRemote(w, p, tag);
    assert Next(w, Swap(p, tag)) == w1;
    FinishNext(w1, p);
    hide Next;
  }

  /** The host was lost in between: its file no longer remembers. */
  lemma LostHostForgets() returns (worlds: seq<World>, events: seq<Event>)
    ensures IsRun(worlds, events)
    ensures var w := worlds[|events|]; Undercut(w, 1, 2) && w.log[1].host == w.log[2].host
  {
    hide At, Play, Next, Solo, Deploy;
    events := Deployed(false);
    var w := Fleet(false);
    events, w := Check(events, w, 1, 0);
    events, w := NextCheck(events, w, 1, 0);
    LossPlays(w, 1);
    events, w := Then(events, w, [HostLost(1)]);
    events, w := RollBack(events, w);
    events, w := Check(events, w, 1, 0);
    worlds := AsRun(events, w);
  }

  lemma LossPlays(w: World, p: nat)
    requires p in w.procs && w.procs[p].phase.Idle? && w.procs[p].seen.None?
    ensures var w' := Play(w, [HostLost(w.procs[p].host)]);
      && w'.log == w.log && w'.pristine == w.pristine && w'.revision == w.revision && w'.remoteHigh == w.remoteHigh
      && w'.remote == w.remote
      && p in w'.procs && w'.procs[p] == w.procs[p] && Local(w', w.procs[p].host).None? && w.procs[p].host !in w'.locks
  {
    PlayOne(w, HostLost(w.procs[p].host));
  }
}
