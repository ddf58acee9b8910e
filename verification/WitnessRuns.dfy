/** All processes of all hosts checking the witness at once. */
module WitnessRuns {
  import opened Schema
  import opened Witness

  // ------------------------------------------------------------------
  // The world
  // ------------------------------------------------------------------

  /** Where a check is; `floor` is the highest remotely recorded acknowledgement when it began. */
  datatype Phase =
    | Idle
    | Holding(attempt: nat, floor: nat)
    | Loaded(attempt: nat, floor: nat, revision: nat, local: Option<nat>)
    | Fetched(attempt: nat, floor: nat, revision: nat, local: Option<nat>, remote: Option<Remote>)
    | Passed(attempt: nat, floor: nat, revision: nat, local: Option<nat>, remote: Option<Remote>)
    | Stored(floor: nat, revision: nat, local: Option<nat>)

  /** `seen` is the process's cached remote revision. */
  datatype Proc = Proc(host: nat, hasRemote: bool, seen: Option<Remote>, phase: Phase)

  /** A finished check. `hostFloor` is the highest acknowledgement on its host until then. */
  datatype Outcome =
    | Ack(proc: nat, host: nat, hasRemote: bool, fast: bool, revision: nat, hostFloor: nat, floor: nat)
    | Refused(proc: nat, error: WitnessError)

  /** `hostHigh` and `remoteHigh` are the highest acknowledgements on each host since it
      was last replaced, and by remote-configured processes anywhere. */
  datatype World = World(
    revision: nat,
    pristine: bool,
    locals: map<nat, nat>,
    locks: map<nat, nat>,
    remote: Option<Remote>,
    procs: map<nat, Proc>,
    hostHigh: map<nat, nat>,
    remoteHigh: nat,
    log: seq<Outcome>)

  datatype Event =
    | Advance(pristine: bool)
    | Restore(revision: nat, pristine: bool)
    | HostLost(host: nat)
    | Start(p: nat, host: nat, hasRemote: bool)
    | Crash(p: nat)
    | Fail(p: nat)
    | Begin(p: nat)
    | Load(p: nat)
    | Shortcut(p: nat)
    | Fetch(p: nat)
    | Verdict(p: nat)
    | Swap(p: nat, tag: nat)
    | SwapLost(p: nat, tag: nat)
    | Finish(p: nat)
    | FinishLost(p: nat)

  function Local(w: World, host: nat): Option<nat> {
    if host in w.locals then Some(w.locals[host]) else None
  }

  function HostHigh(w: World, host: nat): nat {
    if host in w.hostHigh then w.hostHigh[host] else 0
  }

  function Move(w: World, p: nat, phase: Phase): World
    requires p in w.procs
  {
    w.(procs := w.procs[p := w.procs[p].(phase := phase)])
  }

  /** The check ends and the host lock is released. */
  function Release(w: World, p: nat, seen: Option<Remote>): World
    requires p in w.procs
  {
    w.(procs := w.procs[p := w.procs[p].(phase := Idle, seen := seen)], locks := w.locks - {w.procs[p].host})
  }

  function Acknowledge(w: World, p: nat, fast: bool, revision: nat, floor: nat): World
    requires p in w.procs
  {
    var proc := w.procs[p];
    var high := HostHigh(w, proc.host);
    Release(w, p, proc.seen).(
    hostHigh := w.hostHigh[proc.host := MaxNat(high, revision)],
    remoteHigh := if proc.hasRemote then MaxNat(w.remoteHigh, revision) else w.remoteHigh,
    log := w.log + [Ack(p, proc.host, proc.hasRemote, fast, revision, high, floor)])
  }

  function MaxNat(a: nat, b: nat): nat {
    if a < b then b else a
  }

  function RefuseCheck(w: World, p: nat, error: WitnessError): World
    requires p in w.procs
  {
    Release(w, p, w.procs[p].seen).(log := w.log + [Refused(p, error)])
  }

  /** The condition under which a check needs no remote call. */
  predicate CacheHit(proc: Proc) {
    && proc.phase.Loaded? && proc.hasRemote && proc.seen.Some?
    && proc.seen.value.revision == proc.phase.revision && proc.phase.local == Some(proc.phase.revision)
  }

  function FetchRemote(w: World, p: nat): World
    requires p in w.procs && w.procs[p].phase.Loaded?
  {
    var s := w.procs[p].phase;
    Move(w, p, Fetched(s.attempt, s.floor, s.revision, s.local, if w.procs[p].hasRemote then w.remote else None))
  }

  function GiveVerdict(w: World, p: nat): World
    requires p in w.procs && w.procs[p].phase.Fetched?
  {
    var s := w.procs[p].phase;
    match Judge(s.revision, w.pristine, s.local, s.remote)
    case Refuse(error) => RefuseCheck(w, p, error)
    case Proceed => Move(w, p, Passed(s.attempt, s.floor, s.revision, s.local, s.remote))
  }

  function SwapRemote(w: World, p: nat, tag: nat): World
    requires p in w.procs && w.procs[p].phase.Passed?
  {
    var proc := w.procs[p];
    var s := proc.phase;
    if !proc.hasRemote then Move(w, p, Stored(s.floor, s.revision, s.local))
    else if RevisionOf(s.remote) == Some(s.revision) then
      w.(procs := w.procs[p := proc.(seen := s.remote, phase := Stored(s.floor, s.revision, s.local))])
    else if w.remote == s.remote then
      var written := Some(Remote(s.revision, tag));
      w.(remote := written,
        procs := w.procs[p := proc.(seen := written, phase := Stored(s.floor, s.revision, s.local))])
    else if s.attempt + 1 < REMOTE_ATTEMPTS then
      w.(procs := w.procs[p := proc.(seen := None, phase := Holding(s.attempt + 1, s.floor))])
    else Release(w, p, None).(log := w.log + [Refused(p, RemoteContention)])
  }

  function WriteLocal(w: World, p: nat): World
    requires p in w.procs && w.procs[p].phase.Stored?
  {
    w.(locals := w.locals[w.procs[p].host := w.procs[p].phase.revision])
  }

  function FinishCheck(w: World, p: nat): World
    requires p in w.procs && w.procs[p].phase.Stored?
  {
    Acknowledge(WriteLocal(w, p), p, false, w.procs[p].phase.revision, w.procs[p].phase.floor)
  }

  /** One step. An event that is not possible changes nothing. `SwapLost` and `FinishLost`
      are writes whose success the process does not learn of; a crash may follow. */
  function Next(w: World, e: Event): World {
    match e
    case Advance(pristine) => w.(revision := w.revision + 1, pristine := pristine)
    case Restore(revision, pristine) => w.(revision := revision, pristine := pristine)
    case HostLost(host) =>
      w.(locals := w.locals - {host}, locks := w.locks - {host}, hostHigh := w.hostHigh - {host},
      procs := map p | p in w.procs :: if w.procs[p].host == host then w.procs[p].(seen := None, phase := Idle)
        else w.procs[p])
    case Start(p, host, hasRemote) =>
      if p in w.procs then w else w.(procs := w.procs[p := Proc(host, hasRemote, None, Idle)])
    case _ => if e.p in w.procs then Proceed(w, e, w.procs[e.p]) else w
  }

  function Proceed(w: World, e: Event, proc: Proc): World
    requires e.Crash? || e.Fail? || e.Begin? || e.Load? || e.Shortcut? || e.Fetch? || e.Verdict? || e.Swap?
      || e.SwapLost? || e.Finish? || e.FinishLost?
    requires e.p in w.procs && proc == w.procs[e.p]
  {
    if e.Crash? then
      if proc.phase.Idle? then w.(procs := w.procs[e.p := proc.(seen := None)]) else Release(w, e.p, None)
    else if e.Fail? then
      if proc.phase.Idle? then w else Release(w, e.p, proc.seen)
    else
      match proc.phase
      case Idle => if e.Begin? && proc.host !in w.locks
        then Move(w, e.p, Holding(0, w.remoteHigh)).(locks := w.locks[proc.host := e.p]) else w
      case Holding(attempt, floor) => if e.Load?
        then Move(w, e.p, Loaded(attempt, floor, w.revision, Local(w, proc.host))) else w
      case Loaded(_, floor, revision, _) =>
        if e.Shortcut? && CacheHit(proc) then Acknowledge(w, e.p, true, revision, floor)
        else if e.Fetch? && !CacheHit(proc) then FetchRemote(w, e.p)
        else w
      case Fetched(_, _, _, _, _) => if e.Verdict? then GiveVerdict(w, e.p) else w
      case Passed(_, _, revision, _, remote) =>
        if e.Swap? then SwapRemote(w, e.p, e.tag)
        else if e.SwapLost? && proc.hasRemote && RevisionOf(remote) != Some(revision) && w.remote == remote
        then Release(w, e.p, proc.seen).(remote := Some(Remote(revision, e.tag)))
        else w
      case Stored(_, _, _) =>
        if e.Finish? then FinishCheck(w, e.p)
        else if e.FinishLost? then Release(WriteLocal(w, e.p), e.p, proc.seen)
        else w
  }

  ghost predicate Initial(w: World) {
    w.locals == map[] && w.locks == map[] && w.remote.None? && w.procs == map[] && w.hostHigh == map[]
      && w.remoteHigh == 0 && w.log == []
  }

  ghost predicate IsRun(worlds: seq<World>, events: seq<Event>) {
    && |worlds| == |events| + 1 && Initial(worlds[0])
    && forall i | 0 <= i < |events| :: worlds[i + 1] == Next(worlds[i], events[i])
  }

  // ------------------------------------------------------------------
  // The invariant
  // ------------------------------------------------------------------

  /** `mark` records at least `n`. */
  predicate Covers(mark: Option<nat>, n: nat) {
    n > 0 ==> mark.Some? && n <= mark.value
  }

  ghost predicate CheckOk(w: World, proc: Proc) {
    match proc.phase
    case Idle => true
    case Holding(attempt, floor) => attempt < REMOTE_ATTEMPTS && floor <= w.remoteHigh
    case Loaded(attempt, floor, revision, local) => attempt < REMOTE_ATTEMPTS && floor <= w.remoteHigh
      && local == Local(w, proc.host)
    case Fetched(attempt, floor, revision, local, remote) =>
      && attempt < REMOTE_ATTEMPTS && floor <= w.remoteHigh && local == Local(w, proc.host)
      && NotBelow(RevisionOf(remote), RevisionOf(w.remote)) && (remote.Some? ==> proc.hasRemote)
      && (proc.hasRemote ==> Covers(RevisionOf(remote), floor))
    case Passed(attempt, floor, revision, local, remote) =>
      && attempt < REMOTE_ATTEMPTS && floor <= w.remoteHigh && local == Local(w, proc.host)
      && NotBelow(RevisionOf(remote), RevisionOf(w.remote))
      && NotBelow(local, Some(revision)) && NotBelow(RevisionOf(remote), Some(revision))
      && (proc.hasRemote ==> floor <= revision)
    case Stored(floor, revision, local) =>
      && floor <= w.remoteHigh && local == Local(w, proc.host) && NotBelow(local, Some(revision))
      && (proc.hasRemote ==> floor <= revision && NotBelow(Some(revision), RevisionOf(w.remote)))
  }

  ghost predicate ProcOk(w: World, p: nat, proc: Proc) {
    && (!proc.phase.Idle? <==> proc.host in w.locks && w.locks[proc.host] == p)
    && (proc.seen.Some? ==> NotBelow(RevisionOf(proc.seen), RevisionOf(w.remote)))
    && CheckOk(w, proc)
  }

  /** An acknowledged revision is never below an earlier acknowledgement on the same host;
      a full check's is never below one the remote held before the check began. */
  predicate OutcomeOk(o: Outcome) {
    o.Ack? ==> o.hostFloor <= o.revision && (o.hasRemote && !o.fast ==> o.floor <= o.revision)
  }

  ghost predicate Inv(w: World) {
    && (forall p | p in w.procs :: ProcOk(w, p, w.procs[p]))
    && (forall h | h in w.locks :: w.locks[h] in w.procs && w.procs[w.locks[h]].host == h)
    && (forall h: nat :: Covers(Local(w, h), HostHigh(w, h)))
    && Covers(RevisionOf(w.remote), w.remoteHigh)
    && (forall i | 0 <= i < |w.log| :: OutcomeOk(w.log[i]))
  }

  /** What a step may change behind the back of a process that is not its actor. */
  ghost predicate Undisturbed(w: World, w': World, p: nat) {
    && p in w.procs && p in w'.procs && w'.procs[p] == w.procs[p]
    && (w.procs[p].host in w'.locks && w'.locks[w.procs[p].host] == p <==>
          w.procs[p].host in w.locks && w.locks[w.procs[p].host] == p)
    && (!w.procs[p].phase.Idle? ==> Local(w', w.procs[p].host) == Local(w, w.procs[p].host))
    && w.remoteHigh <= w'.remoteHigh
    && NotBelow(RevisionOf(w.remote), RevisionOf(w'.remote))
  }

  lemma UndisturbedOk(w: World, w': World, p: nat)
    requires Undisturbed(w, w', p) && ProcOk(w, p, w.procs[p])
    ensures ProcOk(w', p, w'.procs[p])
  {
  }

  /** Process `p` acts: it changes its own state, and its host's file and lock only while
      it holds the lock or the lock is free. */
  ghost predicate Acts(w: World, w': World, p: nat) {
    && p in w.procs && p in w'.procs && w'.procs == w.procs[p := w'.procs[p]]
    && w'.procs[p].host == w.procs[p].host && w'.procs[p].hasRemote == w.procs[p].hasRemote
    && (forall h | h != w.procs[p].host ::
          (h in w'.locks <==> h in w.locks) && (h in w.locks ==> w'.locks[h] == w.locks[h]))
    && (forall h | h != w.procs[p].host :: Local(w', h) == Local(w, h) && HostHigh(w', h) == HostHigh(w, h))
    && var host := w.procs[p].host;
    && (host in w.locks && w.locks[host] != p ==>
          host in w'.locks && w'.locks[host] == w.locks[host] && Local(w', host) == Local(w, host))
    && (host in w'.locks ==> w'.locks[host] == p || (host in w.locks && w'.locks[host] == w.locks[host]))
    && w.remoteHigh <= w'.remoteHigh
    && NotBelow(RevisionOf(w.remote), RevisionOf(w'.remote))
    && NotBelow(Local(w, host), Local(w', host))
  }

  lemma ActsKeeps(w: World, w': World, p: nat)
    requires Inv(w) && Acts(w, w', p) && ProcOk(w', p, w'.procs[p])
    requires Covers(Local(w', w.procs[p].host), HostHigh(w', w.procs[p].host))
    requires Covers(RevisionOf(w'.remote), w'.remoteHigh)
    requires w.log <= w'.log && forall i | |w.log| <= i < |w'.log| :: OutcomeOk(w'.log[i])
    ensures Inv(w')
  {
    hide ProcOk, OutcomeOk, Covers, NotBelow;
    forall q | q in w'.procs ensures ProcOk(w', q, w'.procs[q]) {
      if q != p {
        OthersLock(w, w', p, q);
        UndisturbedOk(w, w', q);
      }
    }
    hide Undisturbed;
    forall h: nat ensures Covers(Local(w', h), HostHigh(w', h)) {
      assert Covers(Local(w, h), HostHigh(w, h));
    }
  }

  lemma OthersLock(w: World, w': World, p: nat, q: nat)
    requires Inv(w) && Acts(w, w', p) && q in w.procs && q != p
    ensures Undisturbed(w, w', q)
  {
    hide CheckOk, OutcomeOk, Covers, NotBelow, Local, HostHigh;
    assert ProcOk(w, q, w.procs[q]);
  }

  lemma AtProc(w: World, p: nat)
    requires Inv(w) && p in w.procs
    ensures ProcOk(w, p, w.procs[p]) && Covers(RevisionOf(w.remote), w.remoteHigh)
    ensures Covers(Local(w, w.procs[p].host), HostHigh(w, w.procs[p].host))
  {
    hide ProcOk, OutcomeOk, Covers;
  }

  /** A check that stops, with or without its process. */
  lemma ReleaseKeeps(w: World, p: nat, seen: Option<Remote>)
    requires Inv(w) && p in w.procs && !w.procs[p].phase.Idle? && (seen.None? || seen == w.procs[p].seen)
    ensures Inv(Release(w, p, seen))
  {
    hide Inv;
    AtProc(w, p);
    ActsKeeps(w, Release(w, p, seen), p);
  }

  lemma RefuseKeeps(w: World, p: nat, seen: Option<Remote>, error: WitnessError)
    requires Inv(w) && p in w.procs && !w.procs[p].phase.Idle? && (seen.None? || seen == w.procs[p].seen)
    ensures Inv(Release(w, p, seen).(log := w.log + [Refused(p, error)]))
  {
    hide Inv;
    AtProc(w, p);
    ActsKeeps(w, Release(w, p, seen).(log := w.log + [Refused(p, error)]), p);
  }

  lemma CrashKeeps(w: World, e: Event)
    requires Inv(w) && (e.Crash? || e.Fail?) && e.p in w.procs
    ensures Inv(Proceed(w, e, w.procs[e.p]))
  {
    hide Inv;
    AtProc(w, e.p);
    if !w.procs[e.p].phase.Idle? {
      ReleaseKeeps(w, e.p, if e.Crash? then None else w.procs[e.p].seen);
    } else if e.Crash? {
      ActsKeeps(w, Proceed(w, e, w.procs[e.p]), e.p);
    }
  }

  lemma BeginKeeps(w: World, p: nat)
    requires Inv(w) && p in w.procs && w.procs[p].phase.Idle? && w.procs[p].host !in w.locks
    ensures Inv(Move(w, p, Holding(0, w.remoteHigh)).(locks := w.locks[w.procs[p].host := p]))
  {
    hide Inv;
    AtProc(w, p);
    ActsKeeps(w, Move(w, p, Holding(0, w.remoteHigh)).(locks := w.locks[w.procs[p].host := p]), p);
  }

  lemma LoadKeeps(w: World, p: nat)
    requires Inv(w) && p in w.procs && w.procs[p].phase.Holding?
    ensures var s := w.procs[p].phase;
      Inv(Move(w, p, Loaded(s.attempt, s.floor, w.revision, Local(w, w.procs[p].host))))
  {
    hide Inv;
    AtProc(w, p);
    var s := w.procs[p].phase;
    ActsKeeps(w, Move(w, p, Loaded(s.attempt, s.floor, w.revision, Local(w, w.procs[p].host))), p);
  }

  /** Even the cached answer is never below what its own host has acknowledged. */
  lemma ShortcutKeeps(w: World, p: nat)
    requires Inv(w) && p in w.procs && CacheHit(w.procs[p])
    ensures Inv(Acknowledge(w, p, true, w.procs[p].phase.revision, w.procs[p].phase.floor))
  {
    hide Inv;
    AtProc(w, p);
    ActsKeeps(w, Acknowledge(w, p, true, w.procs[p].phase.revision, w.procs[p].phase.floor), p);
  }

  lemma FetchKeeps(w: World, p: nat)
    requires Inv(w) && p in w.procs && w.procs[p].phase.Loaded?
    ensures Inv(FetchRemote(w, p))
  {
    hide Inv;
    AtProc(w, p);
    ActsKeeps(w, FetchRemote(w, p), p);
  }

  lemma VerdictKeeps(w: World, p: nat)
    requires Inv(w) && p in w.procs && w.procs[p].phase.Fetched?
    ensures Inv(GiveVerdict(w, p))
  {
    hide Inv;
    AtProc(w, p);
    var s := w.procs[p].phase;
    JudgeExact(s.revision, w.pristine, s.local, s.remote);
    hide Judge;
    match Judge(s.revision, w.pristine, s.local, s.remote)
    case Refuse(error) => RefuseKeeps(w, p, w.procs[p].seen, error);
    case Proceed => ActsKeeps(w, GiveVerdict(w, p), p);
  }

  lemma SwapKeeps(w: World, p: nat, tag: nat)
    requires Inv(w) && p in w.procs && w.procs[p].phase.Passed?
    ensures Inv(SwapRemote(w, p, tag))
  {
    hide Inv, Release, ProcOk;
    AtProc(w, p);
    var proc := w.procs[p];
    var s := proc.phase;
    if proc.hasRemote && RevisionOf(s.remote) != Some(s.revision) && w.remote != s.remote {
      if s.attempt + 1 >= REMOTE_ATTEMPTS {
        RefuseKeeps(w, p, None, RemoteContention);
      } else {
        RetryKeeps(w, p);
      }
    } else {
      StoreKeeps(w, p, tag);
    }
  }

  lemma RetryKeeps(w: World, p: nat)
    requires Inv(w) && p in w.procs && w.procs[p].phase.Passed? && w.procs[p].phase.attempt + 1 < REMOTE_ATTEMPTS
    ensures var s := w.procs[p].phase;
      Inv(w.(procs := w.procs[p := w.procs[p].(seen := None, phase := Holding(s.attempt + 1, s.floor))]))
  {
    hide Inv;
    AtProc(w, p);
    var s := w.procs[p].phase;
    ActsKeeps(w, w.(procs := w.procs[p := w.procs[p].(seen := None, phase := Holding(s.attempt + 1, s.floor))]), p);
  }

  lemma StoreKeeps(w: World, p: nat, tag: nat)
    requires Inv(w) && p in w.procs && w.procs[p].phase.Passed?
    requires w.procs[p].hasRemote && RevisionOf(w.procs[p].phase.remote) != Some(w.procs[p].phase.revision) ==>
      w.remote == w.procs[p].phase.remote
    ensures Inv(SwapRemote(w, p, tag))
  {
    hide Inv, Release;
    AtProc(w, p);
    ActsKeeps(w, SwapRemote(w, p, tag), p);
  }

  lemma SwapLostKeeps(w: World, p: nat, tag: nat)
    requires Inv(w) && p in w.procs && w.procs[p].phase.Passed? && w.remote == w.procs[p].phase.remote
    ensures Inv(Release(w, p, w.procs[p].seen).(remote := Some(Remote(w.procs[p].phase.revision, tag))))
  {
    hide Inv;
    AtProc(w, p);
    ActsKeeps(w, Release(w, p, w.procs[p].seen).(remote := Some(Remote(w.procs[p].phase.revision, tag))), p);
  }

  lemma FinishKeeps(w: World, p: nat)
    requires Inv(w) && p in w.procs && w.procs[p].phase.Stored?
    ensures Inv(FinishCheck(w, p))
  {
    hide Inv;
    AtProc(w, p);
    ActsKeeps(w, FinishCheck(w, p), p);
  }

  lemma FinishLostKeeps(w: World, p: nat)
    requires Inv(w) && p in w.procs && w.procs[p].phase.Stored?
    ensures Inv(Release(WriteLocal(w, p), p, w.procs[p].seen))
  {
    hide Inv;
    AtProc(w, p);
    ActsKeeps(w, Release(WriteLocal(w, p), p, w.procs[p].seen), p);
  }

  lemma ProceedKeeps(w: World, e: Event)
    requires e.Crash? || e.Fail? || e.Begin? || e.Load? || e.Shortcut? || e.Fetch? || e.Verdict? || e.Swap?
      || e.SwapLost? || e.Finish? || e.FinishLost?
    requires Inv(w) && e.p in w.procs
    ensures Inv(Proceed(w, e, w.procs[e.p]))
  {
    hide Inv, Release, Acknowledge, FetchRemote, GiveVerdict, SwapRemote, WriteLocal, FinishCheck;
    if e.Crash? || e.Fail? {
      CrashKeeps(w, e);
    } else {
      match w.procs[e.p].phase
      case Idle => if w.procs[e.p].host !in w.locks { BeginKeeps(w, e.p); }
      case Holding(_, _) => LoadKeeps(w, e.p);
      case Loaded(_, _, _, _) =>
        FetchKeeps(w, e.p);
        if CacheHit(w.procs[e.p]) { ShortcutKeeps(w, e.p); }
      case Fetched(_, _, _, _, _) => VerdictKeeps(w, e.p);
      case Passed(_, _, _, _, _) =>
        if e.Swap? {
          SwapKeeps(w, e.p, e.tag);
        } else if e.SwapLost? && w.remote == w.procs[e.p].phase.remote {
          SwapLostKeeps(w, e.p, e.tag);
        }
      case Stored(_, _, _) =>
        FinishKeeps(w, e.p);
        FinishLostKeeps(w, e.p);
    }
  }

  /** Losing a host loses its file, and with it what only that file remembered. */
  lemma HostLostKeeps(w: World, host: nat)
    requires Inv(w)
    ensures Inv(Next(w, HostLost(host)))
  {
    hide OutcomeOk, Covers, NotBelow;
    var w' := Next(w, HostLost(host));
    forall p | p in w'.procs ensures ProcOk(w', p, w'.procs[p]) {
      assert ProcOk(w, p, w.procs[p]);
      if w.procs[p].host != host {
        UndisturbedOk(w, w', p);
      }
    }
    forall h: nat ensures Covers(Local(w', h), HostHigh(w', h)) {
      assert Covers(Local(w, h), HostHigh(w, h));
      NothingCovered(Local(w', h));
    }
  }

  lemma NothingCovered(mark: Option<nat>)
    ensures Covers(mark, 0)
  {
  }

  /** The checks' guarantees do not mention the database: it may even be rolled back. */
  lemma DatabaseKeeps(w: World, w': World)
    requires Inv(w) && w' == w.(revision := w'.revision, pristine := w'.pristine)
    ensures Inv(w')
  {
    hide OutcomeOk, Covers, NotBelow, ProcOk;
    forall p | p in w'.procs ensures ProcOk(w', p, w'.procs[p]) {
      assert ProcOk(w, p, w.procs[p]);
      UndisturbedOk(w, w', p);
    }
    hide Undisturbed;
    forall h: nat ensures Covers(Local(w', h), HostHigh(w', h)) {
      assert Covers(Local(w, h), HostHigh(w, h));
    }
  }

  lemma StartKeeps(w: World, p: nat, host: nat, hasRemote: bool)
    requires Inv(w) && p !in w.procs
    ensures Inv(w.(procs := w.procs[p := Proc(host, hasRemote, None, Idle)]))
  {
    hide OutcomeOk, Covers, NotBelow;
    var w' := w.(procs := w.procs[p := Proc(host, hasRemote, None, Idle)]);
    forall q | q in w.procs ensures ProcOk(w', q, w'.procs[q]) {
      assert ProcOk(w, q, w.procs[q]);
      UndisturbedOk(w, w', q);
    }
    hide Undisturbed, CheckOk;
    assert ProcOk(w', p, w'.procs[p]);
    hide ProcOk;
    forall h: nat ensures Covers(Local(w', h), HostHigh(w', h)) {
      assert Covers(Local(w, h), HostHigh(w, h));
    }
  }

  lemma {:induction false} RunInv(worlds: seq<World>, events: seq<Event>, n: nat)
    requires IsRun(worlds, events) && n < |worlds|
    ensures Inv(worlds[n])
  {
    if n > 0 {
      hide Inv, Proceed;
      RunInv(worlds, events, n - 1);
      var w, e := worlds[n - 1], events[n - 1];
      assert worlds[n] == Next(w, e);
      if e.HostLost? {
        HostLostKeeps(w, e.host);
      } else if e.Start? {
        if e.p !in w.procs {
          StartKeeps(w, e.p, e.host, e.hasRemote);
        }
      } else if e.Advance? || e.Restore? {
        DatabaseKeeps(w, worlds[n]);
      } else if e.p in w.procs {
        ProceedKeeps(w, e);
      }
    }
  }

  // ------------------------------------------------------------------
  // What every run guarantees
  // ------------------------------------------------------------------

  predicate HasRevision(phase: Phase) {
    phase.Loaded? || phase.Fetched? || phase.Passed? || phase.Stored?
  }

  /** All that one step of process `p` may change. */
  ghost predicate Stepped(w: World, w': World, p: nat) {
    && p in w.procs && p in w'.procs && w'.procs == w.procs[p := w'.procs[p]] && w'.revision == w.revision
    && var proc, after := w.procs[p], w'.procs[p].phase;
    && (w'.locals == w.locals || (proc.phase.Stored? && w'.locals == w.locals[proc.host := proc.phase.revision]))
    && (w'.remote == w.remote
      || (proc.phase.Passed? && w.remote == proc.phase.remote && RevisionOf(w'.remote) == Some(proc.phase.revision)))
    && (after.Idle? || if proc.phase.Idle? then after.floor == w.remoteHigh else after.floor == proc.phase.floor)
    && (HasRevision(after) ==>
          if HasRevision(proc.phase) then after.revision == proc.phase.revision && after.local == proc.phase.local
          else after.revision == w.revision && after.local == Local(w, proc.host))
    && w.remoteHigh <= w'.remoteHigh
    && (w'.hostHigh == w.hostHigh || w'.hostHigh == w.hostHigh[proc.host := HostHigh(w', proc.host)])
    && HostHigh(w, proc.host) <= HostHigh(w', proc.host)
  }

  predicate ByProcess(e: Event) {
    !e.Advance? && !e.Restore? && !e.HostLost? && !e.Start?
  }

  lemma ProcessSteps(w: World, e: Event)
    requires ByProcess(e) && e.p in w.procs
    ensures Stepped(w, Next(w, e), e.p)
  {
    hide Stepped, Release, Acknowledge, FetchRemote, GiveVerdict, SwapRemote, FinishCheck, WriteLocal;
    var proc := w.procs[e.p];
    IdleSteps(w, e.p);
    if !proc.phase.Idle? {
      ReleaseSteps(w, e.p, proc.seen);
      ReleaseSteps(w, e.p, None);
    }
    match proc.phase
    case Idle =>
    case Holding(attempt, floor) => LoadSteps(w, e.p);
    case Loaded(_, floor, revision, _) =>
      AckSteps(w, e.p, true, revision, floor);
      FetchSteps(w, e.p);
    case Fetched(_, _, _, _, _) => VerdictSteps(w, e.p);
    case Passed(_, _, revision, _, remote) =>
      if e.Swap? {
        SwapSteps(w, e.p, e.tag);
      } else if e.SwapLost? && w.remote == remote {
        SwapLostSteps(w, e.p, e.tag);
      }
    case Stored(_, _, _) => FinishSteps(w, e.p);
  }

  lemma IdleSteps(w: World, p: nat)
    requires p in w.procs
    ensures Stepped(w, w, p)
    ensures w.procs[p].phase.Idle? ==> Stepped(w, w.(procs := w.procs[p := w.procs[p].(seen := None)]), p)
    ensures w.procs[p].phase.Idle? ==>
      Stepped(w, Move(w, p, Holding(0, w.remoteHigh)).(locks := w.locks[w.procs[p].host := p]), p)
  {
  }

  lemma ReleaseSteps(w: World, p: nat, seen: Option<Remote>)
    requires p in w.procs
    ensures Stepped(w, Release(w, p, seen), p)
  {
  }

  lemma LoadSteps(w: World, p: nat)
    requires p in w.procs && w.procs[p].phase.Holding?
    ensures var s := w.procs[p].phase;
      Stepped(w, Move(w, p, Loaded(s.attempt, s.floor, w.revision, Local(w, w.procs[p].host))), p)
  {
  }

  lemma AckSteps(w: World, p: nat, fast: bool, revision: nat, floor: nat)
    requires p in w.procs
    ensures Stepped(w, Acknowledge(w, p, fast, revision, floor), p)
  {
  }

  lemma FetchSteps(w: World, p: nat)
    requires p in w.procs && w.procs[p].phase.Loaded?
    ensures Stepped(w, FetchRemote(w, p), p)
  {
  }

  lemma VerdictSteps(w: World, p: nat)
    requires p in w.procs && w.procs[p].phase.Fetched?
    ensures Stepped(w, GiveVerdict(w, p), p)
  {
    hide Judge;
  }

  lemma SwapSteps(w: World, p: nat, tag: nat)
    requires p in w.procs && w.procs[p].phase.Passed?
    ensures Stepped(w, SwapRemote(w, p, tag), p)
  {
    hide Stepped, Release;
    var proc := w.procs[p];
    var s := proc.phase;
    ReleaseSteps(w, p, None);
    MoveSteps(w, p, w.remote, proc.seen, Stored(s.floor, s.revision, s.local));
    MoveSteps(w, p, w.remote, s.remote, Stored(s.floor, s.revision, s.local));
    MoveSteps(w, p, w.remote, None, Holding(s.attempt + 1, s.floor));
    if w.remote == s.remote {
      var written := Some(Remote(s.revision, tag));
      MoveSteps(w, p, written, written, Stored(s.floor, s.revision, s.local));
    }
    LoggedSteps(w, Release(w, p, None), p, w.log + [Refused(p, RemoteContention)]);
  }

  lemma LoggedSteps(w: World, w': World, p: nat, log: seq<Outcome>)
    requires Stepped(w, w', p)
    ensures Stepped(w, w'.(log := log), p)
  {
  }

  lemma MoveSteps(w: World, p: nat, remote: Option<Remote>, seen: Option<Remote>, phase: Phase)
    requires p in w.procs && w.procs[p].phase.Passed? && (phase.Stored? || phase.Holding?)
    requires phase.floor == w.procs[p].phase.floor
    requires phase.Stored? ==> phase.revision == w.procs[p].phase.revision && phase.local == w.procs[p].phase.local
    requires remote == w.remote
      || (w.remote == w.procs[p].phase.remote && RevisionOf(remote) == Some(w.procs[p].phase.revision))
    ensures Stepped(w, w.(remote := remote, procs := w.procs[p := w.procs[p].(seen := seen, phase := phase)]), p)
  {
  }

  lemma SwapLostSteps(w: World, p: nat, tag: nat)
    requires p in w.procs && w.procs[p].phase.Passed? && w.remote == w.procs[p].phase.remote
    ensures Stepped(w, Release(w, p, w.procs[p].seen).(remote := Some(Remote(w.procs[p].phase.revision, tag))), p)
  {
  }

  lemma FinishSteps(w: World, p: nat)
    requires p in w.procs && w.procs[p].phase.Stored?
    ensures Stepped(w, FinishCheck(w, p), p)
    ensures Stepped(w, Release(WriteLocal(w, p), p, w.procs[p].seen), p)
  {
  }

  lemma MarksStep(w: World, e: Event)
    requires Inv(w) && !e.HostLost?
    ensures NotBelow(RevisionOf(w.remote), RevisionOf(Next(w, e).remote))
    ensures forall h :: NotBelow(Local(w, h), Local(Next(w, e), h))
  {
    hide Proceed;
    if ByProcess(e) && e.p in w.procs {
      hide Next, Inv;
      AtProc(w, e.p);
      ProcessSteps(w, e);
    }
  }

  /** The remote mark never decreases, and a local mark only by losing its host. */
  lemma MarksNeverDecrease(worlds: seq<World>, events: seq<Event>, n: nat)
    requires IsRun(worlds, events) && n < |events|
    ensures NotBelow(RevisionOf(worlds[n].remote), RevisionOf(worlds[n + 1].remote))
    ensures forall h | events[n] != HostLost(h) :: NotBelow(Local(worlds[n], h), Local(worlds[n + 1], h))
  {
    hide Inv;
    RunInv(worlds, events, n);
    if !events[n].HostLost? {
      MarksStep(worlds[n], events[n]);
    }
  }

  /** Outcome `i` of the log is reported by step `n`. */
  ghost predicate Reports(worlds: seq<World>, n: nat, i: nat) {
    n + 1 < |worlds| && |worlds[n].log| <= i < |worlds[n + 1].log|
  }

  /** A step by process `p` reports at most one outcome, and an acknowledgement it reports
      is raised into the high marks. */
  ghost predicate Logged(w: World, w': World, p: nat) {
    && (w'.log == w.log || (|w'.log| == |w.log| + 1 && w'.log[..|w.log|] == w.log))
    && (w'.log != w.log && w'.log[|w.log|].Ack? ==>
          && var a := w'.log[|w.log|];
          && p in w.procs && !w.procs[p].phase.Idle?
          && a.proc == p && a.host == w.procs[p].host && a.hasRemote == w.procs[p].hasRemote
          && a.floor == w.procs[p].phase.floor
          && a.hostFloor == HostHigh(w, a.host) && a.revision <= HostHigh(w', a.host)
          && (a.hasRemote ==> a.revision <= w'.remoteHigh))
  }

  lemma AcknowledgeLogs(w: World, p: nat, fast: bool, revision: nat, floor: nat)
    requires p in w.procs && !w.procs[p].phase.Idle? && w.procs[p].phase.floor == floor
    ensures Logged(w, Acknowledge(w, p, fast, revision, floor), p)
  {
  }

  lemma OtherLogs(w: World, w': World, p: nat, error: WitnessError)
    requires w'.log == w.log || w'.log == w.log + [Refused(p, error)]
    ensures Logged(w, w', p)
  {
  }

  lemma FinishLogs(w: World, p: nat)
    requires p in w.procs && w.procs[p].phase.Stored?
    ensures Logged(w, FinishCheck(w, p), p)
  {
    hide Acknowledge;
    AcknowledgeLogs(WriteLocal(w, p), p, false, w.procs[p].phase.revision, w.procs[p].phase.floor);
  }

  lemma VerdictLogs(w: World, p: nat)
    requires p in w.procs && w.procs[p].phase.Fetched?
    ensures Logged(w, GiveVerdict(w, p), p)
  {
    hide Judge, Logged;
    var s := w.procs[p].phase;
    var v := Judge(s.revision, w.pristine, s.local, s.remote);
    OtherLogs(w, GiveVerdict(w, p), p, if v.Refuse? then v.error else Missing);
  }

  lemma ProcessLogs(w: World, e: Event)
    requires ByProcess(e) && e.p in w.procs
    ensures Logged(w, Next(w, e), e.p)
  {
    hide Acknowledge, GiveVerdict, FinishCheck, Logged;
    var phase := w.procs[e.p].phase;
    if !e.Crash? && !e.Fail? && phase.Loaded? && e.Shortcut? && CacheHit(w.procs[e.p]) {
      AcknowledgeLogs(w, e.p, true, phase.revision, phase.floor);
    } else if phase.Stored? && e.Finish? {
      FinishLogs(w, e.p);
    } else if phase.Fetched? && e.Verdict? {
      VerdictLogs(w, e.p);
    } else {
      OtherLogs(w, Next(w, e), e.p, RemoteContention);
    }
  }

  lemma LogStep(w: World, e: Event)
    ensures var w' := Next(w, e);
      w'.log == w.log || (ByProcess(e) && e.p in w.procs && Logged(w, w', e.p))
  {
    hide Proceed, Logged;
    if ByProcess(e) && e.p in w.procs {
      hide Next;
      ProcessLogs(w, e);
    }
  }

  lemma HighStep(w: World, e: Event)
    ensures w.remoteHigh <= Next(w, e).remoteHigh
    ensures forall h: nat | e != HostLost(h) :: HostHigh(w, h) <= HostHigh(Next(w, e), h)
  {
    hide Proceed;
    if ByProcess(e) && e.p in w.procs {
      hide Next;
      ProcessSteps(w, e);
    }
  }

  lemma {:induction false} HighStays(worlds: seq<World>, events: seq<Event>, n: nat, m: nat, host: nat)
    requires IsRun(worlds, events) && n <= m < |worlds|
    ensures worlds[n].remoteHigh <= worlds[m].remoteHigh
    ensures (forall k | n <= k < m :: events[k] != HostLost(host)) ==>
      HostHigh(worlds[n], host) <= HostHigh(worlds[m], host)
  {
    hide Next, HostHigh;
    if n < m {
      HighStays(worlds, events, n, m - 1, host);
      HighStep(worlds[m - 1], events[m - 1]);
    }
  }

  /** On one host, cached or not, with a remote or not, no acknowledgement is below an
      earlier one, whatever happens to the database, unless the host was lost between. */
  lemma HostNeverGoesBack(worlds: seq<World>, events: seq<Event>, n: nat, m: nat, i: nat, j: nat)
    requires IsRun(worlds, events) && n < m && Reports(worlds, n, i) && Reports(worlds, m, j)
    requires worlds[n + 1].log[i].Ack? && worlds[m + 1].log[j].Ack?
    requires worlds[n + 1].log[i].host == worlds[m + 1].log[j].host
    requires forall k | n < k < m :: events[k] != HostLost(worlds[n + 1].log[i].host)
    ensures worlds[n + 1].log[i].revision <= worlds[m + 1].log[j].revision
  {
    hide Next, Inv, HostHigh;
    LogStep(worlds[n], events[n]);
    LogStep(worlds[m], events[m]);
    HighStays(worlds, events, n + 1, m, worlds[n + 1].log[i].host);
    RunInv(worlds, events, m + 1);
    LogOk(worlds[m + 1], j);
  }

  lemma LogOk(w: World, i: nat)
    requires Inv(w) && i < |w.log|
    ensures OutcomeOk(w.log[i])
  {
    hide ProcOk, Covers;
  }

  /** Process `p` is idle or has begun a check that knows of `high`. */
  ghost predicate BegunSince(w: World, p: nat, high: nat) {
    high <= w.remoteHigh && (p in w.procs ==> w.procs[p].phase.Idle? || high <= w.procs[p].phase.floor)
  }

  lemma BegunStep(w: World, e: Event, p: nat, high: nat)
    requires BegunSince(w, p, high)
    ensures BegunSince(Next(w, e), p, high)
  {
    hide Proceed;
    if ByProcess(e) && e.p in w.procs {
      hide Next;
      ProcessSteps(w, e);
    }
  }

  lemma {:induction false} BegunStays(worlds: seq<World>, events: seq<Event>, n: nat, m: nat, p: nat)
    requires IsRun(worlds, events) && n <= m < |worlds| && (p in worlds[n].procs ==> worlds[n].procs[p].phase.Idle?)
    ensures BegunSince(worlds[m], p, worlds[n].remoteHigh)
  {
    hide Next;
    if n < m {
      BegunStays(worlds, events, n, m - 1, p);
      hide BegunSince;
      BegunStep(worlds[m - 1], events[m - 1], p, worlds[n].remoteHigh);
    }
  }

  /** A full check that began after any remote-configured process, on any host, had
      acknowledged a revision never accepts a database below it. */
  lemma FullCheckNeverGoesBack(worlds: seq<World>, events: seq<Event>, n: nat, started: nat, m: nat, i: nat, j: nat)
    requires IsRun(worlds, events) && n < started <= m && Reports(worlds, n, i) && Reports(worlds, m, j)
    requires worlds[n + 1].log[i].Ack? && worlds[n + 1].log[i].hasRemote
    requires worlds[m + 1].log[j].Ack? && worlds[m + 1].log[j].hasRemote && !worlds[m + 1].log[j].fast
    requires var p := worlds[m + 1].log[j].proc; p in worlds[started].procs ==> worlds[started].procs[p].phase.Idle?
    ensures worlds[n + 1].log[i].revision <= worlds[m + 1].log[j].revision
  {
    hide Next, Inv, HostHigh;
    LogStep(worlds[n], events[n]);
    LogStep(worlds[m], events[m]);
    HighStays(worlds, events, n + 1, started, 0);
    BegunStays(worlds, events, started, m, worlds[m + 1].log[j].proc);
    RunInv(worlds, events, m + 1);
    LogOk(worlds[m + 1], j);
  }

  /** The two ways in which an acknowledgement is protected: by the file of a host that was
      not lost in between, or by the remote, between processes that both use it, against a
      full check that began afterwards. */
  ghost predicate Protected(worlds: seq<World>, events: seq<Event>, n: nat, started: nat, m: nat, earlier: Outcome,
      later: Outcome)
    requires IsRun(worlds, events) && n < m < |events| && earlier.Ack? && later.Ack?
  {
    || (earlier.host == later.host && forall k | n < k < m :: events[k] != HostLost(earlier.host))
    || (earlier.hasRemote && later.hasRemote && !later.fast && n < started <= m
        && (later.proc in worlds[started].procs ==> worlds[started].procs[later.proc].phase.Idle?))
  }

  /** A protected acknowledgement is never undercut by a later one, whatever happens to the
      database. The runs of `WitnessExamples` drop each condition in turn. */
  lemma ProtectedNeverGoesBack(worlds: seq<World>, events: seq<Event>, n: nat, started: nat, m: nat, i: nat, j: nat)
    requires IsRun(worlds, events) && n < m && Reports(worlds, n, i) && Reports(worlds, m, j)
    requires worlds[n + 1].log[i].Ack? && worlds[m + 1].log[j].Ack?
    requires Protected(worlds, events, n, started, m, worlds[n + 1].log[i], worlds[m + 1].log[j])
    ensures worlds[n + 1].log[i].revision <= worlds[m + 1].log[j].revision
  {
    hide Next, Inv;
    if worlds[n + 1].log[i].host == worlds[m + 1].log[j].host && forall k | n < k < m ::
      events[k] != HostLost(worlds[n + 1].log[i].host) {
      HostNeverGoesBack(worlds, events, n, m, i, j);
    } else {
      FullCheckNeverGoesBack(worlds, events, n, started, m, i, j);
    }
  }

  /** The remote holds at least every revision a remote-configured process acknowledged,
      and a host's file every revision acknowledged there since the host was last lost. */
  lemma MarksCoverAcknowledgements(worlds: seq<World>, events: seq<Event>, n: nat, m: nat, i: nat)
    requires IsRun(worlds, events) && n < m < |worlds| && Reports(worlds, n, i) && worlds[n + 1].log[i].Ack?
    ensures worlds[n + 1].log[i].hasRemote ==> Covers(RevisionOf(worlds[m].remote), worlds[n + 1].log[i].revision)
    ensures (forall k | n < k < m :: events[k] != HostLost(worlds[n + 1].log[i].host)) ==>
      Covers(Local(worlds[m], worlds[n + 1].log[i].host), worlds[n + 1].log[i].revision)
  {
    hide Next, HostHigh, ProcOk, OutcomeOk;
    LogStep(worlds[n], events[n]);
    HighStays(worlds, events, n + 1, m, worlds[n + 1].log[i].host);
    RunInv(worlds, events, m);
    assert Covers(Local(worlds[m], worlds[n + 1].log[i].host), HostHigh(worlds[m], worlds[n + 1].log[i].host));
  }

  /** Without any mark, a check goes on only for a pristine database at revision 1. */
  lemma UnmarkedNeedsPristine(worlds: seq<World>, events: seq<Event>, n: nat, p: nat)
    requires IsRun(worlds, events) && n < |events| && events[n] == Event.Verdict(p)
    requires p in worlds[n].procs && worlds[n].procs[p].phase.Fetched? && worlds[n].procs[p].phase.remote.None?
    requires Local(worlds[n], worlds[n].procs[p].host).None?
    ensures worlds[n + 1].procs[p].phase.Passed? <==> worlds[n].procs[p].phase.revision == 1 && worlds[n].pristine
  {
    RunInv(worlds, events, n);
    assert ProcOk(worlds[n], p, worlds[n].procs[p]);
  }

  // ------------------------------------------------------------------
  // The cache
  // ------------------------------------------------------------------

  /** The marks and the verdict of the full check, run at once where the cache would answer. */
  ghost function FullCheck(w: World, p: nat, tag: nat): World
    requires p in w.procs && w.procs[p].phase.Loaded?
  {
    var judged := GiveVerdict(FetchRemote(w, p), p);
    if !judged.procs[p].phase.Passed? then judged
    else
      var stored := SwapRemote(judged, p, tag);
      if stored.procs[p].phase.Stored? then FinishCheck(stored, p) else stored
  }

  ghost predicate SameMarks(w: World, w': World) {
    w'.remote == w.remote && forall h :: Local(w', h) == Local(w, h)
  }

  ghost predicate LastIsAck(w: World, revision: nat) {
    w.log != [] && w.log[|w.log| - 1].Ack? && w.log[|w.log| - 1].revision == revision
  }

  ghost predicate LastIsRefusal(w: World, error: WitnessError) {
    w.log != [] && w.log[|w.log| - 1].Refused? && w.log[|w.log| - 1].error == error
  }

  /** The cached answer is the full check's, with the same marks left behind, exactly when
      the remote still holds the revision; otherwise the full check would have refused. */
  lemma CacheAgreesExactly(w: World, p: nat, tag: nat)
    requires Inv(w) && p in w.procs && CacheHit(w.procs[p])
    ensures var revision := w.procs[p].phase.revision;
      var cached, full := Next(w, Shortcut(p)), FullCheck(w, p, tag);
      && LastIsAck(cached, revision) && SameMarks(w, cached) && SameMarks(w, full)
      && w.remote.Some? && revision <= w.remote.value.revision
      && (LastIsAck(full, revision) <==> w.remote.value.revision == revision)
      && (w.remote.value.revision != revision ==> LastIsRefusal(full, StaleDatabase))
  {
    assert ProcOk(w, p, w.procs[p]);
  }

  /** The database never went back: every mark and every revision being checked is at
      most its revision. */
  ghost predicate LineageInv(w: World) {
    && NotBelow(RevisionOf(w.remote), Some(w.revision))
    && (forall h | h in w.locals :: w.locals[h] <= w.revision)
    && (forall p | p in w.procs :: LineageProc(w.procs[p], w.revision))
  }

  predicate LineageProc(proc: Proc, revision: nat) {
    HasRevision(proc.phase) ==> proc.phase.revision <= revision && NotBelow(proc.phase.local, Some(proc.phase.revision))
  }

  lemma LineageStep(w: World, e: Event)
    requires LineageInv(w) && !e.Restore?
    ensures LineageInv(Next(w, e))
  {
    hide Proceed;
    if ByProcess(e) && e.p in w.procs {
      hide Next;
      ProcessSteps(w, e);
      assert LineageProc(w.procs[e.p], w.revision);
    }
  }

  lemma {:induction false} LineageRun(worlds: seq<World>, events: seq<Event>, n: nat)
    requires IsRun(worlds, events) && n < |worlds| && forall k | 0 <= k < n :: !events[k].Restore?
    ensures LineageInv(worlds[n])
  {
    hide Next;
    if n > 0 {
      LineageRun(worlds, events, n - 1);
      hide LineageInv;
      LineageStep(worlds[n - 1], events[n - 1]);
    }
  }

  /** On a database that never went back, the cache and the full check agree while the
      revision the check read is still the database's. */
  lemma CacheFaithfulOnLineage(worlds: seq<World>, events: seq<Event>, n: nat, p: nat, tag: nat)
    requires IsRun(worlds, events) && n < |worlds| && forall k | 0 <= k < n :: !events[k].Restore?
    requires p in worlds[n].procs && CacheHit(worlds[n].procs[p])
    requires worlds[n].procs[p].phase.revision == worlds[n].revision
    ensures LastIsAck(FullCheck(worlds[n], p, tag), worlds[n].revision)
    ensures LastIsAck(Next(worlds[n], Shortcut(p)), worlds[n].revision)
    ensures SameMarks(Next(worlds[n], Shortcut(p)), FullCheck(worlds[n], p, tag))
  {
    hide Next, FullCheck, Inv;
    RunInv(worlds, events, n);
    LineageRun(worlds, events, n);
    CacheAgreesExactly(worlds[n], p, tag);
  }

  /** On a database that never went back, a check is refused as stale exactly when the remote
      it read is above the revision it loaded: never without a remote, and only after the
      database has moved on. */
  lemma RefusesExactlyOnLineage(worlds: seq<World>, events: seq<Event>, n: nat, p: nat)
    requires IsRun(worlds, events) && n < |events| && events[n] == Event.Verdict(p)
    requires forall k | 0 <= k < n :: !events[k].Restore?
    requires p in worlds[n].procs && worlds[n].procs[p].phase.Fetched?
    ensures var s := worlds[n].procs[p].phase;
      && (worlds[n + 1].log == worlds[n].log + [Refused(p, StaleDatabase)] <==>
            s.remote.Some? && s.revision < s.remote.value.revision)
      && (worlds[n + 1].log == worlds[n].log + [Refused(p, StaleDatabase)] ==>
            worlds[n].procs[p].hasRemote && s.revision < worlds[n].revision)
  {
    RunInv(worlds, events, n);
    LineageRun(worlds, events, n);
    var w := worlds[n];
    var s := w.procs[p].phase;
    assert ProcOk(w, p, w.procs[p]);
    assert worlds[n + 1] == GiveVerdict(w, p) by {
      VerdictNext(w, p);
    }
    hide IsRun, Next, Inv;
    StaleExactly(s.revision, w.pristine, s.local, s.remote);
    hide Judge, ProcOk;
    var v := Judge(s.revision, w.pristine, s.local, s.remote);
    if v.Refuse? {
      Appended(w.log, Refused(p, v.error), Refused(p, StaleDatabase));
    } else {
      Appended(w.log, Refused(p, StaleDatabase), Refused(p, StaleDatabase));
    }
  }

  lemma Appended(log: seq<Outcome>, a: Outcome, b: Outcome)
    ensures log + [a] == log + [b] <==> a == b
    ensures log != log + [a]
  {
    assert (log + [a])[|log|] == a && (log + [b])[|log|] == b;
  }

  lemma StaleExactly(revision: nat, pristine: bool, local: Option<nat>, remote: Option<Remote>)
    ensures Judge(revision, pristine, local, remote) == Refuse(StaleDatabase) <==>
      (local.Some? && revision < local.value) || (remote.Some? && revision < remote.value.revision)
  {
  }

  lemma VerdictNext(w: World, p: nat)
    requires p in w.procs && w.procs[p].phase.Fetched?
    ensures Next(w, Event.Verdict(p)) == GiveVerdict(w, p)
  {
    hide GiveVerdict;
  }
}
