/** The restore witness: a high-water mark of the database revision in a file per host
    and, for some processes, in a remote object written by compare-and-swap. Processes
    on one host exclude each other; processes on different hosts interleave at every
    await, and may crash, fail or lose a host between any two steps.
  */
module Witness {
  import opened Schema

  // ------------------------------------------------------------------
  // One check
  // ------------------------------------------------------------------

  /** The remote object's content and its version tag. */
  datatype Remote = Remote(revision: nat, tag: nat)

  datatype WitnessError = Missing | StaleDatabase | RemoteContention

  datatype Verdict = Proceed | Refuse(error: WitnessError)

  const REMOTE_ATTEMPTS: nat := 4

  function RevisionOf(remote: Option<Remote>): Option<nat> {
    if remote.Some? then Some(remote.value.revision) else None
  }

  function HigherMark(a: Option<nat>, b: Option<nat>): Option<nat> {
    if a.None? then b else if b.None? || b.value <= a.value then a else b
  }

  /** What the marks say about a database at `revision`. */
  function Judge(revision: nat, pristine: bool, local: Option<nat>, remote: Option<Remote>): Verdict {
    var prior := HigherMark(local, RevisionOf(remote));
    if prior.None? && !(revision == 1 && pristine) then Refuse(Missing)
    else if prior.Some? && prior.value > revision then Refuse(StaleDatabase)
    else Proceed
  }

  /** No mark lies above the revision, and without any mark only a new database passes. */
  lemma JudgeExact(revision: nat, pristine: bool, local: Option<nat>, remote: Option<Remote>)
    ensures Judge(revision, pristine, local, remote).Proceed? <==>
      && (local.Some? ==> local.value <= revision)
      && (remote.Some? ==> remote.value.revision <= revision)
      && (local.None? && remote.None? ==> revision == 1 && pristine)
  {
  }

  predicate NotBelow(mark: Option<nat>, mark': Option<nat>) {
    mark.Some? ==> mark'.Some? && mark.value <= mark'.value
  }

  /** What one attempt sees of the rest of the world: the database, and what another host
      wrote to the remote between this attempt's read and its write. */
  datatype Turn = Turn(revision: nat, pristine: bool, rival: Option<Remote>)

  /** No mark is above the revision, and without a mark the database is new. */
  predicate Passes(turn: Turn, local: Option<nat>, remote: Option<Remote>) {
    && (local.Some? ==> local.value <= turn.revision)
    && (remote.Some? ==> remote.value.revision <= turn.revision)
    && (local.None? && remote.None? ==> turn.revision == 1 && turn.pristine)
  }

  /** What the remote holds when attempt `i` reads it, all earlier ones having lost the race. */
  function RemoteAt(remote: Option<Remote>, turns: seq<Turn>, i: nat): Option<Remote>
    requires i <= |turns|
  {
    if i == 0 then remote else turns[i - 1].rival
  }

  /** An attempt that passes but whose write another host's forestalls. */
  predicate Loses(turn: Turn, local: Option<nat>, remote: Option<Remote>) {
    && Passes(turn, local, remote) && RevisionOf(remote) != Some(turn.revision)
    && turn.rival.Some? && turn.rival != remote
  }

  /** The answer of an earlier check still holds. */
  predicate Remembered(hasRemote: bool, turn: Turn, local: Option<nat>, seen: Option<Remote>) {
    hasRemote && seen.Some? && seen.value.revision == turn.revision && local == Some(turn.revision)
  }

  /** What a process knows before or after a check. */
  datatype Marks = Marks(local: Option<nat>, remote: Option<Remote>, seen: Option<Remote>)

  /** What attempt `i` reads of the remote. */
  function ReadAt(hasRemote: bool, m: Marks, turns: seq<Turn>, i: nat): Option<Remote>
    requires i <= |turns|
  {
    if hasRemote then RemoteAt(m.remote, turns, i) else None
  }

  /** The attempts before `n` read the remote, passed and lost the race. */
  ghost predicate Lost(hasRemote: bool, m: Marks, turns: seq<Turn>, n: nat)
    requires n <= |turns|
  {
    && (n > 0 ==> hasRemote && !Remembered(hasRemote, turns[0], m.local, m.seen))
    && forall i | 0 <= i < n :: Loses(turns[i], m.local, RemoteAt(m.remote, turns, i))
  }

  /** The outcome, exactly: every attempt before `last` lost the race. Attempt `last` succeeds if
      it remembers its answer, or passes and does not lose too; with no attempt left, losing is
      contention; without any mark a database that is not new is refused as missing, and any
      other that does not pass as stale. A success leaves all marks at its revision, a refusal
      leaves them as they were read. */
  ghost predicate Decided(hasRemote: bool, m: Marks, turns: seq<Turn>, tags: seq<nat>, last: nat, m': Marks,
      r: Option<nat>, error: Option<WitnessError>)
    requires last < |turns| == |tags|
  {
    var turn, read := turns[last], ReadAt(hasRemote, m, turns, last);
    var remembered := last == 0 && Remembered(hasRemote, turn, m.local, m.seen);
    var loses := hasRemote && Loses(turn, m.local, read);
    && Lost(hasRemote, m, turns, last)
    && (r == Some(turn.revision) <==> remembered || (Passes(turn, m.local, read) && !loses))
    && (r.Some? ==> r == Some(turn.revision))
    && (error == Some(RemoteContention) <==> !remembered && loses && last == REMOTE_ATTEMPTS - 1)
    && (error == Some(Missing) <==>
          !remembered && m.local.None? && read.None? && !(turn.revision == 1 && turn.pristine))
    && (error == Some(StaleDatabase) <==>
          !remembered && !Passes(turn, m.local, read) && (m.local.Some? || read.Some?))
    && (remembered ==> m' == m)
    && (!remembered && r.Some? && hasRemote ==>
          m'.seen == m'.remote == if RevisionOf(read) == r then read else Some(Remote(turn.revision, tags[last])))
    && (error.Some? && error != Some(RemoteContention) && hasRemote ==> m'.remote == read)
  }

  lemma NoneLost(hasRemote: bool, m: Marks, turns: seq<Turn>)
    ensures Lost(hasRemote, m, turns, 0)
  {
  }

  lemma LoseNext(hasRemote: bool, m: Marks, turns: seq<Turn>, i: nat)
    requires i < |turns| && Lost(hasRemote, m, turns, i) && hasRemote
    requires i == 0 ==> !Remembered(hasRemote, turns[0], m.local, m.seen)
    requires var read := RemoteAt(m.remote, turns, i);
      && Passes(turns[i], m.local, read) && RevisionOf(read) != Some(turns[i].revision)
      && turns[i].rival.Some? && turns[i].rival != read
    ensures Lost(hasRemote, m, turns, i + 1)
  {
    hide Passes;
  }

  lemma ContentionDecided(hasRemote: bool, m: Marks, turns: seq<Turn>, tags: seq<nat>, m': Marks)
    requires |turns| == |tags| == REMOTE_ATTEMPTS && Lost(hasRemote, m, turns, REMOTE_ATTEMPTS)
    ensures Decided(hasRemote, m, turns, tags, REMOTE_ATTEMPTS - 1, m', None, Some(RemoteContention))
  {
  }

  /** A decision at an attempt that does not lose. */
  lemma DecidedAt(hasRemote: bool, m: Marks, turns: seq<Turn>, tags: seq<nat>, last: nat, m': Marks, r: Option<nat>,
      error: Option<WitnessError>)
    requires last < |turns| == |tags| && Lost(hasRemote, m, turns, last)
    requires var turn, read := turns[last], ReadAt(hasRemote, m, turns, last);
      if last == 0 && Remembered(hasRemote, turn, m.local, m.seen) then
        r == Some(turn.revision) && error.None? && m' == m
      else if Passes(turn, m.local, read) then
        && r == Some(turn.revision) && error.None?
        && (hasRemote ==>
              && (RevisionOf(read) == r || turn.rival.None? || turn.rival == read)
              && m'.seen == m'.remote
              && m'.remote == if RevisionOf(read) == r then read else Some(Remote(turn.revision, tags[last])))
      else
        && r.None? && (hasRemote ==> m'.remote == read)
        && error == Some(if m.local.None? && read.None? && !(turn.revision == 1 && turn.pristine) then Missing
                         else StaleDatabase)
    ensures Decided(hasRemote, m, turns, tags, last, m', r, error)
  {
  }

  lemma JudgePasses(turn: Turn, local: Option<nat>, remote: Option<Remote>)
    ensures Judge(turn.revision, turn.pristine, local, remote).Proceed? <==> Passes(turn, local, remote)
  {
  }

  /** The retry loop as one process runs it, with the host lock held throughout. */
  class RestoreWitness {
    const hasRemote: bool
    var local: Option<nat>
    var remote: Option<Remote>
    var seen: Option<Remote>

    ghost function Now(): Marks
      reads this
    {
      Marks(local, remote, seen)
    }

    ghost predicate Valid()
      reads this
    {
      seen.Some? ==> remote.Some? && seen.value.revision <= remote.value.revision
    }

    constructor (hasRemote: bool, local: Option<nat>, remote: Option<Remote>)
      ensures Valid() && this.hasRemote == hasRemote && this.local == local && this.remote == remote && seen.None?
    {
      this.hasRemote, this.local, this.remote, this.seen := hasRemote, local, remote, None;
    }

    /** `turns` are the attempts' views and `tags` the version tags of this process's
        writes; rivals only ever raise the remote. Returns the acknowledged revision. */
    method VerifyAndAdvance(turns: seq<Turn>, tags: seq<nat>)
      returns (r: Option<nat>, error: Option<WitnessError>, ghost last: nat)
      requires Valid() && |turns| == |tags| == REMOTE_ATTEMPTS && RivalsRise(remote, turns)
      modifies this
      ensures Valid()
      ensures r.Some? <==> error.None?
      // Neither mark ever decreases.
      ensures NotBelow(old(local), local) && NotBelow(old(RevisionOf(remote)), RevisionOf(remote))
      ensures last < REMOTE_ATTEMPTS
      // An acknowledged revision is the database's, recorded locally and remotely.
      ensures r.Some? ==> r.value == turns[last].revision && local == r && NotBelow(old(local), r)
      ensures r.Some? && hasRemote ==> NotBelow(r, RevisionOf(remote))
      ensures r.Some? && hasRemote ==>
        (RevisionOf(remote) == r && NotBelow(old(RevisionOf(remote)), r)) || RevisionOf(old(seen)) == r == old(local)
      ensures r.Some? && old(local).None? && (!hasRemote || remote.None?) ==> r.value == 1 && turns[last].pristine
      // A refusal leaves the local mark alone and says why.
      ensures error.Some? ==> local == old(local)
      ensures error == Some(StaleDatabase) ==>
        exists mark :: mark > turns[last].revision && (Some(mark) == local || Some(mark) == RevisionOf(remote))
      ensures error == Some(RemoteContention) ==>
        hasRemote && forall i | 0 <= i < REMOTE_ATTEMPTS :: turns[i].rival.Some?
      ensures !hasRemote ==> remote == old(remote) && last == 0
      // Which attempt decides, and how, is fixed by what the attempts see.
      ensures Decided(hasRemote, old(Now()), turns, tags, last, Now(), r, error)
    {
      hide Judge, Decided, Lost, Loses, Passes, RivalsRise;
      assert turns[0..] == turns;
      ghost var m := Now();
      NoneLost(hasRemote, m, turns);
      last := 0;
      for attempt := 0 to REMOTE_ATTEMPTS
        invariant Valid() && local == old(local) && NotBelow(old(RevisionOf(remote)), RevisionOf(remote))
        invariant last < REMOTE_ATTEMPTS
        invariant attempt > 0 ==> hasRemote && seen.None?
        invariant attempt == 0 ==> seen == old(seen) && remote == old(remote)
        invariant !hasRemote ==> remote == old(remote)
        invariant RivalsRise(remote, turns[attempt..])
        invariant forall i | 0 <= i < attempt :: turns[i].rival.Some?
        invariant Lost(hasRemote, old(Now()), turns, attempt) && remote == RemoteAt(old(remote), turns, attempt)
        invariant attempt > 0 ==> last == attempt - 1
      {
        last := attempt;
        var turn := turns[attempt];
        RivalNext(remote, turns, attempt);
        var current: Option<Remote> := None;
        if hasRemote {
          if seen.Some? && seen.value.revision == turn.revision && local == Some(turn.revision) {
            DecidedAt(hasRemote, m, turns, tags, last, Now(), Some(turn.revision), None);
            return Some(turn.revision), None, last;
          }
          current := remote;
        }
        var verdict := Judge(turn.revision, turn.pristine, local, current);
        JudgeExact(turn.revision, turn.pristine, local, current);
        JudgePasses(turn, local, current);
        if verdict.Refuse? {
          RefusalReason(turn.revision, turn.pristine, local, current);
          DecidedAt(hasRemote, m, turns, tags, last, Now(), None, Some(verdict.error));
          return None, Some(verdict.error), last;
        }
        if hasRemote {
          if RevisionOf(current) == Some(turn.revision) {
            seen := current;
          } else {
            if turn.rival.Some? {
              remote := turn.rival;
            }
            if remote != current {
              seen := None;
              LoseNext(hasRemote, m, turns, attempt);
              continue;
            }
            remote := Some(Remote(turn.revision, tags[attempt]));
            seen := remote;
          }
        }
        if local != Some(turn.revision) {
          local := Some(turn.revision);
        }
        DecidedAt(hasRemote, m, turns, tags, last, Now(), Some(turn.revision), None);
        return Some(turn.revision), None, last;
      }
      ContentionDecided(hasRemote, m, turns, tags, Now());
      return None, Some(RemoteContention), last;
    }
  }

  lemma RefusalReason(revision: nat, pristine: bool, local: Option<nat>, remote: Option<Remote>)
    requires Judge(revision, pristine, local, remote).Refuse?
    ensures Judge(revision, pristine, local, remote).error == StaleDatabase ==>
      exists mark :: mark > revision && (Some(mark) == local || Some(mark) == RevisionOf(remote))
    ensures Judge(revision, pristine, local, remote).error != RemoteContention
    ensures Judge(revision, pristine, local, remote).error == Missing <==>
      local.None? && remote.None? && !(revision == 1 && pristine)
  {
    if Judge(revision, pristine, local, remote).error == StaleDatabase {
      assert HigherMark(local, RevisionOf(remote)).Some?;
    }
  }

  lemma RivalNext(remote: Option<Remote>, turns: seq<Turn>, i: nat)
    requires i < |turns| && RivalsRise(remote, turns[i..])
    ensures var next := if turns[i].rival.Some? then turns[i].rival else remote;
      NotBelow(RevisionOf(remote), RevisionOf(next)) && RivalsRise(next, turns[i + 1..])
  {
    assert turns[i..][0] == turns[i] && turns[i..][1..] == turns[i + 1..];
  }

  /** Other hosts' writes, in order, each at or above what it replaces. */
  ghost predicate RivalsRise(remote: Option<Remote>, turns: seq<Turn>)
    decreases |turns|
  {
    turns != [] ==>
      var next := if turns[0].rival.Some? then turns[0].rival else remote;
      NotBelow(RevisionOf(remote), RevisionOf(next)) && RivalsRise(next, turns[1..])
  }
}
