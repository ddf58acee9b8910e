# bloom-relay: a model of its protocols and their guarantees

bloom-relay gives installations a public hostname, carries browser traffic to them over
reconnecting tunnels, and publishes their DNS records and ACME DNS-01 challenge values.
Its promises rest on several small protocols over one PostgreSQL store. They span many
functions and every interleaving of their steps. This project models those protocols in
Dafny 4.11 and proves what they promise over whole runs.

`dafny verify dfyconfig.toml` verifies everything.

| file | what it models |
|---|---|
| `Schema.dfy`, `Transactions.dfy` | the rows of an installation, and each store operation as one committed transaction at an arbitrary transaction time |
| `Fencing.dfy` | what every run of transactions keeps: bearers, leases, operation ids, the restore fence |
| `Effects.dfy` | exactly when each store operation succeeds, exactly what it then changes, and what that gives its caller |
| `Store.dfy` | the store object, each method proved equal to its transaction |
| `Sweeps.dfy` | the two sweeps, with other transactions between their own |
| `Reconcile.dfy`, `Convergence.dfy`, `Blocked.dfy` | DNS reconciliation: transactions, worker attempts and provider writes interleaved with crashes and partial writes; when it can finish, and when it cannot |
| `Cloudflare.dfy`, `CloudflareRuns.dfy`, `CloudflareNames.dfy` | the Cloudflare planner and appliers, call by call, and the in-memory provider they refine |
| `Refinement.dfy` | the Cloudflare operations do what reconciliation assumes of a provider |
| `Worker.dfy` | one worker attempt composed from the store and the Cloudflare objects |
| `Gateway.dfy`, `GatewayProgress.dfy` | tunnel, attach, browser and lifecycle tasks around the tunnel and ticket maps: what they never do, and what they can always achieve |
| `Witness.dfy`, `WitnessRuns.dfy`, `WitnessExamples.dfy` | the restore witness: one process's retry loop, all processes of all hosts, and runs that show where the guarantees end |
| `Decoder.dfy`, `Bridge.dfy` | the control-frame decoder and the byte-exact data plane |
| `Bootstrap.dfy`, `BootstrapExamples.dfy` | the bootstrap quota with pruning, and runs that reach its bounds |
| `Nonces.dfy`, `Ingress.dfy` | replay protection, admission |
| `Finite.dfy` | sizes of finite sets |

## How the model is built

A transaction is one atomic step. What justifies that in the code: every change to an
installation's rows holds its row lock; retirement, moves and pending expiry also take its
advisory lock; operation ids, hostnames and installation ids are unique keys; the bootstrap
quota holds its own transaction lock. PostgreSQL's `now()` is the transaction's start, so
every operation takes its time as a parameter and nothing assumes that times follow commit
order, except where a lemma says so in its `requires`.

A worker attempt is several steps. Between any two of them other transactions, other
attempts, a crash or a partial provider write may happen. The attempt's locks are held until
it ends or crashes. The observer's answer is arbitrary. Claim order and backoff are
over-approximated: any incomplete job of the right kind may be claimed at any time. Provider
records are kept per installation, because hostnames are unique and never change.

SHA-256 is taken to be injective, signatures to be valid or not, and random ids and keys to
be unused. A hostname is drawn as 26 lower-case base-32 characters under the zone. A failure to acknowledge the witness after a commit changes only the reply, so
the transactions leave it out. Instants are whole milliseconds.

`desired` in the Cloudflare planner is any sequence of keys; the source iterates a sorted
map, which is one such sequence.

## What turned out to differ from the documentation

- A replayed allocation does not look at what the operation id was used for. It conflicts
  exactly when the key or the installation's current placement differs
  (`Fencing.AllocateReplayExact`), so an id recorded by a retirement answers an allocation
  (`Fencing.AllocateIgnoresKind`).
- Marking an installation ready is not compare-and-swapped on its ACME account. After a
  rebinding the published records are the wanted ones exactly when the account the worker
  read is still bound (`Reconcile.ReadyDeclaredExactly`, with the run
  `Convergence.ReadyWithOldAccount`). A publication job is then still pending.
- The patch of a kept CAA record does not clear `proxied`. A finished publication is exact
  if and only if no kept CAA record is marked proxied (`CloudflareRuns.PublishReachesExact`).
  Such a record survives every publication (`CloudflareRuns.ProxiedNeverSettles`), for
  instance a lone proxied denial (`CloudflareRuns.ProxiedDenialStays`).
- The witness's cached answer agrees with the full check exactly when the remote still holds
  the revision (`WitnessRuns.CacheAgreesExactly`). After a rollback it can accept a database
  below what another host acknowledged (`WitnessExamples.CacheMissesRollback`).
- A full check can refuse a database that never went back
  (`WitnessExamples.RefusalWithoutRollback`). It does so exactly when the remote it read is
  above the revision it loaded: never without a remote, and only after the database has moved
  on (`WitnessRuns.RefusesExactlyOnLineage`).
- An acknowledgement is not protected everywhere. It is on its own host until that host is
  lost, and between processes that both use the remote, against full checks that begin
  afterwards (`WitnessRuns.ProtectedNeverGoesBack`). Each condition is needed: the earlier
  process may be local-only (`WitnessExamples.LocalAcknowledgementForgotten`), or the later
  one (`WitnessExamples.LocalCheckUnaware`); the later answer may be cached
  (`WitnessExamples.CacheMissesRollback`) or have begun first
  (`WitnessExamples.EarlierCheckOvertaken`); the host may be lost
  (`WitnessExamples.LostHostForgets`). The background checkers are local-only.
- Enrollments per source and day are bounded by 29, not 20 (`Bootstrap.DailyLimit`), and 29
  is reached (`BootstrapExamples.DailyLimitIsReached`). Consumptions that run behind issues
  committed before them raise the bound by 20 for each minute their lag begins; one
  millisecond already lets 49 complete, which is then the bound
  (`BootstrapExamples.DailyLimitNeedsOrder`).
- Pruning leaves the counts alone only while no prune runs too far ahead of a later issue:
  two days less a minute for the minute limits, less another day for the daily one
  (`Bootstrap.PruningInvisible`). One millisecond further and the minute limit fails
  (`BootstrapExamples.MinuteLimitNeedsLead`), and so does the daily one, with 39
  (`BootstrapExamples.DailyLimitNeedsLead`).
- A signed request is accepted once only while clock differences and delays add up to at most
  240.001 s (`Nonces.AcceptedOnce`); one millisecond more allows a second acceptance
  (`Nonces.DriftIsTight`).
- The environment accepts up to eight ingress addresses, repeats included, but publication
  refuses a list of more than four entries. The workers can finish if and only if the
  installation is retired, has no account, or has a placement with a list of one to four
  entries (`Blocked.ConvergesExactly`). With a refused list they never do
  (`Blocked.RefusedListNeverConverges`), be it five addresses
  (`Blocked.FiveAddressesNeverConverge`) or one address five times
  (`Blocked.RepeatedAddressNeverConverges`). Nothing else about a stored installation fails
  the provider's validation (`Refinement.PublicationAccepted`).
- The gateway's window of 120 and 5,000 admissions allows 240 and 10,000 in a sliding minute
  (`Ingress.AcceptLoop`), and both are reached (`Ingress.SlidingLimitsAreReached`).

## Model

| member | source | states |
|---|---|---|
| `Store.Store.Allocate` | crates/bloom-relay-store/src/lib.rs:847-907 | the method is the allocation transaction, error paths included, and keeps the store invariant |
| `Store.Store.IssueBearer` | crates/bloom-relay-store/src/lib.rs:435-496 | the method is the issue transaction; a first issue is as `Effects.Issued` says and grants the bearer its receipt names |
| `Store.Store.RenewBearer` | crates/bloom-relay-store/src/lib.rs:498-590 | the method is the renewal transaction; a first renewal is as `Effects.Renewed` says, grants a successor and replaces the old bearer |
| `Store.Store.RegisterAcmeAccount` | crates/bloom-relay-store/src/lib.rs:592-624 | the method refuses an account URI outside the store's environment, conflicts on a retired or unknown installation, and otherwise binds exactly that account and queues a publication |
| `Store.Store.MarkDnsReady` | crates/bloom-relay-store/src/lib.rs:654-669 | the method moves only a pending installation with an account to ready |
| `Store.Store.ClaimTunnel` | crates/bloom-relay-store/src/lib.rs:909-933 | the method leases the next generation to this gateway, exactly for a ready installation placed here, and changes nothing else |
| `Store.Store.RenewTunnel` | crates/bloom-relay-store/src/lib.rs:947-956 | the method extends exactly a current lease, to 45 seconds from now, and changes nothing else |
| `Store.Store.EnsureChallengeValue` | crates/bloom-relay-store/src/lib.rs:676-732 | the method answers exactly as bearer, state and room for a third value say; every other live value stays with its expiry, lapsed ones go only when the set changes, and then the revision advances and a reconciliation is queued |
| `Store.Store.MarkChallengeReconciled` | crates/bloom-relay-store/src/lib.rs:800-815 | the method records readiness only for the revision still stored |
| `Store.Store.Retire` | crates/bloom-relay-store/src/lib.rs:1027-1087 | the method retires once, dropping lease and values and queueing both removals, and records the operation |
| `Store.Store.Relocate` | crates/bloom-relay-store/src/lib.rs:1091-1150 | the method moves exactly a ready installation to a different valid placement: it is there afterwards, without a lease, with its publication queued and nothing else changed |
| `Store.Store.CompleteJob` | crates/bloom-relay-store/src/lib.rs:130-138 | the method marks the claimed job complete and nothing else |
| `Store.Store.AuthenticateBearer` | crates/bloom-relay-store/src/lib.rs:382-395 | the result authenticates and is the greatest generation that does; none exactly when none does |
| `Store.Store.Expire` | crates/bloom-relay-store/src/lib.rs:958-1025 | a sweep selects distinct due installations up to its limit, the oldest pending ones first, then is the fold of their transactions, each at its own time and after any others |
| `Sweeps.SweepIsRun` | crates/bloom-relay-store/src/lib.rs:958-1025 | a sweep and the transactions between its own are one run of transactions, so what holds of runs holds of it |
| `Sweeps.SweepSpares` | crates/bloom-relay-store/src/lib.rs:958-1025 | an installation that neither the sweep nor another transaction touches stays as it is |
| `Sweeps.SweepChanges` | crates/bloom-relay-store/src/lib.rs:970-990 | at its turn a selected installation is still there; one that is due stops being pending for good, and one that nobody else touched changes exactly when due, as the sweep says |
| `Sweeps.SweepCounts` | crates/bloom-relay-store/src/lib.rs:998-1025 | the reported number is the number of selected installations that were due at their turn |
| `Sweeps.SweepCompletes` | crates/bloom-relay-store/src/lib.rs:958-1025 | below its limit a sweep leaves no installation pending that was due, whatever commits in between, and no lapsed value of an installation nobody else touched |
| `Fencing.StepAdvances` | crates/bloom-relay-store/src/lib.rs:435-1150 | every transaction changes one installation lawfully: the counter only grows, a new lease is beyond it, bearers are never dropped, hostnames never change, operations are never rewritten |
| `Fencing.RunInv` | crates/bloom-relay-store/src/lib.rs:435-1150 | on every run, for arbitrary clocks: per scope the one unrevoked bearer is the newest, a lease implies ready, placed here and within the counter, at most two valid challenge values |
| `Fencing.LeaseFencing` | crates/bloom-relay-store/src/lib.rs:909-956 | a superseded generation is never current again, at any gateway, on any clock |
| `Fencing.RotationFences` | crates/bloom-relay-store/src/lib.rs:909-990 | a claim, tunnel-bearer rotation, move, retirement or pending expiry that takes effect supersedes every earlier generation |
| `Fencing.LeaseIsExclusive` | crates/bloom-relay-store/src/lib.rs:935-945 | at most one generation and gateway is current, only for a ready installation at its placement |
| `Fencing.ReplacedNeverReturns` | crates/bloom-relay-store/src/lib.rs:382-414 | a bearer replaced by a newer one of its scope never authenticates, renews or ensures a value again |
| `Fencing.AuthenticationIsUnique` | crates/bloom-relay-store/src/lib.rs:391-394 | whatever authenticates is the newest of its scope and unexpired; the query has one answer |
| `Fencing.IssueRotates` | crates/bloom-relay-store/src/lib.rs:468-483 | an issue replaces every earlier bearer of its scope and leaves the other scope alone |
| `Fencing.RenewRotates` | crates/bloom-relay-store/src/lib.rs:558-571 | so does a renewal, although it revokes one generation only |
| `Fencing.RetiredStaysInert` | crates/bloom-relay-store/src/lib.rs:1060-1078 | after retirement no bearer authenticates or renews, no lease or value exists, and nothing is ready, for ever |
| `Fencing.OperationActsOnce` | crates/bloom-relay-store/src/lib.rs:447-467 | a recorded operation id never changes, and any later request under it changes nothing |
| `Fencing.AllocatesOnce` | crates/bloom-relay-store/src/lib.rs:861-870 | no operation id ever allocates a second installation |
| `Fencing.ReplayAnswers` | crates/bloom-relay-store/src/lib.rs:513-536 | what a repeat is told: the recorded receipt for the same request (within five minutes for renewals), a conflict otherwise |
| `Fencing.AllocateReplayExact` | crates/bloom-relay-store/src/lib.rs:861-870 | an allocation under a known id conflicts exactly when the key or the current placement differs |
| `Fencing.AllocateIgnoresKind` | crates/bloom-relay-store/src/lib.rs:861-870 | a run in which an id recorded by a retirement answers an allocation |
| `Fencing.FenceCoversRun` | crates/bloom-relay-store/src/lib.rs:287-293 | two states of a run with the same fence revision grant the same authority |
| `Effects.AllocateExact` | crates/bloom-relay-store/src/lib.rs:847-907 | a first allocation succeeds exactly for a valid placement and unused identities, and stores a pending installation with nothing but a publication to do |
| `Effects.IssueExact` | crates/bloom-relay-store/src/lib.rs:435-496 | a first issue succeeds exactly for a live installation; it lasts the smaller of the two lifetimes, revokes the rest of its scope and leaves everything else |
| `Effects.RenewExact` | crates/bloom-relay-store/src/lib.rs:498-590 | a first renewal succeeds exactly for the holder of the newest unrevoked bearer within the grace; only that bearer is revoked |
| `Effects.RegisterExact` | crates/bloom-relay-store/src/lib.rs:592-624 | a registration binds exactly the given account in every live state |
| `Effects.MarkReadyExact` | crates/bloom-relay-store/src/lib.rs:654-669 | exactly a pending installation with an account becomes ready |
| `Effects.ClaimExact` | crates/bloom-relay-store/src/lib.rs:909-933 | a claim succeeds exactly for a ready installation placed here; its generation is current there until the lease ends, and no other anywhere |
| `Effects.RenewTunnelExact` | crates/bloom-relay-store/src/lib.rs:947-956 | exactly a current lease is extended, and is then current until 45 seconds from now |
| `Effects.EnsureExact` | crates/bloom-relay-store/src/lib.rs:676-732 | when an ensure succeeds, conflicts or is unauthorized; which values, expiries and revision there are afterwards |
| `Effects.MarkReconciledExact` | crates/bloom-relay-store/src/lib.rs:800-815 | exactly the stored revision is marked ready |
| `Effects.ValueSweepExact` | crates/bloom-relay-store/src/lib.rs:1001-1023 | a value sweep drops exactly the lapsed values and advances the revision |
| `Effects.PendingSweepExact` | crates/bloom-relay-store/src/lib.rs:965-988 | a pending sweep retires exactly what has been pending for more than a day |
| `Effects.RetireExact` | crates/bloom-relay-store/src/lib.rs:1027-1087 | a first retirement of any known installation; a live one loses lease and values and gets both removals |
| `Effects.RelocateExact` | crates/bloom-relay-store/src/lib.rs:1091-1150 | a first move succeeds exactly for a ready installation and another valid placement, and moves it |
| `Effects.CompleteExact` | crates/bloom-relay-store/src/lib.rs:130-138 | exactly the given job becomes complete |
| `Effects.IssueGrants` | crates/bloom-relay-store/src/lib.rs:468-496 | a first issue stores the bearer its receipt names, newest of its scope, for no longer than asked and configured, and drops a tunnel lease |
| `Effects.RenewGrants` | crates/bloom-relay-store/src/lib.rs:537-590 | a first renewal needs the newest unrevoked bearer of a ready installation, presented with its token within the grace; it grants a successor and replaces the old one |
| `Effects.GrantAuthenticates` | crates/bloom-relay-store/src/lib.rs:382-395 | a granted bearer authenticates its holder exactly until it expires, and no other token or generation of its scope does |
| `Effects.ClaimIsCurrent` | crates/bloom-relay-store/src/lib.rs:909-945 | a claimed generation is current at its gateway exactly until the lease runs out, and no other is anywhere |
| `Effects.EnsuredThenReady` | crates/bloom-relay-store/src/lib.rs:676-815 | an ensured value lives its full lifetime, is not ready before its revision is marked unless it was already live, and is ready exactly while it lives once it is |
| `Reconcile.TransactKeeps` | crates/bloom-relay-store/src/lib.rs:676-755 | every transaction outside the workers keeps an installation's rows, jobs, locks and records coherent |
| `Reconcile.MarkReconciledKeeps` | crates/bloom-relay-control/src/dns_worker.rs:151-166 | the compare-and-swap mark keeps that coherence: only the revision that was written is recorded ready |
| `Reconcile.RunInv` | crates/bloom-relay-control/src/dns_worker.rs:108-186 | coherence holds in every state of every interleaved run |
| `Reconcile.ReadinessSound` | crates/bloom-relay-store/src/lib.rs:759-773 | a value reported ready is on DNS now, as part of exactly the stored set, which was published and observed at the current revision |
| `Reconcile.NoLostWakeUp` | crates/bloom-relay-store/src/lib.rs:734-755 | DNS that differs from the stored desired state, or a revision not ready, has an incomplete job of the kind that repairs it |
| `Reconcile.QuietConverged` | crates/bloom-relay-control/src/dns_worker.rs:67-106 | with an empty outbox DNS is exactly what the rows call for, a retired name has no records and readiness is recorded, whatever the history |
| `Reconcile.TargetsAlwaysValid` | crates/bloom-relay-store/src/lib.rs:775-796 | every set a worker reads or still holds passes the provider's validation |
| `Reconcile.StepWritesLawfully` | crates/bloom-relay-control/src/dns_worker.rs:117-184 | one step adds only the current placement's addresses, only the bound account's authorization unless a publication is pending, and nothing to a retired name |
| `Reconcile.RetiredOnlyShrinks` | crates/bloom-relay-control/src/dns_worker.rs:167-184 | after a retirement or pending expiry no step ever publishes a record for that name again |
| `Reconcile.WritesFollowPlacement` | crates/bloom-relay-store/src/lib.rs:1106-1131 | after a move commits no step writes the old placement's addresses |
| `Reconcile.ReadyDeclaredExactly` | crates/bloom-relay-control/src/dns_worker.rs:117-139 | at the ready mark the records are those of the account read, the wanted ones exactly when it is still bound; otherwise a publication is pending |
| `Convergence.CanAlwaysConverge` | crates/bloom-relay-control/src/dns_worker.rs:67-106 | from every reachable state the workers alone can finish, outbox empty and DNS as desired, whenever what the rows call for can be written |
| `Convergence.EveryCompletionConverges` | crates/bloom-relay-control/src/dns_worker.rs:67-106 | every worker schedule that completes the pending jobs, in any order, ends with the outbox empty and DNS as desired |
| `Blocked.AnyScheduleCanStillConverge` | crates/bloom-relay-control/src/dns_worker.rs:67-106 | whatever the workers have done, they can still finish |
| `Blocked.MoveHoldsBack` | crates/bloom-relay-control/src/dns_worker.rs:117-139 | no worker move carries a publication that the provider refuses past its provider call |
| `Blocked.RunBlocked` | crates/bloom-relay-store/src/lib.rs:592-624 | on every run a live, account-bound installation with a refused address list has such a publication pending |
| `Blocked.ConvergesExactly` | crates/bloom-relay-dns/src/lib.rs:61-71 | some worker schedule finishes if and only if the installation is retired, has no account, or its placement lists one to four entries |
| `Blocked.RefusedListNeverConverges` | crates/bloom-relay-dns/src/lib.rs:64-65 | for every list of none or more than four entries, a run from which no schedule finishes |
| `Blocked.FiveAddressesNeverConverge` | crates/bloom-relay-control/src/dns_worker.rs:248-257 | such a run with five different addresses |
| `Blocked.RepeatedAddressNeverConverges` | crates/bloom-relay-control/src/dns_worker.rs:248-257 | such a run with one address given five times |
| `Convergence.ReadyWithOldAccount` | crates/bloom-relay-control/src/dns_worker.rs:117-139 | a run in which an installation becomes ready with the previous account's records |
| `Cloudflare.PlanServing` | crates/bloom-relay-dns/src/cloudflare.rs:243-283 | the planning loop refuses exactly the listings with a foreign record and otherwise computes the plan |
| `Cloudflare.PlanCorrect` | crates/bloom-relay-dns/src/cloudflare.rs:243-304 | the plan against the zone: one record per wanted key kept, drifted ones updated, the rest stale, missing keys exactly the absent ones, both lists in rank order |
| `Cloudflare.SortedByRank` | crates/bloom-relay-dns/src/cloudflare.rs:275-304 | sorting keeps the members and puts lower ranks first |
| `CloudflareRuns.PrefixIsMidway` | crates/bloom-relay-dns/src/cloudflare.rs:221-240 | where the zone stands after any number of the plan's calls |
| `CloudflareRuns.PublishPrefixIsPartialWrite` | crates/bloom-relay-dns/src/cloudflare.rs:221-240 | every prefix loses no wanted record and adds nothing unwanted, the partial write reconciliation assumes |
| `CloudflareRuns.PublishKeepsCaaSafe` | crates/bloom-relay-dns/src/cloudflare.rs:284-293 | after every call an authorization implies the wildcard denial, and a CAA set never becomes empty |
| `CloudflareRuns.PrefixStaysPlannable` | crates/bloom-relay-dns/src/cloudflare.rs:228-230 | a stopped publication can be planned again, with unmanaged records untouched |
| `CloudflareRuns.PublishReachesExact` | crates/bloom-relay-dns/src/cloudflare.rs:221-283 | a finished publication leaves each wanted record once, current, unproxied, and nothing else, exactly when no kept CAA record is marked proxied |
| `CloudflareRuns.ReplanEmptyIffExact` | crates/bloom-relay-dns/src/cloudflare.rs:243-283 | planning finds nothing to do exactly when the name is exact |
| `CloudflareRuns.RecoveryReachesExact` | crates/bloom-relay-dns/src/cloudflare.rs:228-240 | stop after any call, list again in any order, run the new plan: the same exact set, exactly when that plan keeps no proxied CAA record |
| `CloudflareRuns.ProxiedNeverSettles` | crates/bloom-relay-dns/src/cloudflare.rs:335-349 | a kept proxied CAA record is still there, and kept again, after every finished publication |
| `CloudflareRuns.ProxiedDenialStays` | crates/bloom-relay-dns/src/cloudflare.rs:335-349 | a name with one proxied denial, whose publication is one patch without effect |
| `CloudflareNames.ServingDesiredExact` | crates/bloom-relay-dns/src/cloudflare.rs:318-351 | the wanted keys are one per distinct address, the account's authorization and the denial |
| `CloudflareNames.AccountFitsCaa` | crates/bloom-relay-protocol/src/lib.rs:26-27 | an accepted account keeps the CAA value within 255 octets |
| `CloudflareNames.CallBound` | crates/bloom-relay-dns/src/cloudflare.rs:221-240 | a plan makes at most one call for each record there is and each key there should be |
| `CloudflareNames.NameZone.ListRecords` | crates/bloom-relay-dns/src/cloudflare.rs:168-182 | a listing holds every record of the name once; a name with more than 1000 is unavailable |
| `CloudflareNames.NameZone.PublishName` | crates/bloom-relay-dns/src/cloudflare.rs:353-358 | wherever it stops the zone is that prefix of the plan, with the guarantees above; invalid input and foreign records change nothing |
| `CloudflareNames.NameZone.Send` | crates/bloom-relay-dns/src/cloudflare.rs:231-239 | creates, then updates, then deletes, one call at a time |
| `CloudflareNames.RetireKeepsCaaSafe` | crates/bloom-relay-dns/src/cloudflare.rs:295-304 | every prefix of a retirement keeps an authorization covered by the denial |
| `CloudflareNames.RetireRemovesManaged` | crates/bloom-relay-dns/src/cloudflare.rs:394-419 | a finished retirement leaves no managed record, a stopped one has only removed some, others are untouched |
| `CloudflareNames.NameZone.RetireName` | crates/bloom-relay-dns/src/cloudflare.rs:394-419 | conflicts exactly on a foreign managed record, with no write; otherwise the two guarantees above at every stop |
| `CloudflareNames.AcceptedValues` | crates/bloom-relay-dns/src/lib.rs:87-99 | a list is accepted exactly when it is a set of at most two valid values |
| `CloudflareNames.NameZone.SetChallenge` | crates/bloom-relay-dns/src/cloudflare.rs:360-392 | invalid and foreign cases write nothing; at every stop no wanted value is missing that was there; finished, exactly the list the in-memory provider would hold, one record each; a record it did not find is its own, unproxied, with a TTL of 60 |
| `CloudflareNames.NameZone.Sweep` | crates/bloom-relay-dns/src/cloudflare.rs:372-380 | the deleting loop keeps one record for each wanted value present and never drops the last one |
| `CloudflareNames.NameZone.Fill` | crates/bloom-relay-dns/src/cloudflare.rs:381-392 | the creating loop adds exactly the missing values, once each |
| `CloudflareNames.SweepIsPartialWrite` | crates/bloom-relay-dns/src/cloudflare.rs:372-380 | deleting unwanted and duplicate records is a partial write at every point |
| `CloudflareNames.QuotedReads` | crates/bloom-relay-dns/src/cloudflare.rs:310-316 | reading back a quoted value gives the value |
| `CloudflareNames.NameZone.RetireChallenge` | crates/bloom-relay-dns/src/cloudflare.rs:421-440 | conflicts exactly on a foreign TXT record; finished, no TXT record is left and others are untouched |
| `CloudflareNames.MemoryProvider.PublishName` | crates/bloom-relay-dns/src/lib.rs:133-141 | the in-memory publication: hostname and records validated, or no change |
| `CloudflareNames.MemoryProvider.SetChallenge` | crates/bloom-relay-dns/src/lib.rs:143-155 | the in-memory replacement: exactly the given values for this host, others unchanged; a bad hostname or set changes nothing |
| `CloudflareNames.MemoryProvider.RetireName` | crates/bloom-relay-dns/src/lib.rs:157-162 | a valid host has no records afterwards, others are unchanged; a bad hostname is refused |
| `CloudflareNames.MemoryProvider.RetireChallenge` | crates/bloom-relay-dns/src/lib.rs:164-168 | a valid host has no challenge values afterwards; a bad hostname is refused |
| `Refinement.PublicationAccepted` | crates/bloom-relay-dns/src/lib.rs:62-72 | in every reachable state the provider's validation of a publication succeeds exactly when reconciliation allows the write |
| `Refinement.PublishImplementsWrite` | crates/bloom-relay-dns/src/cloudflare.rs:221-240 | wherever a publication stops it is a serving write that reconciliation allows, and finished it is the finished write |
| `Refinement.RetireImplementsWrite` | crates/bloom-relay-dns/src/cloudflare.rs:394-419 | so is a retirement |
| `Refinement.SetChallengeImplementsWrite` | crates/bloom-relay-dns/src/cloudflare.rs:360-392 | so is replacing the challenge set, for the TXT side |
| `Refinement.RetireChallengeImplementsWrite` | crates/bloom-relay-dns/src/cloudflare.rs:421-440 | so is retiring it, whatever else the name holds |
| `Worker.StoredSetAccepted` | crates/bloom-relay-dns/src/lib.rs:87-98 | the stored set, in any order, passes the provider's validation in every state the store can be in |
| `Worker.StoredRecordsAccepted` | crates/bloom-relay-dns/src/lib.rs:62-72 | so do the stored hostname and account; records are refused exactly for their address list |
| `Worker.DnsWorker.Publish` | crates/bloom-relay-control/src/dns_worker.rs:117-139 | done when there is nothing to publish, or published to the end, seen, marked ready and every witness check passed, and then it is; wherever it stops, the publication guarantees; no write when the witness refuses |
| `Worker.DnsWorker.ReconcileTxt` | crates/bloom-relay-control/src/dns_worker.rs:140-166 | marked only with exactly the stored set on DNS, and then it is when nothing stands in the way; wherever it stops, no stored value was dropped |
| `Worker.DnsWorker.Remove` | crates/bloom-relay-control/src/dns_worker.rs:167-182 | removes only for a retired installation; done only with nothing left, and then it is when nothing stands in the way |
| `Worker.DnsWorker.Attempt` | crates/bloom-relay-control/src/dns_worker.rs:67-186 | an allowed job that nothing hinders is done, and marked where there is something to mark; it is marked or completed only when its effect is in place; the store is exactly the mark and the completion; the other name is untouched |
| `Gateway.Registry.Install` | crates/bloom-relay/src/main.rs:383-404 | a tunnel is installed exactly when its host is free or listed under an older generation; the one displaced is named |
| `Gateway.Registry.Release` | crates/bloom-relay/src/main.rs:618-624 | an ending lifecycle removes its own entry and no successor's |
| `Gateway.Registry.TakeTicket` | crates/bloom-relay/src/main.rs:496-512 | a CONNECT takes its ticket exactly when every field matches before the deadline; otherwise every ticket stays |
| `Gateway.RunKeeps` | crates/bloom-relay/src/main.rs:278-748 | the gateway invariant holds in every world of every interleaved run |
| `Gateway.NoMisrouting` | crates/bloom-relay/src/main.rs:427-534 | a delivered browser asked for the host whose one owner the CONNECT was authenticated as, with the ticket's exact generation and authority before its deadline, and the lease was current at a check after the ticket was taken |
| `Gateway.DeliveredOnce` | crates/bloom-relay/src/main.rs:496-534 | a ticket, and a browser, is delivered at most once |
| `Gateway.TicketLeavesOnly` | crates/bloom-relay/src/main.rs:661-679 | a ticket leaves the map only to the CONNECT that matches it or with its own browser |
| `Gateway.SupersededNeverDelivers` | crates/bloom-relay/src/main.rs:513-532 | once a generation is superseded in the store no later check delivers to it |
| `Gateway.DeliveriesFollowGenerations` | crates/bloom-relay/src/main.rs:513-532 | ordered by their checks, an installation's deliveries never return to an older generation |
| `Gateway.NothingLeaks` | crates/bloom-relay/src/main.rs:544-748 | every tunnel entry has its running lifecycle with a lease this gateway claimed, every ticket its waiting browser |
| `GatewayProgress.Origin` | crates/bloom-relay/src/main.rs:278-748 | whatever a task is in a run, one earlier step made it so, and the check that step makes held then |
| `GatewayProgress.DeliveriesChecked` | crates/bloom-relay/src/main.rs:451-532 | every delivery went through all checks of its CONNECT in order: named, authenticated, tunnel listed, lease current, ticket taken, tunnel still listed, lease still current |
| `GatewayProgress.EntriesOnlyAdvance` | crates/bloom-relay/src/main.rs:383-404 | no step replaces a tunnel entry but by a newer generation, or removes it but with its own lifecycle |
| `GatewayProgress.CommitsOnly` | crates/bloom-relay/src/main.rs:571-600 | the gateway changes the store only to claim for an authenticated peer and to extend a lease whose tunnel it still lists |
| `GatewayProgress.TicketsNameTunnels` | crates/bloom-relay/src/main.rs:685-717 | every ticket names a tunnel its browser found under the host it asked for, whose lease it then found current, and runs out ten seconds after its issue |
| `GatewayProgress.FreshClaimInstalls` | crates/bloom-relay/src/main.rs:383-404 | no entry carries a generation beyond its installation's counter, so a new claim always installs |
| `GatewayProgress.TunnelOpens` | crates/bloom-relay/src/main.rs:278-426 | from every reachable world, who is named, authenticated and placed here can open its tunnel |
| `GatewayProgress.BrowserWaits` | crates/bloom-relay/src/main.rs:685-717 | a browser that asks for a leased tunnel's host comes to wait with a ticket for it |
| `GatewayProgress.TicketIsDelivered` | crates/bloom-relay/src/main.rs:427-534 | a waiting ticket can be delivered to the CONNECT of the tunnel it names until it runs out |
| `GatewayProgress.BrowserIsServed` | crates/bloom-relay/src/main.rs:278-748 | end to end: tunnel, browser and CONNECT, and exactly that browser is delivered |
| `GatewayProgress.BeatExtends` | crates/bloom-relay/src/main.rs:544-660 | a heartbeat keeps a running tunnel's lease for 45 seconds more |
| `Witness.JudgeExact` | crates/bloom-relay-store/src/restore.rs:131-140 | a check proceeds exactly when no mark is above the revision and, without marks, the database is pristine at revision 1 |
| `Witness.RestoreWitness.VerifyAndAdvance` | crates/bloom-relay-store/src/restore.rs:93-161 | the retry loop, exactly: which attempt decides, when it succeeds, and when it is missing, stale or contended; marks never decrease, a success leaves them all at its revision, a refusal as they were read |
| `WitnessRuns.RunInv` | crates/bloom-relay-store/src/restore.rs:93-161 | the invariant of all processes and hosts over every run, with crashes, lost hosts and database rollbacks |
| `WitnessRuns.MarksNeverDecrease` | crates/bloom-relay-store/src/restore.rs:138-158 | no step lowers the remote mark, and only losing a host lowers its file |
| `WitnessRuns.MarksCoverAcknowledgements` | crates/bloom-relay-store/src/restore.rs:141-158 | the remote holds every revision a remote-configured process acknowledged, a file every one of its host |
| `WitnessRuns.HostNeverGoesBack` | crates/bloom-relay-store/src/restore.rs:116-158 | on one host no acknowledgement, cached or not, is below an earlier one |
| `WitnessRuns.FullCheckNeverGoesBack` | crates/bloom-relay-store/src/restore.rs:116-158 | a full check that began after a remote acknowledgement anywhere never accepts a revision below it |
| `WitnessRuns.ProtectedNeverGoesBack` | crates/bloom-relay-store/src/restore.rs:93-161 | an acknowledgement is never undercut on its own host until that is lost, nor, between processes with a remote, by a full check begun afterwards |
| `WitnessRuns.RefusesExactlyOnLineage` | crates/bloom-relay-store/src/restore.rs:131-140 | on a database that never went back a check refuses as stale exactly when the remote it read is above the revision it loaded, never when that is still the database's |
| `WitnessRuns.UnmarkedNeedsPristine` | crates/bloom-relay-store/src/restore.rs:132-137 | with neither mark only a pristine revision-1 database passes, and it does |
| `WitnessRuns.CacheAgreesExactly` | crates/bloom-relay-store/src/restore.rs:57-61 | the cached answer and marks are the full check's exactly when the remote still holds the revision; otherwise the full check refuses |
| `WitnessRuns.CacheFaithfulOnLineage` | crates/bloom-relay-store/src/restore.rs:119-128 | on a database that never went back they agree while the revision read is still the database's |
| `WitnessExamples.CacheMissesRollback` | crates/bloom-relay-store/src/restore.rs:119-128 | a run in which the cache accepts a database another host's acknowledgement is above |
| `WitnessExamples.RefusalWithoutRollback` | crates/bloom-relay-store/src/restore.rs:116-140 | a run without rollback in which a full check refuses as stale |
| `WitnessExamples.LocalAcknowledgementForgotten` | crates/bloom-relay-store/src/restore.rs:119-140 | a run in which a full check accepts less than a local-only process on another host acknowledged |
| `WitnessExamples.LocalCheckUnaware` | crates/bloom-relay-store/src/restore.rs:119-140 | a run in which a local-only check accepts less than the remote holds |
| `WitnessExamples.EarlierCheckOvertaken` | crates/bloom-relay-store/src/restore.rs:141-158 | a run without rollback in which a full check that began first finishes below a later acknowledgement |
| `WitnessExamples.LostHostForgets` | crates/bloom-relay-store/src/restore.rs:3-6 | a run in which losing a host lets its next check accept less |
| `Decoder.ControlDecoder.Push` | crates/bloom-relay-protocol/src/lib.rs:419-434 | one push drains the pending and new bytes; oversized input changes nothing; a bad line is consumed; success leaves no newline |
| `Decoder.PushAllDrains` | crates/bloom-relay-protocol/src/lib.rs:412-434 | pushing chunks is draining their concatenation; a failing stream delivers a prefix of the events |
| `Decoder.ChunkingIndependent` | crates/bloom-relay-protocol/src/lib.rs:412-414 | chunkings of the same bytes that avoid the limit fail together and otherwise give the same events and remainder |
| `Decoder.ReceivesWhatWasSent` | crates/bloom-relay-protocol/src/lib.rs:412-434 | however sent lines are cut, the receiver gets exactly their messages in order and keeps the beginning of the next |
| `Decoder.BadLineEndsStream` | crates/bloom-relay-protocol/src/lib.rs:427-433 | a line that does not parse ends the stream, after at most the messages before it |
| `Decoder.ShortStreamsFit` | crates/bloom-relay-protocol/src/lib.rs:421-423 | at most 16 KiB in total never meets the limit |
| `Decoder.FittingLinesFit` | crates/bloom-relay-protocol/src/lib.rs:421-423 | lines of at most L and chunks of at most C never meet it when L + C is at most 16385 |
| `Decoder.LimitIsTight` | crates/bloom-relay-protocol/src/lib.rs:421-423 | for every L + C of 16386 some stream does |
| `Bridge.ReadSni` | crates/bloom-relay/src/main.rs:750-774 | the prefix is every byte read, at most 64 KiB, and the first cut of it that parses; it is answered exactly when it names an assigned hostname |
| `Bridge.Relay.SendData` | crates/bloom-relay/src/main.rs:776-788 | frames of 1 to 16384 bytes whose concatenation is the input, or a prefix of it when the stream closes |
| `Bridge.Relay.Copy` | crates/bloom-relay/src/main.rs:790-831 | Broker gets the prefix and then exactly the browser's bytes in order with one end of stream; the browser gets exactly Broker's bytes; it stops only when both have ended, a write failed, the connection broke or nothing more happens |
| `Bridge.BrowserSideExact` | crates/bloom-relay/src/main.rs:807-814 | the browser's bytes are all it wrote before its first empty read |
| `Bridge.TunnelSideExact` | crates/bloom-relay/src/main.rs:815-825 | Broker's bytes are all its data before its first end |
| `Bootstrap.Challenges.CreateChallenge` | crates/bloom-relay-store/src/lib.rs:305-327 | the method is the quota decision over the table |
| `Bootstrap.Challenges.ConsumeChallenge` | crates/bloom-relay-store/src/lib.rs:329-337 | a challenge is consumed once, by its source, before it expires |
| `Bootstrap.Challenges.PruneChallenges` | crates/bloom-relay-store/src/lib.rs:341-346 | a prune deletes the oldest rows past two days, up to its limit, all of them below it; a limit out of range is an error and deletes nothing |
| `Bootstrap.CreateExact` | crates/bloom-relay-store/src/lib.rs:305-327 | a challenge is issued exactly below the three limits |
| `Bootstrap.ConsumeExact` | crates/bloom-relay-store/src/lib.rs:329-337 | a challenge is consumed exactly once, by its source, within its minute, and nothing else changes |
| `Bootstrap.PruningInvisible` | crates/bloom-relay-store/src/lib.rs:314-346 | each count over the pruned table is that over all history within its own prune lead, and the daily filter on creation time excludes nothing |
| `Bootstrap.LateIssueMissesEnrollment` | crates/bloom-relay-store/src/lib.rs:341-346 | a table whose daily count changes when the prune clock is one millisecond beyond the daily lead |
| `Bootstrap.RunInv` | crates/bloom-relay-store/src/lib.rs:301-346 | every issued row was below the limits over the history before it, each within its prune lead |
| `Bootstrap.MinuteLimits` | crates/bloom-relay-store/src/lib.rs:301-304 | any sliding minute has at most 10 challenges per source and 100 overall, even out of commit order |
| `BootstrapExamples.MinuteLimitNeedsLead` | crates/bloom-relay-store/src/lib.rs:341-346 | a run, one millisecond beyond the minute lead, with 11 in one minute |
| `Bootstrap.LongWindow` | crates/bloom-relay-store/src/lib.rs:314-323 | any window holds at most ten challenges of a source for each minute it begins |
| `Bootstrap.DailyLimit` | crates/bloom-relay-store/src/lib.rs:301-323 | at most 29 enrollments per source complete in any sliding day, and 20 more for each minute begun by the lag of consumptions behind issues |
| `BootstrapExamples.DailyLimitIsReached` | crates/bloom-relay-store/src/lib.rs:301-323 | a run that completes 29 |
| `BootstrapExamples.DailyLimitNeedsOrder` | crates/bloom-relay-store/src/lib.rs:329-337 | a run with consumptions one millisecond behind that completes 49, the bound |
| `BootstrapExamples.DailyLimitNeedsLead` | crates/bloom-relay-store/src/lib.rs:341-346 | a run, one millisecond beyond the daily lead, that completes 39 |
| `Nonces.NonceStore.ConsumeNonce` | crates/bloom-relay-store/src/lib.rs:369-380 | true exactly for a nonce of acceptable length not in the table |
| `Nonces.NonceStore.AuthorizeAdmin` | crates/bloom-relay-control/src/main.rs:342-382 | verify, then consume: a request out of time spends no nonce |
| `Nonces.AuthorizeExact` | crates/bloom-relay-control/src/main.rs:342-382 | accepted exactly in time, with a nonce of acceptable length that is not on record; it is then, for five minutes |
| `Nonces.AcceptedOnce` | crates/bloom-relay-protocol/src/lib.rs:140-171 | despite pruning a signed request is accepted at most once within the drift bound |
| `Nonces.DriftIsTight` | crates/bloom-relay-store/src/lib.rs:341-380 | beyond the bound, however divided, a run accepts one twice |
| `Ingress.SumAdds` | crates/bloom-relay/src/main.rs:88-91 | one admission raises the sum of the per-source counts by one |
| `Ingress.IngressQuota.AllowAt` | crates/bloom-relay/src/main.rs:77-93 | refuses exactly when the source or the total has used up the window; the per-source counts keep adding up to the total; notes whether its clock readings came in order |
| `Ingress.SlidingLimits` | crates/bloom-relay/src/main.rs:77-93 | at most 240 per source and 10,000 overall in any sliding minute, for clock readings in order |
| `Ingress.AcceptLoop` | crates/bloom-relay/src/main.rs:174-179 | each arrival is accepted exactly when neither its source nor the gateway has used up its window; the log is the accepted arrivals in order; no sliding minute of accepted arrivals exceeds 240 per source or 10,000 |
| `Ingress.SlidingLimitsAreReached` | crates/bloom-relay/src/main.rs:77-93 | arrivals of which 240 of one source, and 10,000 overall, are accepted in one sliding minute |

## Left out

- Ingress.AcceptLoop: one accept loop, whose monotonic clock does not go back; `allow` has no other caller.
- Bootstrap.DailyLimit: tight without a lag and for one of up to a minute; for longer ones that is not claimed.
- CloudflareNames.NameZone.SetChallenge: the order in which missing values are created follows the given list; the source's list is sorted.
- Worker.DnsWorker.Attempt: one attempt alone; interleaving is in `Reconcile`. The witness's answers are parameters.
- Blocked.ConvergesExactly: each placement has one address list, the same for all its workers and for the whole run.
- CloudflareNames.NameZone.PublishName: the hostname has passed validation; so for the other operations on a name.
- Gateway.NothingLeaks: a shutdown that aborts requests takes both maps with the process.
- Bridge.Relay.Copy: timeouts, flow-control release and write errors towards the browser appear only as a broken connection.
- Gateway.NoMisrouting: stream and lifecycle permits, HTTP status codes and the control channel's back-pressure are not modelled; dropping a request at any await is.
- WitnessRuns.RunInv: replacing the witness file by rename is one step, and an unreadable file is a failed check.
- TLS, HTTP/2, ClientHello parsing, Ed25519, base64 and JSON canonicalisation (RFC 8785): foreign libraries, taken as parameters or predicates.
- SQL text, connection loss and PostgreSQL isolation: each transaction is taken as atomic.
- The Route 53 provider and the DNS observer: one atomic batch, and an arbitrary answer.
- The S3 witness and the receipt signer: only the compare-and-swap contract is modelled.
- Certificate-transparency checkpoints and PROXY protocol parsing: would add easy members only.
- Clients, probes, metrics, environment parsing, packaging: not part of these protocols.
- Wall-clock liveness (timeouts, heartbeats, backoff): only deadlines that guard safety are modelled.
