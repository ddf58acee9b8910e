/** Rows of the relay's PostgreSQL tables. Every table the model uses is keyed by
    installation, so one `Installation` value gathers an installation's rows:
    its `installations` row, its scoped bearers, its tunnel lease, its challenge
    set and its outbox jobs.
  */
module Schema {

  type Uuid = nat

  /** Milliseconds on the database clock. */
  type Instant = int

  datatype Option<+T> = None | Some(value: T)

  datatype StoreError = Conflict | InvalidRequest | Unauthorized | Unavailable

  datatype Result<+T> = Ok(value: T) | Err(error: StoreError)

  /** A SHA-256 digest, taken to be injective. */
  datatype Digest = Sha256(preimage: string)

  datatype Scope = SurfaceAdmin | Tunnel | DnsChallenge

  datatype Lifecycle = PendingDns | DnsReady | Retired

  datatype BearerKey = BearerKey(scope: Scope, generation: nat)

  datatype Bearer = Bearer(tokenHash: Digest, expiresAt: Instant, revoked: bool)

  datatype Lease = Lease(generation: nat, gateway: string, expiresAt: Instant)

  datatype ChallengeState = ChallengeState(revision: nat, ready: Option<nat>)

  /** What an ensured value's caller is told. */
  datatype ChallengeValueState = ChallengeValueState(revision: nat, expiresAt: Instant)

  datatype JobKind = PublishName | RemoveRecords | ReconcileTxt | RemoveTxtAll

  datatype Job = Job(kind: JobKind, completed: bool)

  datatype Installation = Installation(
    hostname: string,
    adminKey: string,
    placement: string,
    generation: nat,
    state: Lifecycle,
    account: Option<string>,
    createdAt: Instant,
    bearers: map<BearerKey, Bearer>,
    lease: Option<Lease>,
    challenge: Option<ChallengeState>,
    values: map<string, Instant>,
    jobs: map<nat, Job>)

  /** The request an operation id was first used for: its kind and digest. */
  datatype Request =
    | AllocateRequest
    | IssueRequest(scope: Scope, validity: int, tokenHash: Digest)
    | RenewRequest(scope: Scope, generation: nat, oldHash: Digest, newHash: Digest)
    | RetireRequest(installation: Uuid)
    | RelocateRequest(installation: Uuid, placement: string)

  datatype Receipt = NoReceipt | Receipt(generation: nat, expiresAt: Instant)

  datatype Operation = Operation(installation: Uuid, request: Request, receipt: Receipt, createdAt: Instant)

  /** The database: `nextJob` is the outbox identity sequence and `fence` the
      revision that every audited security transition advances. */
  datatype Db = Db(
    installations: map<Uuid, Installation>,
    operations: map<Uuid, Operation>,
    nextJob: nat,
    fence: nat)

  /** Bearer lifetime and renewal grace, in seconds. */
  datatype Windows = Windows(validity: nat, grace: nat)

  const CHALLENGE_VALUE_LIFETIME_MS: int := 300000
  const MAX_LIVE_CHALLENGE_VALUES: nat := 2
  const MINUTE_MS: int := 60000
  const DAY_MS: int := 86400000

  predicate AlphanumericOr(c: char, extra: set<char>) {
    'a' <= c <= 'z' || 'A' <= c <= 'Z' || '0' <= c <= '9' || c in extra
  }

  /** An ACME DNS-01 TXT value: 43 base64url characters (section 8.4 of RFC 8555). */
  predicate ValidChallengeValue(v: string) {
    |v| == 43 && forall i | 0 <= i < |v| :: AlphanumericOr(v[i], {'-', '_'})
  }

  predicate ValidPlacement(p: string) {
    1 <= |p| <= 64 && forall i | 0 <= i < |p| :: AlphanumericOr(p[i], {'-'})
  }

  /** What a hostname is drawn from: 16 random bytes in lower-case base 32. */
  predicate DrawnLabel(l: string) {
    |l| == 26 && forall i | 0 <= i < 26 :: 'a' <= l[i] <= 'z' || '2' <= l[i] <= '7'
  }

  type Label = l: string | DrawnLabel(l) witness seq(26, i requires 0 <= i < 26 => 'a')

  const ZONE := ".relay.bloom.directory"

  function HostnameOf(drawn: Label): string {
    drawn + ZONE
  }

  /** A label of 26 lower-case letters and digits under the relay's zone. */
  predicate ValidHostname(host: string) {
    |host| == 26 + |ZONE| && host[26..] == ZONE && forall i | 0 <= i < 26 ::
      'a' <= host[i] <= 'z' || '0' <= host[i] <= '9'
  }

  datatype AcmeEnvironment = Production | Staging

  const MAX_ACME_ACCOUNT_URI_LEN: nat := 200

  function AccountPrefix(environment: AcmeEnvironment): string {
    match environment
    case Production => "https://acme-v02.api.letsencrypt.org/acme/acct/"
    case Staging => "https://acme-staging-v02.api.letsencrypt.org/acme/acct/"
  }

  predicate Digits(s: string) {
    s != "" && forall i | 0 <= i < |s| :: '0' <= s[i] <= '9'
  }

  /** An account URI of this environment. */
  predicate ValidAccountUri(environment: AcmeEnvironment, uri: string) {
    && |uri| <= MAX_ACME_ACCOUNT_URI_LEN
    && AccountPrefix(environment) <= uri && Digits(uri[|AccountPrefix(environment)|..])
  }

  /** An account URI of either environment. */
  predicate KnownAccount(uri: string) {
    ValidAccountUri(Production, uri) || ValidAccountUri(Staging, uri)
  }

  function MaxOf(a: int, b: int): int {
    if a < b then b else a
  }

  function MinOf(a: int, b: int): int {
    if a < b then a else b
  }

  predicate EmptyDb(db: Db) {
    db.installations == map[] && db.operations == map[]
  }
}
