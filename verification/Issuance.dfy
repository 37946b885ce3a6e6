/** What the live authorization runtime decides from its projection, and what the durable store
    decides from its newest generation. */
module Issuance {
  import opened Wrappers
  import opened AuthorizationCache

  datatype ErrorCode =
    | Internal | ProfileSuspended | NotAuthorized | IssuerDisabled | RequiredEvidenceUnavailable | Conflict | Capacity

  datatype Request = Request(key: nat, version: nat, profile: nat, harness: nat, evidence: set<Evidence>)
  datatype Context = Context(generation: nat, policyVersion: nat)

  /** The issuer a request names, if the projection lists it. */
  function FindIssuer(issuers: seq<Issuer>, key: nat, version: nat): (r: Option<Issuer>)
    ensures r.Some? ==> r.value in issuers && r.value.key == key && r.value.version == version
    ensures r.None? ==> forall i :: i in issuers ==> !(i.key == key && i.version == version)
  {
    if issuers == [] then None
    else if issuers[0].key == key && issuers[0].version == version then Some(issuers[0])
    else FindIssuer(issuers[1..], key, version)
  }

  predicate Accepts(policy: Policy, evidence: set<Evidence>) {
    exists clause :: clause in policy.clauses && clause <= evidence
  }

  /** issuance_context: what a request may be issued under, or why not. */
  function IssuanceContext(p: Projection, q: Request): Result<Context, ErrorCode> {
    if p.failure.Some? then Err(Internal)
    else if q.profile in p.suspended then Err(ProfileSuspended)
    else
      var found := FindIssuer(p.issuers, q.key, q.version);
      if found.None? then Err(NotAuthorized)
      else if found.value.disabled then Err(IssuerDisabled)
      else if q.profile !in found.value.profiles
          || (found.value.harness.Some? && found.value.harness != Some(q.harness)) then
        Err(NotAuthorized)
      else if !Accepts(p.policy, q.evidence) then Err(RequiredEvidenceUnavailable)
      else Ok(Context(p.generation, p.policy.version))
  }

  /** One store generation permits `q`: profile, issuer, scope and evidence all agree. */
  ghost predicate Permits(store: Store, q: Request) {
    && q.profile !in store.suspended
    && Accepts(store.policy, q.evidence)
    && FindIssuer(store.issuers, q.key, q.version).Some?
    && var issuer := FindIssuer(store.issuers, q.key, q.version).value;
       !issuer.disabled && q.profile in issuer.profiles && (issuer.harness.Some? ==> issuer.harness == Some(q.harness))
  }

  /** Under coherence a context is granted exactly when the cache is not failed closed and
      the mirrored store generation itself permits the request. */
  lemma ContextIsThePermit(history: seq<Store>, clock: nat, c: Cache, q: Request)
    requires Coherent(history, clock, c)
    ensures var store := history[c.projection.generation];
            && (IssuanceContext(c.projection, q).Ok? <==> c.projection.failure.None? && Permits(store, q))
            && (IssuanceContext(c.projection, q).Ok? ==>
                  IssuanceContext(c.projection, q).value == Context(c.projection.generation, store.policy.version))
  {
  }

  datatype Interruption = AuthorizationUnavailable | AuthorizationLost

  /** grant_interruption: the per-request check of an already admitted session. */
  function GrantInterruption(c: Cache, grant: Grant, now: nat): Option<Interruption> {
    if c.projection.failure.Some? then Some(AuthorizationUnavailable)
    else if Authorizes(c.registry, grant, now) then None
    else Some(AuthorizationLost)
  }

  /** "Lost" is reported only when the store generation in force really lacks the live grant. */
  lemma InterruptionIsTheStores(history: seq<Store>, clock: nat, c: Cache, grant: Grant)
    requires Coherent(history, clock, c)
    ensures var live := grant in history[c.projection.generation].grants && grant.expires > clock;
            && (GrantInterruption(c, grant, clock) == Some(AuthorizationLost) <==> c.projection.failure.None? && !live)
            && (GrantInterruption(c, grant, clock) == None <==> c.projection.failure.None? && live)
  {
  }

  datatype StoreError =
    | StoreProfileSuspended | StoreIssuerDisabled | StoreEvidenceUnavailable | StoreCapacity | StoreConflict
    | StoreNotFound | StoreInvalidInput
    | StoreBroken(code: nat)   // unavailable, corrupt, unsafe, mismatched or rolled back

  function MapStoreError(e: StoreError): ErrorCode {
    match e
    case StoreProfileSuspended => ProfileSuspended
    case StoreIssuerDisabled => IssuerDisabled
    case StoreEvidenceUnavailable => RequiredEvidenceUnavailable
    case StoreCapacity => Capacity
    case StoreConflict => Conflict
    case StoreNotFound => NotAuthorized
    case StoreInvalidInput => Internal
    case StoreBroken(_) => Internal
  }

  predicate RefreshesAfter(e: StoreError) {
    e.StoreProfileSuspended? || e.StoreIssuerDisabled? || e.StoreEvidenceUnavailable? || e.StoreCapacity?
        || e.StoreNotFound?
  }

  // ------------------------------------------------------------------ the store's answers

  /** What the newest generation alone does not decide: whether the request repeats an earlier
      one, whether a quota is used up, and whether the store works at all. */
  datatype Oracle = Plain | Repeats(existing: Grant) | Full | Breaks(code: nat) | Dies

  datatype Verdict = Applied | Unchanged | Replayed(existing: Grant) | Refused(error: StoreError) | Died

  /** The store's next generation, if the transaction commits one, and what the caller learns. */
  datatype Answer = Answer(next: Option<Store>, verdict: Verdict)

  function Newest(history: seq<Store>): Store
    requires history != []
  {
    history[|history| - 1]
  }

  /** Some generation of the store held the grant. */
  predicate Recorded(history: seq<Store>, grant: Grant) {
    exists k :: 0 <= k < |history| && grant in history[k].grants
  }

  predicate HoldsId(store: Store, id: nat) {
    exists g :: g in store.grants && g.id == id
  }

  predicate IdUsed(history: seq<Store>, id: nat) {
    exists k :: 0 <= k < |history| && HoldsId(history[k], id)
  }

  /** A live grant of that identifier. */
  predicate HoldsLive(store: Store, id: nat, now: nat) {
    HoldsId(store.(grants := Unexpired(store.grants, now)), id)
  }

  /** The generation in which grants that have expired by now are terminal, if there are any. */
  function Expired(store: Store, now: nat): Option<Store> {
    if Unexpired(store.grants, now) == store.grants then None
    else Some(store.(grants := Unexpired(store.grants, now)))
  }

  /** validate_grant_authority: the store decides again, from its own newest generation. */
  function AuthorityError(store: Store, q: Request, policyVersion: nat): Option<StoreError> {
    if q.profile in store.suspended then Some(StoreProfileSuspended)
    else
      var found := FindIssuer(store.issuers, q.key, q.version);
      if found.None? then Some(StoreNotFound)
      else if found.value.disabled then Some(StoreIssuerDisabled)
      else if q.profile !in found.value.profiles
          || (found.value.harness.Some? && found.value.harness != Some(q.harness)) then
        Some(StoreConflict)
      else if policyVersion != store.policy.version then Some(StoreConflict)
      else if !Accepts(store.policy, q.evidence) then Some(StoreEvidenceUnavailable)
      else None
  }

  /** issue_grant_for_request. */
  function StoreIssue(history: seq<Store>, q: Request, candidate: Grant, now: nat, oracle: Oracle): Answer
    requires history != []
  {
    if oracle.Dies? then Answer(None, Died)
    else if oracle.Breaks? then Answer(None, Refused(StoreBroken(oracle.code)))
    else if candidate.expires <= now then Answer(None, Refused(StoreInvalidInput))
    else if oracle.Repeats? && Recorded(history, oracle.existing) then
      if oracle.existing.issuer != candidate.issuer || oracle.existing.profile != candidate.profile then
        Answer(None, Refused(StoreConflict))
      else Answer(Expired(Newest(history), now), Replayed(oracle.existing))
    else if IdUsed(history, candidate.id) then Answer(None, Refused(StoreConflict))
    else if oracle.Full? then Answer(None, Refused(StoreCapacity))
    else
      var error := AuthorityError(Newest(history), q, candidate.policyVersion);
      if error.Some? then Answer(None, Refused(error.value))
      else
        var newest := Newest(history);
        Answer(Some(newest.(grants := Unexpired(newest.grants, now) + {candidate})), Applied)
  }

  /** retire_grant; `known` is whether a terminal record of the identifier is retained. */
  function StoreRetire(history: seq<Store>, id: nat, now: nat, known: bool, oracle: Oracle): Answer
    requires history != []
  {
    var newest := Newest(history);
    if oracle.Dies? then Answer(None, Died)
    else if oracle.Breaks? then Answer(None, Refused(StoreBroken(oracle.code)))
    else if oracle.Full? then Answer(None, Refused(StoreCapacity))
    else if HoldsLive(newest, id, now) then
      Answer(Some(newest.(grants := set g | g in Unexpired(newest.grants, now) && g.id != id)), Applied)
    else if known then Answer(Expired(newest, now), Unchanged)
    else Answer(None, Refused(StoreNotFound))
  }

  /** The store commits a grant only onto a generation that itself permits the request, under
      that generation's policy, and never reuses an identifier. */
  lemma IssuedIsPermitted(history: seq<Store>, q: Request, candidate: Grant, now: nat, oracle: Oracle)
    requires history != [] && StoreIssue(history, q, candidate, now, oracle).verdict.Applied?
    ensures var next := StoreIssue(history, q, candidate, now, oracle).next;
            && next.Some? && candidate in next.value.grants
            && Permits(Newest(history), q) && candidate.policyVersion == Newest(history).policy.version
            && !IdUsed(history, candidate.id) && candidate.expires > now
  {
  }
}
