/** The store and the gated write service as a state machine: one function per service call
    (MemoryStore and QivenContext in src/persistence.cpp). Each call holds the admission lock, so a call is one step. */
module Service {
  import opened Prelude
  import opened Wire
  import opened Cognition
  import opened SnapshotLayout
  import opened SnapshotCodecLaws
  import opened Text
  import opened Transactions
  import opened Gates

  // ---- the store ----

  /** The linear history of stored images, oldest first, and the newest revision. */
  datatype Store = Store(revisions: seq<(RevisionId, Bytes)>, head: RevisionId)
  const EMPTY_STORE := Store([], NO_REVISION)

  datatype StoreReceipt = Committed(revision: RevisionId) | CompareFailed | OutcomeUnknown

  function CompareAndSwap(w: World, s: Store, base: RevisionId, bytes: Bytes): (Store, StoreReceipt) {
    if s.revisions != [] && base != s.head then (s, CompareFailed)
    else if s.revisions != [] && s.revisions[|s.revisions| - 1].1 == bytes then (s, Committed(s.head))
    else
      var id := Mint(w, base, bytes);
      (Store(s.revisions + [(id, bytes)], id), Committed(id))
  }

  /** What happens to a store call on its way: the acknowledgement may be lost after the commit, or the call may never
      arrive. The caller cannot tell the two apart. */
  datatype Delivery = Acknowledged | AckLost | NeverArrived

  function Deliver(w: World, s: Store, base: RevisionId, bytes: Bytes, delivery: Delivery): (Store, StoreReceipt) {
    match delivery
    case Acknowledged => CompareAndSwap(w, s, base, bytes)
    case AckLost => (CompareAndSwap(w, s, base, bytes).0, OutcomeUnknown)
    case NeverArrived => (s, OutcomeUnknown)
  }

  function Materialize(s: Store, id: RevisionId): Bytes {
    match Find(s.revisions, (r: (RevisionId, Bytes)) => r.0 == id) case None => [] case Some(i) => s.revisions[i].1
  }

  // ---- actors, grants, verdicts ----

  datatype Actor = Actor(principal: Str, role: Role, binding: Str, servingModel: Str, reasoning: Str, designation: Str)
  const NO_ACTOR := Actor([], Worker, [], [], [], [])

  /** The root-principal verifier. */
  predicate Verifies(actor: Actor, governance: Snapshot) {
    actor.principal != [] && actor.binding != [] && actor.servingModel != [] && actor.principal == governance.rootPrincipal
  }

  datatype WorkMode = SupervisedForeground | Unattended
  datatype Grant = Grant(id: Str, epoch: nat, principal: Str, mode: WorkMode)

  /** A handle is the address of a materialization; 0 is the null handle. */
  type Handle = nat

  datatype Outcome = Applied | Refused | Unknown
  datatype Verdict = Verdict(outcome: Outcome, reason: RefusalReason, successor: Handle)

  function Refuse(reason: RefusalReason): Verdict { Verdict(Refused, reason, 0) }

  const UNKNOWN := Verdict(Unknown, OutcomeUnresolved, 0)

  datatype Receipt = Receipt(digest: Str, outcome: Verdict)

  // ---- the service ----

  datatype Quarantine = Isolated | Verified | AuthorityPending | Promoted

  datatype Materialization = Materialization(address: Handle, state: Snapshot, digest: Str, revision: RevisionId,
    epoch: nat, quarantine: Quarantine)

  datatype Service = Service(store: Store, live: seq<Materialization>, activeGrant: Str, grantActor: Actor,
    receipts: map<Str, Receipt>, epoch: nat, generation: nat, nextAddress: nat)

  const START := Service(EMPTY_STORE, [], [], NO_ACTOR, map[], 0, 0, 1)
  const WORD := 0x1_0000_0000_0000_0000

  function FindLive(v: Service, handle: Handle): Option<nat> { Find(v.live,
      (m: Materialization) => m.address == handle) }

  /** The live canonical materialization when there is one, else the stored head restored. */
  function CanonicalHead(w: World, v: Service): Option<Snapshot> {
    if v.store.head.IsEmpty() then None
    else
      match Find(v.live, (m: Materialization) => m.revision == v.store.head && m.quarantine.Promoted?)
      case Some(i) => Some(v.live[i].state)
      case None => StoredHead(w, v.store)
  }

  function StoredHead(w: World, s: Store): Option<Snapshot> {
    match Deserialize(w.layout, Materialize(s, s.head)) case Success(x) => Some(x) case Failure(_) => None
  }

  predicate Authenticated(w: World, v: Service, actor: Actor) {
    var head := CanonicalHead(w, v);
    head.Some? && Verifies(actor, head.value)
  }

  // create_cognition

  function Enter(w: World, v: Service, bytes: Bytes, revision: RevisionId, quarantine: Quarantine): (Service, Reply) {
    if bytes == [] then (v, Opened(0, Some(Truncated)))
    else
      match Deserialize(w.layout, bytes)
      case Failure(kind) => (v, Opened(0, Some(kind)))
      case Success(s) =>
        var epoch := (v.epoch + 1) % WORD;
        var m := Materialization(v.nextAddress, s, SnapshotDigest(w, bytes), revision, epoch, quarantine);
        (v.(live := v.live + [m], epoch := epoch, nextAddress := v.nextAddress + 1), Opened(m.address, None))
  }

  function OpenRemoteStep(w: World, v: Service, revision: RevisionId): (Service, Reply) {
    var id := if revision.IsEmpty() then v.store.head else revision;
    var bytes := Materialize(v.store, id);
    if bytes == [] && !id.IsEmpty() then (v, Opened(0, Some(Truncated)))
    else if bytes == [] then
      var founding := Serialize(w.layout, w.genesis);
      var (store, receipt) := CompareAndSwap(w, v.store, NO_REVISION, founding);
      Enter(w, v.(store := store), founding, if receipt.Committed? then receipt.revision else NO_REVISION, Promoted)
    else Enter(w, v, bytes, id, Promoted)
  }

  function OpenArtifactStep(w: World, v: Service, bytes: Bytes, expected: Str): (Service, Reply) {
    if expected != [] && ContentId(w, bytes) != expected then (v, Opened(0, Some(DigestMismatch)))
    else Enter(w, v, bytes, NO_REVISION, Isolated)
  }

  // acquire_grant, release_grant

  function GrantName(generation: nat): Str { Ascii("grant-") + Decimal(generation) }

  function AcquireStep(w: World, v: Service, actor: Actor, mode: WorkMode): (Service, Reply) {
    if v.activeGrant != [] || !Authenticated(w, v, actor) then (v, Granted(None))
    else
      var grant := NextGrant(v, actor, mode);
      (v.(activeGrant := grant.id, grantActor := actor, generation := (v.generation + 1) % WORD), Granted(Some(grant)))
  }

  /** The grant the next lease comes with. */
  function NextGrant(v: Service, actor: Actor, mode: WorkMode): Grant {
    Grant(GrantName((v.generation + 1) % WORD), v.epoch, actor.principal, mode)
  }

  function ReleaseStep(v: Service, grant: Grant): (Service, Reply) {
    (if v.activeGrant == grant.id then v.(activeGrant := [], grantActor := NO_ACTOR) else v, Released)
  }

  // write_to_cognition

  function KeyDigest(w: World, t: ContextTransaction): Str { if t.idempotencyKey == [] then [] else RequestDigest(w,
      t) }

  function Remember(v: Service, t: ContextTransaction, digest: Str, outcome: Verdict): Service {
    if t.idempotencyKey == [] then v else v.(receipts := v.receipts[t.idempotencyKey := Receipt(digest, outcome)])
  }

  /** No answer is recorded for the key. */
  predicate FreshKey(v: Service, t: ContextTransaction) { t.idempotencyKey == [] || t.idempotencyKey !in v.receipts }

  /** How a write is decided before it reaches the store: answered, or to be stored from live entry `entry`. */
  datatype Ruling = Answer(verdict: Verdict) | Commit(entry: nat)

  /** The recorded answer, for the request it was recorded for. */
  function Recorded(w: World, v: Service, t: ContextTransaction): Verdict
    requires !FreshKey(v, t)
  {
    var receipt := v.receipts[t.idempotencyKey];
    if receipt.digest != KeyDigest(w, t) then Refuse(KeyConflict) else receipt.outcome
  }

  /** The key resolves first, before the handle and the grant are looked at. */
  function WriteRuling(w: World, v: Service, handle: Handle, t: ContextTransaction, grant: Grant): (r: Ruling)
    ensures r.Commit? ==> FindLive(v, handle) == Some(r.entry) && r.entry < |v.live|
  {
    if !FreshKey(v, t) then Answer(Recorded(w, v, t))
    else
      match FindLive(v, handle)
      case None => Answer(Refuse(StaleBase))
      case Some(i) =>
        if !v.live[i].quarantine.Promoted? then Answer(Refuse(GovernanceDenied))
        else if v.activeGrant == [] || v.activeGrant != grant.id then Answer(Refuse(GrantRefused))
        else
          match Judge(w, v.live[i], CanonicalHead(w, v), v.grantActor, t, grant.mode)
          case Some(verdict) => Answer(verdict)
          case None => Ruling.Commit(i)
  }

  /** The gates behind the lease, for live entry `m` under the governance of the canonical head; None lets the
      transaction through to the store. */
  function Judge(w: World, m: Materialization, head: Option<Snapshot>, actor: Actor, t: ContextTransaction,
      mode: WorkMode): Option<Verdict> {
    if head.None? || !Verifies(actor, head.value) then Some(Refuse(UnverifiedActor))
    else if mode.Unattended? && t.operations != [] then Some(Refuse(UnattendedMutation))
    else if t.base != m.revision then Some(Refuse(StaleBase))
    else if t.operations == [] then Some(Verdict(Applied, StoreDiverged, m.address))
    else
      match Admit(w, m.state, t, Writer(head.value.rootPrincipal, actor.binding))
      case Some(reason) => Some(Refuse(reason))
      case None => None
  }

  function WriteStep(w: World, v: Service, handle: Handle, t: ContextTransaction, grant: Grant,
      delivery: Delivery): (Service, Verdict)
  {
    match WriteRuling(w, v, handle, t, grant)
    case Answer(verdict) => (v, verdict)
    case Commit(i) => CommitStep(w, v, i, t, delivery)
  }

  function CommitStep(w: World, v: Service, i: nat, t: ContextTransaction, delivery: Delivery): (Service, Verdict)
    requires i < |v.live|
  {
    var m := v.live[i];
    var next := Successor(m.state, t);
    var bytes := Serialize(w.layout, next);
    var (store, receipt) := Deliver(w, v.store, m.revision, bytes, delivery);
    match receipt
    case CompareFailed => (v, Refuse(StoreDiverged))
    case OutcomeUnknown => (Remember(v.(store := store), t, KeyDigest(w, t), UNKNOWN), UNKNOWN)
    case Committed(revision) =>
      var successor := Materialization(v.nextAddress, next, SnapshotDigest(w, bytes), revision, m.epoch, m.quarantine);
      var applied := Verdict(Applied, StoreDiverged, successor.address);
      (Remember(v.(store := store, live := v.live[i := successor], nextAddress := v.nextAddress + 1), t, KeyDigest(w,
          t), applied), applied)
  }

  // retire_cognition, verify_restored, promote_authority

  function RetireStep(v: Service, handle: Handle): (Service, Reply) {
    match FindLive(v, handle)
    case None => (v, Retired(false))
    case Some(i) => (v.(live := v.live[..i] + v.live[i + 1..]), Retired(true))
  }

  /** One move of the quarantine state machine, by the root principal, on an entry in state `from`. */
  function MoveStep(w: World, v: Service, handle: Handle, actor: Actor, from: Quarantine, to: Quarantine): (Service,
      Reply) {
    if !Authenticated(w, v, actor) then (v, Moved(0))
    else
      match FindLive(v, handle)
      case None => (v, Moved(0))
      case Some(i) =>
        if v.live[i].quarantine != from then (v, Moved(0))
        else
          var m := v.live[i].(address := v.nextAddress, quarantine := to);
          (v.(live := v.live[i := m], nextAddress := v.nextAddress + 1), Moved(m.address))
  }

  // ---- runs ----

  datatype Event =
    | OpenRemote(revision: RevisionId)
    | OpenArtifact(bytes: Bytes, expected: Str)
    | Acquire(actor: Actor, mode: WorkMode)
    | Release(grant: Grant)
    | Write(handle: Handle, txn: ContextTransaction, grant: Grant, delivery: Delivery)
    | Retire(handle: Handle)
    | VerifyRestored(handle: Handle, actor: Actor)
    | PromoteAuthority(handle: Handle, actor: Actor)

  datatype Reply =
    | Opened(handle: Handle, error: Option<ErrorKind>)
    | Granted(grant: Option<Grant>)
    | Released
    | Written(verdict: Verdict)
    | Retired(found: bool)
    | Moved(handle: Handle)

  function Step(w: World, v: Service, e: Event): (Service, Reply) {
    match e
    case OpenRemote(revision) => OpenRemoteStep(w, v, revision)
    case OpenArtifact(bytes, expected) => OpenArtifactStep(w, v, bytes, expected)
    case Acquire(actor, mode) => AcquireStep(w, v, actor, mode)
    case Release(grant) => ReleaseStep(v, grant)
    case Write(handle, t, grant, delivery) =>
      var (u, verdict) := WriteStep(w, v, handle, t, grant, delivery);
      (u, Written(verdict))
    case Retire(handle) => RetireStep(v, handle)
    case VerifyRestored(handle, actor) => MoveStep(w, v, handle, actor, Isolated, Quarantine.Verified)
    case PromoteAuthority(handle, actor) => MoveStep(w, v, handle, actor, AuthorityPending, Promoted)
  }

  /** The service after a sequence of calls from the start. */
  function Run(w: World, es: seq<Event>): Service {
    if es == [] then START else Step(w, Run(w, es[..|es| - 1]), es[|es| - 1]).0
  }

  /** The grant a call comes with. */
  function Carried(e: Event): Option<Grant> {
    match e case Release(grant) => Some(grant) case Write(_, _, grant, _) => Some(grant) case _ => None
  }

  predicate GrantedAt(w: World, es: seq<Event>, k: nat, grant: Grant)
    requires k < |es|
  {
    Step(w, Run(w, es[..k]), es[k]).1 == Granted(Some(grant))
  }

  ghost predicate Held(w: World, es: seq<Event>, grant: Grant) {
    exists k :: 0 <= k < |es| && GrantedAt(w, es, k, grant)
  }

  ghost predicate CarriesHeld(w: World, es: seq<Event>, k: nat)
    requires k < |es|
  {
    Carried(es[k]).Some? ==> Held(w, es[..k], Carried(es[k]).value)
  }

  /** Grants cannot be made by callers: every call comes with one that an earlier lease of the run was given. */
  ghost predicate AllHeld(w: World, es: seq<Event>) { forall k :: 0 <= k < |es| ==> CarriesHeld(w, es, k) }
}
