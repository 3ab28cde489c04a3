/** The store and the service as objects that are updated in place, each method proved to take the step the state
    machine prescribes (MemoryStore and QivenContext in src/persistence.cpp). */
module QivenContext {
  import opened Prelude
  import opened Wire
  import opened Cognition
  import opened SnapshotLayout
  import opened SnapshotCodecLaws
  import opened SnapshotReader
  import opened SnapshotWriter
  import opened Text
  import opened Transactions
  import opened Gates
  import opened GateChecks
  import opened DigestWriter
  import opened Service
  import S = Service

  class MemoryStore {
    var revisions: seq<(RevisionId, Bytes)>
    var head: RevisionId

    constructor ()
      ensures Contents() == EMPTY_STORE
    {
      revisions := [];
      head := NO_REVISION;
    }

    function Contents(): Store
      reads this
    {
      Store(revisions, head)
    }

    method CompareAndSwap(w: World, base: RevisionId, bytes: Bytes) returns (receipt: StoreReceipt)
      modifies this
      ensures (Contents(), receipt) == S.CompareAndSwap(w, old(Contents()), base, bytes)
    {
      if revisions != [] && base != head {
        return StoreReceipt.CompareFailed;
      }
      if revisions != [] && revisions[|revisions| - 1].1 == bytes {
        return Committed(head);
      }
      var id := Mint(w, base, bytes);
      revisions := revisions + [(id, bytes)];
      head := id;
      return Committed(id);
    }

    method Materialize(id: RevisionId) returns (bytes: Bytes)
      ensures bytes == S.Materialize(Contents(), id)
    {
      var at := Search(revisions, (r: (RevisionId, Bytes)) => r.0 == id);
      bytes := if at.Some? then revisions[at.value].1 else [];
    }

    /** Whether the revision is stored. */
    method Verify(id: RevisionId) returns (stored: bool)
      ensures stored <==> exists k :: 0 <= k < |revisions| && revisions[k].0 == id
    {
      var at := Search(revisions, (r: (RevisionId, Bytes)) => r.0 == id);
      stored := at.Some?;
    }
  }

  lemma FailedLeavesStore(w: World, s: Store, base: RevisionId, bytes: Bytes, delivery: Delivery)
    ensures Deliver(w, s, base, bytes, delivery).1.CompareFailed? ==> Deliver(w, s, base, bytes, delivery).0 == s
  {
  }

  /** The service. A materialization is immutable; the registry holds it by value with the address that stands for
      its identity. */
  class Context {
    const w: World
    const store: MemoryStore
    var live: seq<Materialization>
    var activeGrant: Str
    var grantActor: Actor
    var receipts: map<Str, Receipt>
    var epoch: nat
    var generation: nat
    var nextAddress: nat

    constructor (w: World)
      requires w.layout == SnapshotFormat()
      ensures this.w == w && Valid() && fresh(store) && State() == START
    {
      hide SnapshotFormat;
      this.w := w;
      store := new MemoryStore();
      live, activeGrant, grantActor, receipts, epoch, generation, nextAddress := [], [], NO_ACTOR, map[], 0, 0, 1;
    }

    ghost predicate Valid()
    {
      w.layout == SnapshotFormat()
    }

    function State(): Service
      reads this, store
    {
      Service(store.Contents(), live, activeGrant, grantActor, receipts, epoch, generation, nextAddress)
    }

    /** serializeImpl */
    method Image(s: Snapshot) returns (bytes: Bytes)
      requires Valid()
      ensures bytes == Serialize(w.layout, s)
    {
      hide SnapshotFormat;
      bytes := SerializeImpl(s);
    }

    /** deserializeImpl */
    method Restore(bytes: Bytes) returns (r: Result<Snapshot, ErrorKind>)
      requires Valid()
      ensures r == Deserialize(w.layout, bytes)
    {
      hide SnapshotFormat;
      var result := DeserializeImpl(bytes);
      r := if result.ok then Success(result.snapshot) else Failure(result.error);
    }

    method FindEntry(handle: Handle) returns (at: Option<nat>)
      ensures at == FindLive(State(), handle) && (at.Some? ==> at.value < |live|)
    {
      at := Search(live, (m: Materialization) => m.address == handle);
    }

    /** The live canonical materialization, else the stored head restored. */
    method CanonicalHead() returns (head: Option<Snapshot>)
      requires Valid()
      ensures head == S.CanonicalHead(w, State())
    {
      hide Valid, Deserialize, S.Materialize;
      var id := store.head;
      if id.IsEmpty() {
        return None;
      }
      var at := Search(live, (m: Materialization) => m.revision == id && m.quarantine.Promoted?);
      if at.Some? {
        return Some(live[at.value].state);
      }
      var bytes := store.Materialize(id);
      var parsed := Restore(bytes);
      match parsed
      case Success(s) => return Some(s);
      case Failure(_) => return None;
    }

    method Authenticate(actor: Actor) returns (ok: bool)
      requires Valid()
      ensures ok == Authenticated(w, State(), actor)
    {
      hide Valid, S.CanonicalHead;
      var head := CanonicalHead();
      ok := head.Some? && Verifies(actor, head.value);
    }

    /** Parses the bytes and registers the materialization; on refusal nothing changes. */
    method Register(bytes: Bytes, revision: RevisionId, quarantine: Quarantine) returns (handle: Handle,
        error: Option<ErrorKind>)
      requires Valid()
      modifies `live, `epoch, `nextAddress
      ensures (State(), Opened(handle, error)) == Enter(w, old(State()), bytes, revision, quarantine)
    {
      hide Valid, Deserialize, SnapshotDigest;
      if bytes == [] {
        return 0, Some(Truncated);
      }
      var parsed := Restore(bytes);
      match parsed
      case Failure(kind) => return 0, Some(kind);
      case Success(s) =>
        epoch := (epoch + 1) % WORD;
        live := live + [Materialization(nextAddress, s, SnapshotDigest(w, bytes), revision, epoch, quarantine)];
        nextAddress := nextAddress + 1;
        return nextAddress - 1, None;
    }

    method CreateFromRemote(revision: RevisionId) returns (handle: Handle, error: Option<ErrorKind>)
      requires Valid()
      modifies this, store
      ensures (State(), Opened(handle, error)) == OpenRemoteStep(w, old(State()), revision)
    {
      hide Valid, Enter, Serialize, S.Materialize, S.CompareAndSwap;
      var id := if revision.IsEmpty() then store.head else revision;
      var bytes := store.Materialize(id);
      if bytes == [] && !id.IsEmpty() {
        return 0, Some(Truncated);
      }
      if bytes == [] {
        bytes := Image(w.genesis);
        var receipt := store.CompareAndSwap(w, NO_REVISION, bytes);
        id := if receipt.Committed? then receipt.revision else NO_REVISION;
      }
      handle, error := Register(bytes, id, Promoted);
    }

    method CreateFromArtifact(bytes: Bytes, expected: Str) returns (handle: Handle, error: Option<ErrorKind>)
      requires Valid()
      modifies this
      ensures (State(), Opened(handle, error)) == OpenArtifactStep(w, old(State()), bytes, expected)
    {
      hide Valid, Enter, ContentId;
      if expected != [] && ContentId(w, bytes) != expected {
        return 0, Some(DigestMismatch);
      }
      handle, error := Register(bytes, NO_REVISION, Isolated);
    }

    method AcquireGrant(actor: Actor, mode: WorkMode) returns (grant: Option<Grant>)
      requires Valid()
      modifies this
      ensures (State(), Granted(grant)) == AcquireStep(w, old(State()), actor, mode)
    {
      hide Valid, Authenticated, GrantName;
      if activeGrant != [] {
        return None;
      }
      var ok := Authenticate(actor);
      if !ok {
        return None;
      }
      generation := (generation + 1) % WORD;
      activeGrant := GrantName(generation);
      grantActor := actor;
      return Some(Grant(activeGrant, epoch, actor.principal, mode));
    }

    method ReleaseGrant(grant: Grant)
      modifies this
      ensures State() == ReleaseStep(old(State()), grant).0
    {
      if activeGrant == grant.id {
        activeGrant := [];
        grantActor := NO_ACTOR;
      }
    }

    method RememberOutcome(t: ContextTransaction, digest: Str, outcome: Verdict)
      modifies `receipts
      ensures State() == Remember(old(State()), t, digest, outcome)
    {
      if t.idempotencyKey != [] {
        receipts := receipts[t.idempotencyKey := Receipt(digest, outcome)];
      }
    }

    /** The gates behind the lease; None lets the transaction through, with the successor it builds. */
    method Gate(i: nat, t: ContextTransaction, mode: WorkMode) returns (verdict: Option<Verdict>, next: Snapshot)
      requires Valid() && i < |live|
      ensures verdict == Judge(w, live[i], S.CanonicalHead(w, State()), grantActor, t, mode)
      ensures verdict.None? ==> next == Successor(live[i].state, t)
    {
      hide Valid, S.CanonicalHead, Admit, Successor;
      next := live[i].state;
      var head := CanonicalHead();
      if head.None? || !Verifies(grantActor, head.value) {
        return Some(Refuse(UnverifiedActor)), next;
      }
      if mode.Unattended? && t.operations != [] {
        return Some(Refuse(UnattendedMutation)), next;
      }
      if t.base != live[i].revision {
        return Some(Refuse(StaleBase)), next;
      }
      if t.operations == [] {
        return Some(Verdict(Applied, StoreDiverged, live[i].address)), next;
      }
      var refusal;
      refusal, next := CheckAll(w, live[i].state, t, Writer(head.value.rootPrincipal, grantActor.binding));
      verdict := match refusal case Some(reason) => Some(Refuse(reason)) case None => None;
    }

    /** Sends the image to the store; the acknowledgement comes back as `delivery` has it. */
    method Send(base: RevisionId, bytes: Bytes, delivery: Delivery) returns (receipt: StoreReceipt)
      modifies store
      ensures (store.Contents(), receipt) == Deliver(w, old(store.Contents()), base, bytes, delivery)
    {
      if delivery.NeverArrived? {
        return OutcomeUnknown;
      }
      receipt := store.CompareAndSwap(w, base, bytes);
      if delivery.AckLost? {
        receipt := OutcomeUnknown;
      }
    }

    method Commit(i: nat, t: ContextTransaction, digest: Str, next: Snapshot,
        delivery: Delivery) returns (verdict: Verdict)
      requires Valid() && i < |live| && next == Successor(live[i].state, t) && digest == KeyDigest(w, t)
      modifies this, store
      ensures (State(), verdict) == CommitStep(w, old(State()), i, t, delivery)
    {
      hide Valid, Deliver, Serialize, Successor, KeyDigest, SnapshotDigest, Remember;
      var m := live[i];
      var bytes := Image(next);
      var receipt := Send(m.revision, bytes, delivery);
      match receipt
      case CompareFailed =>
        FailedLeavesStore(w, old(store.Contents()), m.revision, bytes, delivery);
        verdict := Refuse(StoreDiverged);
      case OutcomeUnknown =>
        RememberOutcome(t, digest, UNKNOWN);
        verdict := UNKNOWN;
      case Committed(revision) =>
        var successor := Materialization(nextAddress, next, SnapshotDigest(w, bytes), revision, m.epoch, m.quarantine);
        live := live[i := successor];
        nextAddress := nextAddress + 1;
        verdict := Verdict(Applied, StoreDiverged, successor.address);
        RememberOutcome(t, digest, verdict);
    }

    /** The request digest a keyed transaction is remembered under. */
    method DigestRequest(t: ContextTransaction) returns (digest: Str)
      ensures digest == KeyDigest(w, t)
    {
      hide RequestImage, ContentId;
      if t.idempotencyKey == [] {
        return [];
      }
      var image := ImageOfRequest(w, t);
      digest := ContentId(w, image);
    }

    method WriteToCognition(handle: Handle, t: ContextTransaction, grant: Grant, delivery: Delivery)
      returns (verdict: Verdict)
      requires Valid()
      modifies this, store
      ensures (State(), verdict) == WriteStep(w, old(State()), handle, t, grant, delivery)
    {
      hide Valid, Judge, S.CanonicalHead, KeyDigest, CommitStep, FindLive, Successor;
      var digest := DigestRequest(t);
      if t.idempotencyKey != [] && t.idempotencyKey in receipts {
        var receipt := receipts[t.idempotencyKey];
        if receipt.digest != digest {
          return Refuse(KeyConflict);
        }
        return receipt.outcome;
      }
      var at := FindEntry(handle);
      if at.None? {
        return Refuse(StaleBase);
      }
      var i := at.value;
      if !live[i].quarantine.Promoted? {
        return Refuse(GovernanceDenied);
      }
      if activeGrant == [] || activeGrant != grant.id {
        return Refuse(GrantRefused);
      }
      var refusal, next := Gate(i, t, grant.mode);
      if refusal.Some? {
        return refusal.value;
      }
      verdict := Commit(i, t, digest, next, delivery);
    }

    method RetireCognition(handle: Handle) returns (found: bool)
      modifies this
      ensures (State(), Retired(found)) == RetireStep(old(State()), handle)
    {
      var at := FindEntry(handle);
      if at.Some? {
        live := live[..at.value] + live[at.value + 1..];
      }
      found := at.Some?;
    }

    method Move(handle: Handle, actor: Actor, from: Quarantine, to: Quarantine) returns (moved: Handle)
      requires Valid()
      modifies this
      ensures (State(), Moved(moved)) == MoveStep(w, old(State()), handle, actor, from, to)
    {
      hide Valid, Authenticated, FindLive;
      var ok := Authenticate(actor);
      if !ok {
        return 0;
      }
      var at := FindEntry(handle);
      if at.None? || live[at.value].quarantine != from {
        return 0;
      }
      moved := nextAddress;
      live := live[at.value := live[at.value].(address := moved, quarantine := to)];
      nextAddress := nextAddress + 1;
    }

    method VerifyRestored(handle: Handle, actor: Actor) returns (moved: Handle)
      requires Valid()
      modifies this
      ensures (State(), Moved(moved)) == Step(w, old(State()), Event.VerifyRestored(handle, actor))
    {
      hide Valid, MoveStep;
      moved := Move(handle, actor, Isolated, Quarantine.Verified);
    }

    method PromoteAuthority(handle: Handle, actor: Actor) returns (moved: Handle)
      requires Valid()
      modifies this
      ensures (State(), Moved(moved)) == Step(w, old(State()), Event.PromoteAuthority(handle, actor))
    {
      hide Valid, MoveStep;
      moved := Move(handle, actor, AuthorityPending, Promoted);
    }

    /** read_from_cognition: the full image of a pinned materialization. */
    method ReadFromCognition(m: Materialization) returns (bytes: Bytes)
      requires Valid()
      ensures bytes == Serialize(w.layout, m.state)
    {
      hide SnapshotFormat;
      bytes := Image(m.state);
    }
  }
}
