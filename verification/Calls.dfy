/** What each call answers and what it leaves behind, on its arguments and the fields of the service
    (create_cognition, write_to_cognition, release_grant and retire_cognition in src/persistence.cpp). */
module Calls {
  import opened Prelude
  import opened Wire
  import opened Cognition
  import opened SnapshotCodecLaws
  import opened Transactions
  import opened Gates
  import opened Ledger
  import opened Service
  import opened Genesis
  import opened Reachable
  import Verdicts

  // ---- opening an artifact ----

  /** The entry an image is opened as: at the next address and epoch, holding the restored snapshot. */
  predicate OpenedAs(w: World, v: Service, u: Service, bytes: Bytes, revision: RevisionId, quarantine: Quarantine) {
    && |u.live| == |v.live| + 1 && u.live[..|v.live|] == v.live
    && u == v.(live := u.live, epoch := (v.epoch + 1) % 0x1_0000_0000_0000_0000, nextAddress := v.nextAddress + 1)
    && var m := u.live[|v.live|];
       && m.address == v.nextAddress && Deserialize(w.layout, bytes) == Success(m.state)
       && m.digest == Ascii("snap-") + w.content(bytes) && m.revision == revision && m.epoch == u.epoch
       && m.quarantine == quarantine
  }

  /** The artifact is the one the caller expects, or the caller names none. */
  predicate Expected(w: World, bytes: Bytes, expected: Str) {
    expected == [] || expected == Ascii("draft-") + w.content(bytes)
  }

  lemma EnterExactly(w: World, v: Service, bytes: Bytes, revision: RevisionId, quarantine: Quarantine)
    ensures var (u, reply) := Enter(w, v, bytes, revision, quarantine);
      && (reply == Opened(v.nextAddress, None) <==> Deserialize(w.layout, bytes).Success?)
      && (Deserialize(w.layout, bytes).Success? ==> OpenedAs(w, v, u, bytes, revision, quarantine))
      && (Deserialize(w.layout, bytes).Failure? ==> (u, reply) == (v, Opened(0, Some(Deserialize(w.layout, bytes).error))))
  {
    EmptyIsTruncated(w);
    hide Deserialize;
  }

  lemma EmptyIsTruncated(w: World)
    ensures Deserialize(w.layout, []) == Failure(Truncated)
  {
  }

  /** An artifact that is not the expected one is refused and changes nothing; the expected one opens exactly when it
      can be restored, isolated and without storage identity. */
  lemma ArtifactOpensExactly(w: World, v: Service, bytes: Bytes, expected: Str)
    ensures var (u, reply) := Step(w, v, OpenArtifact(bytes, expected));
      if !Expected(w, bytes, expected) then (u, reply) == (v, Opened(0, Some(DigestMismatch)))
      else
        match Deserialize(w.layout, bytes)
        case Success(_) => reply == Opened(v.nextAddress, None) && OpenedAs(w, v, u, bytes, NO_REVISION, Isolated)
        case Failure(kind) => (u, reply) == (v, Opened(0, Some(kind)))
  {
    hide Deserialize, Enter, OpenedAs;
    EnterExactly(w, v, bytes, NO_REVISION, Isolated);
  }

  /** An artifact expected by the content id of `b` opens only if it is `b`. */
  lemma OnlyTheExpectedOpens(w: World, v: Service, bytes: Bytes, b: Bytes)
    requires CollisionFree(w) && |bytes| <= HASHABLE && |b| <= HASHABLE && v.nextAddress > 0
    ensures Step(w, v, OpenArtifact(bytes, ContentId(w, b))).0 != v ==> bytes == b
    ensures Step(w, v, OpenArtifact(bytes, ContentId(w, b))).1 != Opened(0, Some(DigestMismatch)) ==> bytes == b
  {
    hide CollisionFree, Deserialize, OpenedAs, Enter;
    ArtifactOpensExactly(w, v, bytes, ContentId(w, b));
    assert ContentId(w, b) != [];
    if ContentId(w, bytes) == ContentId(w, b) {
      ContentIdInjective(w, bytes, b);
    }
  }

  // ---- giving back ----

  /** Only the grant that is active ends the lease; any other changes nothing. */
  lemma ReleaseEndsExactlyItsOwn(w: World, v: Service, grant: Grant)
    ensures var (u, reply) := Step(w, v, Release(grant));
      && reply == Released
      && (v.activeGrant == grant.id ==> u == v.(activeGrant := [], grantActor := NO_ACTOR))
      && (v.activeGrant != grant.id ==> u == v)
  {
  }

  predicate LiveAt(v: Service, i: nat, handle: Handle) {
    i < |v.live| && v.live[i].address == handle && forall j :: 0 <= j < i ==> v.live[j].address != handle
  }

  /** Retiring takes out the entry at the handle and nothing else. */
  lemma RetireTakesExactlyOne(w: World, v: Service, handle: Handle)
    ensures var (u, reply) := Step(w, v, Retire(handle));
      && (reply == Retired(false) <==> forall i :: 0 <= i < |v.live| ==> v.live[i].address != handle)
      && reply in {Retired(false), Retired(true)}
      && (reply == Retired(false) ==> u == v)
      && (forall i: nat :: LiveAt(v, i, handle) ==>
            && u == v.(live := u.live) && |u.live| == |v.live| - 1
            && (forall j :: 0 <= j < i ==> u.live[j] == v.live[j])
            && (forall j :: i < j < |v.live| ==> u.live[j - 1] == v.live[j]))
  {
    forall i: nat | LiveAt(v, i, handle) ensures FindLive(v, handle) == Some(i) {
      LiveIsFound(v, i, handle);
    }
  }

  lemma LiveIsFound(v: Service, i: nat, handle: Handle)
    requires LiveAt(v, i, handle)
    ensures FindLive(v, handle) == Some(i)
  {
    var at := FindLive(v, handle);
    assert at.Some?;
  }

  // ---- writing ----

  /** The lease the call comes with is the active one. */
  predicate Leased(v: Service, grant: Grant) { v.activeGrant == grant.id != [] }

  /** The lease holder is complete and the root principal of the canonical head. */
  predicate HolderVerified(w: World, v: Service) {
    && CanonicalHead(w, v).Some? && v.grantActor.principal == CanonicalHead(w, v).value.rootPrincipal
    && v.grantActor.principal != [] && v.grantActor.binding != [] && v.grantActor.servingModel != []
  }

  predicate MayMutate(t: ContextTransaction, grant: Grant) { grant.mode.SupervisedForeground? || t.operations == [] }

  /** What gates 6 to 9 say to a write from entry `i`. */
  function Judged(w: World, v: Service, i: nat, t: ContextTransaction): Option<RefusalReason>
    requires i < |v.live| && CanonicalHead(w, v).Some?
  {
    Admit(w, v.live[i].state, t, Writer(CanonicalHead(w, v).value.rootPrincipal, v.grantActor.binding))
  }

  lemma GateReasons(w: World, s: Snapshot, t: ContextTransaction, a: Writer)
    ensures Admit(w, s, t, a) in {None, Some(GovernanceDenied), Some(HandoffMissing), Some(HandoffInvalid),
      Some(ConflictUnresolved), Some(InvariantFailed)}
  {
    hide Admit, Verdicts.Permitted, Verdicts.Unblocked, Verdicts.RulesHold, Verdicts.BoundaryHolds, ApplyAll,
      Verdicts.PolicyHolds, Verdicts.Governed, Verdicts.EvidenceComplete;
    Verdicts.AnswersExactly(w, s, t, a);
    if !Verdicts.Permitted(w, s, t, a) {
      var k: nat :| Verdicts.FirstDenied(w, s, t, a, k, Admit(w, s, t, a).value);
    }
  }

  /** A write to a handle that is not live is refused as stale. */
  lemma UnknownHandleIsStale(w: World, v: Service, handle: Handle, t: ContextTransaction, grant: Grant,
      delivery: Delivery)
    requires FreshKey(v, t) && forall i :: 0 <= i < |v.live| ==> v.live[i].address != handle
    ensures Step(w, v, Write(handle, t, grant, delivery)) == (v, Written(Verdict(Refused, StaleBase, 0)))
  {
    hide CommitStep, Judge, CanonicalHead;
  }

  /** The answer to a write with a fresh key from entry `i`, gate by gate: each refusal exactly when its gate is the
      first that does not hold. A turn without operations is answered with the entry itself. */
  lemma WriteAnswersExactly(w: World, v: Service, i: nat, handle: Handle, t: ContextTransaction, grant: Grant,
      delivery: Delivery)
    requires FreshKey(v, t) && LiveAt(v, i, handle)
    ensures var (u, reply) := Step(w, v, Write(handle, t, grant, delivery));
      && (!v.live[i].quarantine.Promoted? ==> (u, reply) == (v, Written(Verdict(Refused, GovernanceDenied, 0))))
      && (v.live[i].quarantine.Promoted? ==>
            if !Leased(v, grant) then (u, reply) == (v, Written(Verdict(Refused, GrantRefused, 0)))
            else if !HolderVerified(w, v) then (u, reply) == (v, Written(Verdict(Refused, UnverifiedActor, 0)))
            else if !MayMutate(t, grant) then (u, reply) == (v, Written(Verdict(Refused, UnattendedMutation, 0)))
            else if t.base != v.live[i].revision then (u, reply) == (v, Written(Verdict(Refused, StaleBase, 0)))
            else if t.operations == [] then (u, reply) == (v, Written(Verdict(Applied, StoreDiverged, handle)))
            else if Judged(w, v, i, t).Some? then (u, reply) == (v, Written(Verdict(Refused, Judged(w, v, i, t).value,
                0)))
            else reply.Written? && (u, reply.verdict) == CommitStep(w, v, i, t, delivery))
  {
    hide CommitStep, Admit, CanonicalHead, FindLive;
    LiveIsFound(v, i, handle);
  }

  /** Refusals name their gate: these reasons are given by one gate each. */
  lemma ReasonsNameTheirGate(w: World, v: Service, i: nat, handle: Handle, t: ContextTransaction, grant: Grant,
      delivery: Delivery)
    requires FreshKey(v, t) && LiveAt(v, i, handle) && v.live[i].quarantine.Promoted?
    ensures var reply := Step(w, v, Write(handle, t, grant, delivery)).1;
      && reply.Written? && var verdict := reply.verdict;
      && (verdict == Refuse(GrantRefused) <==> !Leased(v, grant))
      && (verdict == Refuse(UnverifiedActor) <==> Leased(v, grant) && !HolderVerified(w, v))
      && (verdict == Refuse(UnattendedMutation) <==> Leased(v, grant) && HolderVerified(w, v) && !MayMutate(t, grant))
      && (verdict == Refuse(StaleBase) <==>
            Leased(v, grant) && HolderVerified(w, v) && MayMutate(t, grant) && t.base != v.live[i].revision)
  {
    WriteAnswersExactly(w, v, i, handle, t, grant, delivery);
    hide Step, Admit, Leased, HolderVerified, MayMutate, LiveAt, Deliver, Serialize, Successor, SnapshotDigest,
        Remember;
    if CanonicalHead(w, v).Some? {
      GateReasons(w, v.live[i].state, t, Writer(CanonicalHead(w, v).value.rootPrincipal, v.grantActor.binding));
    }
  }

  // ---- a commit ----

  /** The store after an image was sent to it on a base: nothing for an image it holds already, else one revision more,
      named by the chained hash, which is the new head. */
  predicate StoreTakes(w: World, s: Store, base: RevisionId, bytes: Bytes, u: Store) {
    if s.revisions != [] && s.revisions[|s.revisions| - 1].1 == bytes then u == s
    else
      && |u.revisions| == |s.revisions| + 1 && u.revisions[..|s.revisions|] == s.revisions
      && u.revisions[|s.revisions|] == (u.head, bytes) && u.head.value == Ascii("rev-") + w.chain(base.value, bytes)
  }

  /** The answer is recorded under the key, when there is one, with the digest of the request. */
  predicate Records(w: World, before: map<Str, Receipt>, t: ContextTransaction, verdict: Verdict, after: map<Str,
      Receipt>) {
    after == if t.idempotencyKey == [] then before else before[t.idempotencyKey := Receipt(RequestDigest(w, t),
        verdict)]
  }

  /** Entry `i` has made way for its successor, at the next address, of the revision the store is at; the other entries
      stay. */
  predicate SucceededAt(w: World, v: Service, u: Service, i: nat, next: Snapshot)
    requires i < |v.live|
  {
    && |u.live| == |v.live| && (forall j :: 0 <= j < |v.live| && j != i ==> u.live[j] == v.live[j])
    && u.live[i] == Materialization(v.nextAddress, next, Ascii("snap-") + w.content(Serialize(w.layout, next)),
        u.store.head,
         v.live[i].epoch, v.live[i].quarantine)
  }

  /** The caller knows the head, or there is none. */
  predicate UpToDate(s: Store, base: RevisionId) { s.revisions == [] || base == s.head }

  /** What a write that passed all gates leaves behind and is answered, for each way the call to the store can go. */
  lemma CommitLeavesExactly(w: World, v: Service, i: nat, t: ContextTransaction, delivery: Delivery)
    requires i < |v.live|
    ensures var (u, verdict) := CommitStep(w, v, i, t, delivery);
      var next := Successor(v.live[i].state, t);
      var bytes := Serialize(w.layout, next);
      if delivery.Acknowledged? then
        if !UpToDate(v.store, v.live[i].revision) then (u, verdict) == (v, Verdict(Refused, StoreDiverged, 0))
        else
          && verdict == Verdict(Applied, StoreDiverged, v.nextAddress)
          && StoreTakes(w, v.store, v.live[i].revision, bytes, u.store) && SucceededAt(w, v, u, i, next)
          && Records(w, v.receipts, t, verdict, u.receipts)
          && u == v.(store := u.store, live := u.live, receipts := u.receipts, nextAddress := v.nextAddress + 1)
      else
        && verdict == Verdict(Unknown, OutcomeUnresolved, 0) && Records(w, v.receipts, t, verdict, u.receipts)
        && u == v.(store := u.store, receipts := u.receipts)
        && if delivery.AckLost? && UpToDate(v.store, v.live[i].revision)
           then StoreTakes(w, v.store, v.live[i].revision, bytes, u.store) else u.store == v.store
  {
    hide Serialize, Successor, RequestDigest, Ascii;
  }

  // ---- a lost acknowledgement ----

  /** The caller cannot tell a commit whose acknowledgement was lost from a call that never arrived: the answer is the
      same, and so is everything in the service but the store. */
  lemma LossIsIndistinguishable(w: World, v: Service, handle: Handle, t: ContextTransaction, grant: Grant)
    ensures var (u, reply) := Step(w, v, Write(handle, t, grant, AckLost));
      var (x, other) := Step(w, v, Write(handle, t, grant, NeverArrived));
      && reply == other && x.store == v.store && u == x.(store := u.store)
  {
    hide WriteRuling, CompareAndSwap, Serialize, Successor, SnapshotDigest, KeyDigest;
  }

  // ---- opening a revision ----

  /** A revision that was never stored is not found, and nothing changes. */
  lemma UnknownRevisionIsNotFound(w: World, v: Service, revision: RevisionId)
    requires !revision.IsEmpty() && forall k :: 0 <= k < |v.store.revisions| ==> v.store.revisions[k].0 != revision
    ensures Step(w, v, OpenRemote(revision)) == (v, Opened(0, Some(Truncated)))
  {
  }

  /** Which revision a caller asks for: the one named, or the head. */
  predicate AsksFor(v: Service, revision: RevisionId, k: nat) {
    && k < |v.store.revisions|
    && if revision.IsEmpty() then k == |v.store.revisions| - 1 else revision == v.store.revisions[k].0
  }

  /** Every stored revision can be opened for good, and holds the founding snapshot with the transactions up to it, as
      the format keeps them, unless that is over the limits of the reader. */
  lemma RevisionOpensExactly(w: World, v: Service, log: seq<Commit>, revision: RevisionId, k: nat)
    requires Sane(w) && Inv(w, v, log) && AsksFor(v, revision, k)
    ensures k <= |log|
    ensures var (u, reply) := Step(w, v, OpenRemote(revision));
      var s := Replay(w.genesis, log[..k]);
      if WithinLimits(w.layout, s) then
        && reply == Opened(v.nextAddress, None) && |u.live| == |v.live| + 1
        && u.live[|v.live|].state == Canon(s)
        && OpenedAs(w, v, u, Serialize(w.layout, s), v.store.revisions[k].0, Promoted)
      else (u, reply) == (v, Opened(0, Some(ResourceAbuse)))
  {
    hide CollisionFree, Founding, Replay, Canon, Serialize, Deserialize, Sized, WithinLimits, Materialize, LiveHolds,
      KeysHold, IsLedger, OpenedAs, Enter;
    MaterializesTo(w, v.store, log, k);
    RevisionNotEmpty(w, v.store, log, k);
    assert SizedAt(w, log, k);
    var s := Replay(w.genesis, log[..k]);
    RestoreOutcome(w.layout, s);
    NotEmptyImage(w, s);
    EnterExactly(w, v, Serialize(w.layout, s), v.store.revisions[k].0, Promoted);
    OpenedState(w, v, Step(w, v, OpenRemote(revision)).0, Serialize(w.layout, s), v.store.revisions[k].0, Promoted);
  }

  lemma NotEmptyImage(w: World, s: Snapshot)
    ensures Serialize(w.layout, s) != []
  {
  }

  lemma OpenedState(w: World, v: Service, u: Service, bytes: Bytes, revision: RevisionId, quarantine: Quarantine)
    ensures OpenedAs(w, v, u, bytes, revision, quarantine) ==>
      u.store == v.store && |u.live| == |v.live| + 1 && Deserialize(w.layout, bytes) == Success(u.live[|v.live|].state)
  {
    hide Deserialize;
  }

  /** The first opening of an empty store founds it: with exactly the image of the founding snapshot. */
  lemma FoundsExactly(w: World, v: Service, log: seq<Commit>)
    requires Sane(w) && Inv(w, v, log) && v.store.revisions == []
    ensures var (u, reply) := Step(w, v, OpenRemote(NO_REVISION));
      var bytes := Serialize(w.layout, w.genesis);
      && reply == Opened(v.nextAddress, None) && StoreTakes(w, v.store, NO_REVISION, bytes, u.store)
      && OpenedAs(w, v.(store := u.store), u, bytes, u.store.head, Promoted) && u.live[|v.live|].state == w.genesis
  {
    hide CollisionFree, Canon, Serialize, Deserialize, Sized, LiveHolds, KeysHold, IsLedger, OpenedAs, Enter, Ascii;
    RestoreOutcome(w.layout, w.genesis);
    FoundingIsSound(w.genesis);
    NotEmptyImage(w, w.genesis);
    var bytes := Serialize(w.layout, w.genesis);
    var u := Step(w, v, OpenRemote(NO_REVISION)).0;
    var store := CompareAndSwap(w, v.store, NO_REVISION, bytes).0;
    EnterExactly(w, v.(store := store), bytes, store.head, Promoted);
    assert Step(w, v, OpenRemote(NO_REVISION)) == Enter(w, v.(store := store), bytes, store.head, Promoted);
    OpenedState(w, v.(store := store), u, bytes, store.head, Promoted);
  }
}
