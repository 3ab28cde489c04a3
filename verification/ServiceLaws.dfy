/** What callers of the service may rely on over every run. */
module ServiceLaws {
  import opened Prelude
  import opened Wire
  import opened Cognition
  import SnapshotLayout
  import opened SnapshotCodecLaws
  import opened Text
  import opened Transactions
  import opened Gates
  import opened Ledger
  import opened Genesis
  import opened History
  import opened Supersession
  import opened Service
  import opened Reachable
  import opened Restore

  // ---- the head, lost updates, old revisions ----

  /** After every run the committed transactions form a ledger and the stored head is its image; so what every
      ledger keeps holds of the snapshot the head stands for. */
  lemma HeadIsTheFold(w: World, es: seq<Event>)
    requires Sane(w) && AllFit(w, es)
    ensures IsLedger(w, RunLog(w, es))
    ensures Run(w, es).store.revisions != [] ==> Materialize(Run(w, es).store, Run(w, es).store.head) == Image(w, RunLog(w, es))
    ensures Sound(Replay(w.genesis, RunLog(w, es))) && LinksSound(Replay(w.genesis, RunLog(w, es)).decisions)
  {
    hide Sane, AllFit, Run, RunLog, Image, Materialize, SizedThrough, RevisionHolds, LiveHolds, KeysHold, Sound,
        LinksSound, Replay, Admitted;
    var v, log := Run(w, es), RunLog(w, es);
    RunsHold(w, es);
    if v.store.revisions != [] {
      MaterializesTo(w, v.store, log, |log|);
      assert log[..|log|] == log;
    }
    GenesisSound(w);
    LedgerIsSound(w, log);
    LinksAreReciprocal(w, log);
  }

  lemma GenesisSound(w: World)
    requires Sane(w)
    ensures Sound(w.genesis) && w.genesis.decisions == []
  {
    FoundingIsSound(w.genesis);
  }

  /** A call that changed the stored history wrote from a promoted entry at the head, with the head as its base,
      under the active lease, and appended exactly the image of the ledger with its transaction. */
  lemma NoLostUpdate(w: World, v: Service, log: seq<Commit>, e: Event)
    requires Sane(w) && Inv(w, v, log) && e.Write? && Fits(w, v, e) && Step(w, v, e).0.store != v.store
    ensures var u := Step(w, v, e).0;
      && e.txn.base == v.store.head && v.activeGrant == e.grant.id != []
      && FindLive(v, e.handle).Some? && v.live[FindLive(v, e.handle).value].quarantine.Promoted?
      && v.live[FindLive(v, e.handle).value].revision == v.store.head
      && Logged(w, v, log, e) == log + [Commit.Commit(e.txn, v.grantActor.binding)]
      && Inv(w, u, log + [Commit.Commit(e.txn, v.grantActor.binding)])
      && |u.store.revisions| == |v.store.revisions| + 1
  {
    hide Sane, WriteRuling, CommitStep, Sized, Successor, Admitted, Replay, LiveHolds, KeysHold, RevisionHolds,
        SizedThrough, IsLedger, Admit;
    WriteKeeps(w, v, log, e);
    var ruling := WriteRuling(w, v, e.handle, e.txn, e.grant);
    if ruling.Commit? {
      RulingCleared(w, v, log, e.handle, e.txn, e.grant);
    }
  }

  /** An acknowledged, freshly executed write of some operations had the head as its base. */
  lemma AppliedMeansCurrent(w: World, v: Service, log: seq<Commit>, e: Event)
    requires Sane(w) && Inv(w, v, log) && e.Write? && Fits(w, v, e) && FreshKey(v, e.txn) && e.txn.operations != []
    requires Step(w, v, e).1.verdict.outcome.Applied?
    ensures e.txn.base == v.store.head
    ensures var u := Step(w, v, e).0;
      Inv(w, u, Logged(w, v, log, e)) && FindLive(u, Step(w, v, e).1.verdict.successor).Some?
  {
    hide Sane, Sized, Successor, Admitted, Replay, KeysHold, RevisionHolds, SizedThrough, IsLedger, Admit, Anchored,
        Serialize, Canon, KeyDigest, SnapshotDigest, CanonicalHead, Mint;
    WriteKeeps(w, v, log, e);
    var ruling := WriteRuling(w, v, e.handle, e.txn, e.grant);
    RulingCleared(w, v, log, e.handle, e.txn, e.grant);
    var u := Step(w, v, e).0;
    assert u.live[ruling.entry].address == Step(w, v, e).1.verdict.successor;
  }

  /** Once the gates are passed, an acknowledged write is applied exactly when its base is still the head; otherwise
      it is refused as diverged and nothing changes. */
  lemma AppliedExactlyAtTheHead(w: World, v: Service, log: seq<Commit>, e: Event)
    requires Sane(w) && Inv(w, v, log) && e.Write? && Fits(w, v, e) && e.delivery.Acknowledged?
    requires WriteRuling(w, v, e.handle, e.txn, e.grant).Commit?
    ensures Step(w, v, e).1.verdict.outcome.Applied? <==> e.txn.base == v.store.head
    ensures !Step(w, v, e).1.verdict.outcome.Applied? ==> Step(w, v, e) == (v, Written(Refuse(StoreDiverged)))
  {
    hide Sane, Sized, Admitted, Replay, KeysHold, StoreHolds, Admit, Anchored, Serialize, Canon, KeyDigest,
        SnapshotDigest,
      Successor, Judge, CanonicalHead, Mint, CompareAndSwap, WriteRuling;
    var i := WriteRuling(w, v, e.handle, e.txn, e.grant).entry;
    RulingCleared(w, v, log, e.handle, e.txn, e.grant);
    SwapOutcome(w, v.store, log, v.live[i], Commit.Commit(e.txn, v.grantActor.binding));
  }

  /** No call ever changes or removes a stored revision. */
  lemma HistoryIsKept(w: World, v: Service, e: Event)
    ensures v.store.revisions <= Step(w, v, e).0.store.revisions
  {
    hide Serialize, Successor, Admit, Materialize, Deserialize, Mint, CanonicalHead, Judge, KeyDigest, SnapshotDigest,
        Find;
    match e
    case OpenRemote(_) =>
    case Write(handle, t, grant, delivery) =>
      var ruling := WriteRuling(w, v, handle, t, grant);
      if ruling.Commit? {
        CommitShape(w, v, ruling.entry, t, delivery);
        hide CommitStep, SuccessorEntry;
      }
    case _ =>
  }

  /** So what an old revision materializes to never changes. */
  lemma OldRevisionsStay(w: World, v: Service, log: seq<Commit>, e: Event, k: nat)
    requires Sane(w) && Inv(w, v, log) && Fits(w, v, e) && k < |v.store.revisions|
    ensures Materialize(v.store, v.store.revisions[k].0) == Image(w, log[..k])
    ensures Materialize(Step(w, v, e).0.store, v.store.revisions[k].0) == Image(w, log[..k])
  {
    hide Sane, Fits, Step, Logged, Materialize, IsLedger, RevisionHolds, SizedThrough, LiveHolds, KeysHold;
    StepKeeps(w, v, log, e);
    HistoryIsKept(w, v, e);
    LogGrows(w, v, log, e);
    var u, longer := Step(w, v, e).0, Logged(w, v, log, e);
    assert u.store.revisions[k] == v.store.revisions[k] && longer[..k] == log[..k];
    MaterializesTo(w, v.store, log, k);
    MaterializesTo(w, u.store, longer, k);
  }

  lemma LogGrows(w: World, v: Service, log: seq<Commit>, e: Event)
    ensures log <= Logged(w, v, log, e)
  {
    hide Step;
  }

  // ---- idempotency keys ----

  /** No key commits twice in a run, however many acknowledgements the store loses. */
  lemma KeysCommitAtMostOnce(w: World, es: seq<Event>, j: nat, k: nat)
    requires Sane(w) && AllFit(w, es) && j < k < |RunLog(w, es)| && RunLog(w, es)[j].txn.idempotencyKey != []
    ensures RunLog(w, es)[j].txn.idempotencyKey != RunLog(w, es)[k].txn.idempotencyKey
  {
    hide Sane, AllFit, Run, RunLog, StoreHolds, LiveHolds;
    RunsHold(w, es);
  }

  lemma ReceiptStays(w: World, v: Service, e: Event, key: Str)
    requires key in v.receipts
    ensures key in Step(w, v, e).0.receipts && Step(w, v, e).0.receipts[key] == v.receipts[key]
  {
    hide Serialize, Successor, Admit, Materialize, Deserialize, Mint, CanonicalHead, Judge, KeyDigest, SnapshotDigest,
        Find;
    match e
    case Write(handle, t, grant, delivery) =>
      var ruling := WriteRuling(w, v, handle, t, grant);
      if ruling.Commit? {
        CommitShape(w, v, ruling.entry, t, delivery);
        hide CommitStep, SuccessorEntry;
      }
    case _ =>
  }

  lemma {:induction false} ReceiptLasts(w: World, v: Service, es: seq<Event>, key: Str)
    requires key in v.receipts
    ensures key in AfterAll(w, v, es).receipts && AfterAll(w, v, es).receipts[key] == v.receipts[key]
    decreases es
  {
    if es != [] {
      hide Step;
      ReceiptStays(w, v, es[0], key);
      ReceiptLasts(w, Step(w, v, es[0]).0, es[1..], key);
    }
  }

  /** A keyed write that reached the store leaves a receipt of the answer it gave. */
  lemma ReceiptIsLeft(w: World, v: Service, e: Event)
    requires e.Write? && e.txn.idempotencyKey != [] && e.txn.idempotencyKey !in v.receipts
    requires e.txn.idempotencyKey in Step(w, v, e).0.receipts
    ensures Step(w, v, e).1.Written?
    ensures Step(w, v, e).0.receipts[e.txn.idempotencyKey] == Receipt(RequestDigest(w, e.txn), Step(w, v, e).1.verdict)
  {
    hide Serialize, Successor, Admit, Mint, CanonicalHead, Judge, RequestDigest, SnapshotDigest, Find, Deliver;
  }

  /** From then on the same request gets the recorded answer, any other request under the key is refused, and
      neither changes anything: whatever happened in between, whatever handle, grant or mode they come with. */
  lemma ReceiptsAreDurable(w: World, v: Service, e: Event, between: seq<Event>, again: Event)
    requires CollisionFree(w) && e.Write? && again.Write? && Encodable(w, e.txn) && Encodable(w, again.txn)
    requires e.txn.idempotencyKey == again.txn.idempotencyKey != [] && e.txn.idempotencyKey !in v.receipts
    requires e.txn.idempotencyKey in Step(w, v, e).0.receipts
    ensures var later := AfterAll(w, Step(w, v, e).0, between);
      Step(w, later, again) == (later, if SameRequest(e.txn, again.txn) then Step(w, v,
          e).1 else Written(Refuse(KeyConflict)))
  {
    hide CollisionFree, Encodable, RequestDigest, Replay, Serialize, Successor, Admit, Mint, CanonicalHead, Judge,
        SnapshotDigest, Find, CommitStep;
    ReceiptIsLeft(w, v, e);
    ReceiptLasts(w, Step(w, v, e).0, between, e.txn.idempotencyKey);
    DigestBindsRequest(w, e.txn, again.txn);
    ReplayedByKey(w, AfterAll(w, Step(w, v, e).0, between), again);
  }

  lemma ReplayedByKey(w: World, v: Service, e: Event)
    requires e.Write? && e.txn.idempotencyKey != [] && e.txn.idempotencyKey in v.receipts
    ensures var receipt := v.receipts[e.txn.idempotencyKey];
      Step(w, v, e) == (v, Written(if receipt.digest == RequestDigest(w,
          e.txn) then receipt.outcome else Refuse(KeyConflict)))
  {
    hide RequestDigest, FindLive, Judge, CanonicalHead, CommitStep;
  }

  // ---- refusals, leases, quarantine ----

  /** A refused write changes nothing; one whose outcome is unknown may only have changed the store and its receipt. */
  lemma RefusedChangesNothing(w: World, v: Service, e: Event)
    requires e.Write? && Step(w, v, e).1.verdict.outcome != Applied
    ensures Step(w, v, e).1.verdict.outcome.Refused? ==> Step(w, v, e).0 == v
    ensures Step(w, v, e).0 == v.(store := Step(w, v, e).0.store, receipts := Step(w, v, e).0.receipts)
  {
    hide Serialize, Successor, Admit, Mint, CanonicalHead, Judge, KeyDigest, SnapshotDigest, Find, CompareAndSwap;
  }

  /** A write under any grant but the active one changes nothing, whatever else it carries. */
  lemma StaleGrantChangesNothing(w: World, v: Service, e: Event)
    requires e.Write? && (v.activeGrant == [] || e.grant.id != v.activeGrant)
    ensures Step(w, v, e).0 == v
  {
    hide Serialize, Successor, Admit, Mint, CanonicalHead, Judge, KeyDigest, SnapshotDigest, Find, CommitStep;
  }

  /** While a lease is held no other is granted. */
  lemma OneLeaseAtATime(w: World, v: Service, e: Event)
    requires e.Acquire? && v.activeGrant != []
    ensures Step(w, v, e) == (v, Granted(None))
  {
    hide Authenticated;
  }

  /** The ids of the leases a run has granted, in order. */
  function Minted(w: World, es: seq<Event>): seq<Str> {
    if es == [] then []
    else
      var reply := Step(w, Run(w, es[..|es| - 1]), es[|es| - 1]).1;
      Minted(w, es[..|es| - 1]) + if reply.Granted? && reply.grant.Some? then [reply.grant.value.id] else []
  }

  lemma GenerationStep(w: World, v: Service, e: Event, u: Service, reply: Reply)
    requires Step(w, v, e) == (u, reply)
    ensures if reply.Granted? && reply.grant.Some?
      then u.generation == (v.generation + 1) % WORD && reply.grant.value.id == GrantName(u.generation) == u.activeGrant
      else u.generation == v.generation && (u.activeGrant == v.activeGrant || u.activeGrant == [])
    ensures reply.Granted? && reply.grant.Some? ==>
      e.Acquire? && v.activeGrant == [] && reply.grant.value == NextGrant(v, e.actor, e.mode) && u.grantActor == e.actor
    ensures u.activeGrant == v.activeGrant != [] ==> u.grantActor == v.grantActor
  {
    hide Serialize, Successor, Admit, Mint, CanonicalHead, Judge, KeyDigest, SnapshotDigest, Find, CompareAndSwap,
        Authenticated, Deserialize, GrantName;
  }

  lemma {:induction false} MintedInOrder(w: World, es: seq<Event>)
    ensures Run(w, es).generation == |Minted(w, es)| % WORD
    ensures forall i :: 0 <= i < |Minted(w, es)| ==> Minted(w, es)[i] == GrantName((i + 1) % WORD)
  {
    hide Step, GrantName;
    if es != [] {
      MintedInOrder(w, es[..|es| - 1]);
      var (u, reply) := Step(w, Run(w, es[..|es| - 1]), es[|es| - 1]);
      GenerationStep(w, Run(w, es[..|es| - 1]), es[|es| - 1], u, reply);
    }
  }

  /** Two leases of a run carry one id exactly when the 64-bit generation counter has come around between them. */
  lemma GrantIdsRepeatOnlyOnWrap(w: World, es: seq<Event>, i: nat, j: nat)
    requires i < j < |Minted(w, es)|
    ensures Minted(w, es)[i] == Minted(w, es)[j] <==> (j - i) % WORD == 0
  {
    hide Minted, Run, Digits, Step;
    MintedInOrder(w, es);
    var m, n := (i + 1) % WORD, (j + 1) % WORD;
    assert GrantName(m)[6..] == Digits(m) && GrantName(n)[6..] == Digits(n);
    DigitsInjective(m, n);
    SameGeneration(i, j);
  }

  lemma SameGeneration(i: nat, j: nat)
    requires i < j
    ensures (i + 1) % WORD == (j + 1) % WORD <==> (j - i) % WORD == 0
  {
  }

  /** Over every run each live entry is promoted at a stored revision, or quarantined without storage identity;
      no cutover is ever pending, so promotion never succeeds and restored artifacts stay outside the store. */
  lemma QuarantineHolds(w: World, es: seq<Event>, i: nat)
    requires Sane(w) && AllFit(w, es) && i < |Run(w, es).live|
    ensures var m := Run(w, es).live[i];
      if m.quarantine.Promoted? then exists k :: 0 <= k < |Run(w, es).store.revisions| && m.revision == Run(w, es).store.revisions[k].0
      else m.quarantine in {Isolated, Quarantine.Verified} && m.revision == NO_REVISION
  {
    hide Sane, AllFit, Run, RunLog, StoreHolds, KeysHold, Canon, Replay;
    RunsHold(w, es);
    var v, log := Run(w, es), RunLog(w, es);
    assert Anchored(w, v.store, log, v.live[i]);
  }

  lemma PromotionNeverSucceeds(w: World, es: seq<Event>, e: Event)
    requires Sane(w) && AllFit(w, es) && e.PromoteAuthority?
    ensures Step(w, Run(w, es), e) == (Run(w, es), Moved(0))
  {
    hide Sane, AllFit, Run, RunLog, StoreHolds, KeysHold, LiveHolds, MoveStep;
    RunsHold(w, es);
    MoveKeeps(w, Run(w, es), RunLog(w, es), e.handle, e.actor);
  }

  lemma QuarantinedNeverWrites(w: World, v: Service, e: Event)
    requires e.Write? && FindLive(v, e.handle).Some? && !v.live[FindLive(v, e.handle).value].quarantine.Promoted?
    ensures Step(w, v, e).0 == v
  {
    hide Judge, CanonicalHead, KeyDigest, CommitStep, FindLive;
  }

  // ---- the two paths to the canonical head ----

  /** With nothing live at the head, the stored head is read back: that gives the same snapshot up to restoring
      exactly when the head is within the limits of the reader, and nothing otherwise. */
  lemma HeadPathsAgreeWithinLimits(w: World, es: seq<Event>, i: nat)
    requires Sane(w) && AllFit(w, es) && i < |Run(w, es).live|
    requires Run(w, es).live[i].revision == Run(w, es).store.head && Run(w, es).live[i].quarantine.Promoted?
    ensures StoredHead(w, Run(w, es).store) == Some(Canon(Run(w, es).live[i].state)) <==>
      WithinLimits(w.layout, Run(w, es).live[i].state)
    ensures StoredHead(w, Run(w, es).store).None? <==> !WithinLimits(w.layout, Run(w, es).live[i].state)
  {
    hide Sane, AllFit, Run, RunLog, Canon, Replay, Serialize, Deserialize, Materialize, IsLedger, RevisionHolds,
        SizedThrough, KeysHold, AnchoredAt;
    RunsHold(w, es);
    var v, log := Run(w, es), RunLog(w, es);
    assert Anchored(w, v.store, log, v.live[i]);
    EntryAtHead(w, v.store, log, v.live[i]);
    StoredHeadOutcome(w, v.store, log);
  }

  predicate AtHead(v: Service, m: Materialization) { m.revision == v.store.head && m.quarantine.Promoted? }

  /** The head is over the limits of the reader and no live entry stands for it. */
  ghost predicate Stranded(w: World, v: Service, log: seq<Commit>) {
    && Inv(w, v, log) && v.store.revisions != [] && !WithinLimits(w.layout, Replay(w.genesis, log))
    && NoneAtHead(v)
  }

  /** What a stranded service answers: the head does not open, no lease is granted, nothing moves, and a write gets a
      recorded answer or is refused. */
  predicate Barred(v: Service, e: Event, reply: Reply) {
    match e
    case OpenRemote(revision) =>
      revision.IsEmpty() || revision == v.store.head ==> reply == Opened(0, Some(ResourceAbuse))
    case Acquire(_, _) => reply == Granted(None)
    case Write(_, t, _, _) => reply.Written? && (FreshKey(v, t) ==> reply.verdict.outcome.Refused?)
    case VerifyRestored(_, _) => reply == Moved(0)
    case PromoteAuthority(_, _) => reply == Moved(0)
    case _ => true
  }

  lemma StrandedHead(w: World, v: Service, log: seq<Commit>)
    requires Sane(w) && Stranded(w, v, log)
    ensures CanonicalHead(w, v).None? && !v.store.head.IsEmpty() && Materialize(v.store, v.store.head) != []
    ensures Deserialize(w.layout, Materialize(v.store, v.store.head)) == Failure(ResourceAbuse)
  {
    hide Sane, Replay, Serialize, Deserialize, Materialize, IsLedger, RevisionHolds, LiveHolds, KeysHold, WithinLimits,
        Sized,
      Canon;
    assert log[..|log|] == log;
    RevisionNotEmpty(w, v.store, log, |log|);
    StoredHeadOutcome(w, v.store, log);
    MaterializesTo(w, v.store, log, |log|);
    assert SizedAt(w, log, |log|);
    RestoreOutcome(w.layout, Replay(w.genesis, log));
    NoImageIsEmpty(w.layout, Replay(w.genesis, log));
  }

  lemma NoImageIsEmpty(f: SnapshotLayout.Layout, s: Snapshot)
    ensures Serialize(f, s) != []
  {
  }

  lemma StrandedStays(w: World, v: Service, log: seq<Commit>, e: Event)
    requires Sane(w) && Stranded(w, v, log)
    ensures var (u, reply) := Step(w, v, e);
      Stranded(w, u, log) && u.store == v.store && u.receipts == v.receipts && Barred(v, e, reply)
  {
    StrandedAnswer(w, v, log, e);
    hide Sane, Replay, WithinLimits, Inv, Barred, Step, Fits, NoneAtHead;
    StepKeeps(w, v, log, e);
  }

  predicate NoneAtHead(v: Service) { forall i :: 0 <= i < |v.live| ==> !AtHead(v, v.live[i]) }

  /** The answer, with the store and the receipts as they were and still no entry at the head. */
  predicate AnsweredInVain(w: World, v: Service, e: Event) {
    var (u, reply) := Step(w, v, e);
    u.store == v.store && u.receipts == v.receipts && Barred(v, e, reply) && NoneAtHead(u)
  }

  lemma StrandedAnswer(w: World, v: Service, log: seq<Commit>, e: Event)
    requires Sane(w) && Stranded(w, v, log)
    ensures AnsweredInVain(w, v, e) && Fits(w, v, e)
  {
    hide Sane, Inv, Replay, WithinLimits, CanonicalHead, Deserialize, Materialize, AnsweredInVain, WriteRuling, Sized,
      AtHead;
    StrandedHead(w, v, log);
    match e
    case OpenRemote(_) => OpenedInVain(w, v, e);
    case Write(_, _, _, _) => WrittenInVain(w, v, e);
    case _ => OtherwiseInVain(w, v, e);
  }

  lemma OpenedInVain(w: World, v: Service, e: Event)
    requires NoneAtHead(v) && Deserialize(w.layout, Materialize(v.store, v.store.head)) == Failure(ResourceAbuse)
    requires !v.store.head.IsEmpty() && Materialize(v.store, v.store.head) != [] && e.OpenRemote?
    ensures AnsweredInVain(w, v, e)
  {
    hide Deserialize, Materialize, Serialize, SnapshotDigest, CompareAndSwap;
  }

  lemma WrittenInVain(w: World, v: Service, e: Event)
    requires NoneAtHead(v) && CanonicalHead(w, v).None? && e.Write?
    ensures AnsweredInVain(w, v, e) && WriteRuling(w, v, e.handle, e.txn, e.grant).Answer?
  {
    hide CanonicalHead, KeyDigest, FindLive, CommitStep, Admit, AtHead;
  }

  lemma OtherwiseInVain(w: World, v: Service, e: Event)
    requires NoneAtHead(v) && CanonicalHead(w, v).None? && !e.Write? && !e.OpenRemote?
    ensures AnsweredInVain(w, v, e)
  {
    hide CanonicalHead, Deserialize, Serialize, SnapshotDigest, ContentId, GrantName;
  }

  predicate AllBarred(v: Service, es: seq<Event>, replies: seq<Reply>) {
    |replies| == |es| && forall k :: 0 <= k < |es| ==> Barred(v, es[k], replies[k])
  }

  /** Once stranded, always stranded: whatever is called, the store and the receipts stay as they are, the head never
      opens, and no lease is ever granted again. */
  lemma {:induction false} StrandedForever(w: World, v: Service, log: seq<Commit>, es: seq<Event>)
    requires Sane(w) && Stranded(w, v, log)
    ensures var u := AfterAll(w, v, es); Stranded(w, u, log) && u.store == v.store && u.receipts == v.receipts
    ensures AllBarred(v, es, Replies(w, v, es))
    decreases es
  {
    if es != [] {
      hide Sane, Stranded, Step, Barred, AllBarred;
      var (u, reply) := Step(w, v, es[0]);
      StrandedStays(w, v, log, es[0]);
      StrandedForever(w, u, log, es[1..]);
      BarredFirst(v, u, es, reply, Replies(w, u, es[1..]));
    }
  }

  lemma BarredFirst(v: Service, u: Service, es: seq<Event>, reply: Reply, rest: seq<Reply>)
    requires es != [] && u.store == v.store && u.receipts == v.receipts && Barred(v, es[0], reply)
    requires AllBarred(u, es[1..], rest)
    ensures AllBarred(v, es, [reply] + rest)
  {
    hide Barred;
    forall k | 0 < k < |es| ensures Barred(v, es[k], rest[k - 1]) {
      BarredAlike(v, u, es[k], rest[k - 1]);
    }
  }

  lemma BarredAlike(v: Service, u: Service, e: Event, reply: Reply)
    requires u.store == v.store && u.receipts == v.receipts
    ensures Barred(v, e, reply) <==> Barred(u, e, reply)
  {
  }
}
