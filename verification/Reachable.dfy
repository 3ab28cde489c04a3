/** The invariant of every run of the service: the store is the replay of a ledger of admitted transactions, and
    every live entry is anchored in it or quarantined. */
module Reachable {
  import opened Prelude
  import opened Wire
  import opened Cognition
  import opened SnapshotLayout
  import opened SnapshotCodecLaws
  import opened Limits
  import opened Transactions
  import opened Gates
  import opened Ledger
  import opened Genesis
  import opened Service

  /** What the results about runs assume of the surroundings: hashes that do not collide and a founding snapshot
      within the limits of the reader. */
  ghost predicate Sane(w: World) { CollisionFree(w) && Founding(w.genesis) && WithinLimits(w.layout, w.genesis) }

  /** The program's own founding snapshot, in a layout with the limits of the program's own. */
  ghost predicate InProgram(w: World) { CollisionFree(w) && PlainLimits(w.layout) && w.genesis == MakeGenesis() }

  lemma ProgramIsSane(w: World)
    requires InProgram(w)
    ensures Sane(w)
  {
    hide MakeGenesis, CollisionFree, Founding, WithinLimits, PlainLimits;
    GenesisIsFounding();
    GenesisFits(w.layout);
  }

  /** The program's own layout and founding snapshot qualify, given hashes that do not collide, and such hashes exist. */
  lemma SaneWorldExists()
    ensures exists w: World :: w.layout == SnapshotFormat() && w.genesis == MakeGenesis() && InProgram(w) && Sane(w)
  {
    hide SnapshotFormat, MakeGenesis, CollisionFree, Founding, WithinLimits, PlainLimits;
    CollisionFreeWorldExists(SnapshotFormat(), MakeGenesis());
    var w: World :| w.layout == SnapshotFormat() && w.genesis == MakeGenesis() && CollisionFree(w);
    LimitsOfTheFormat();
    assert InProgram(w);
    ProgramIsSane(w);
  }

  // ---- the store ----

  function Image(w: World, log: seq<Commit>): Bytes { Serialize(w.layout, Replay(w.genesis, log)) }

  function Before(rs: seq<(RevisionId, Bytes)>, k: nat): RevisionId
    requires k < |rs|
  {
    if k == 0 then NO_REVISION else rs[k - 1].0
  }

  /** Revision `k` is minted on top of the revision before it. */
  predicate MintedAt(w: World, rs: seq<(RevisionId, Bytes)>, k: nat)
    requires k < |rs|
  {
    rs[k].0 == Mint(w, Before(rs, k), rs[k].1)
  }

  /** ... and holds the image after `k` transactions. */
  predicate RevisionHolds(w: World, s: Store, log: seq<Commit>, k: nat)
    requires k < |s.revisions| && k <= |log|
  {
    MintedAt(w, s.revisions, k) && s.revisions[k].1 == Image(w, log[..k])
  }

  ghost predicate StoreHolds(w: World, s: Store, log: seq<Commit>) {
    && IsLedger(w, log)
    && (if s.revisions == [] then s.head == NO_REVISION && log == []
        else |s.revisions| == |log| + 1 && s.head == s.revisions[|log|].0)
    && (forall k :: 0 <= k < |s.revisions| ==> RevisionHolds(w, s, log, k))
    && SizedThrough(w, log)
  }

  /** Every snapshot on the way has an image the format can address. */
  predicate SizedThrough(w: World, log: seq<Commit>) { forall k :: 0 <= k <= |log| ==> SizedAt(w, log, k) }

  predicate SizedAt(w: World, log: seq<Commit>, k: nat)
    requires k <= |log|
  {
    Sized(w.layout, Replay(w.genesis, log[..k]))
  }

  predicate Chained(w: World, rs: seq<(RevisionId, Bytes)>) { forall k :: 0 <= k < |rs| ==> MintedAt(w, rs, k) }

  lemma {:induction false} ChainedDistinct(w: World, rs: seq<(RevisionId, Bytes)>, i: nat, j: nat)
    requires CollisionFree(w) && Chained(w, rs) && i < j < |rs|
    ensures rs[i].0 != rs[j].0
  {
    hide CollisionFree, Mint;
    assert MintedAt(w, rs, i) && MintedAt(w, rs, j) && MintedAt(w, rs, j - 1);
    MintInjective(w, Before(rs, i), rs[i].1, Before(rs, j), rs[j].1);
    MintInjective(w, Before(rs, j - 1), rs[j - 1].1, NO_REVISION, []);
    if i > 0 {
      ChainedDistinct(w, rs, i - 1, j - 1);
    }
  }

  lemma StoreIsChained(w: World, s: Store, log: seq<Commit>)
    requires StoreHolds(w, s, log)
    ensures Chained(w, s.revisions)
  {
    hide Sized, IsLedger, Image, Mint, Replay, MintedAt;
    forall k | 0 <= k < |s.revisions| ensures MintedAt(w, s.revisions, k) {
      assert RevisionHolds(w, s, log, k);
    }
  }

  lemma RevisionsDistinct(w: World, s: Store, log: seq<Commit>, i: nat, j: nat)
    requires Sane(w) && StoreHolds(w, s, log) && i < j < |s.revisions|
    ensures s.revisions[i].0 != s.revisions[j].0
  {
    StoreIsChained(w, s, log);
    hide StoreHolds, CollisionFree, Chained;
    ChainedDistinct(w, s.revisions, i, j);
  }

  lemma RevisionNotEmpty(w: World, s: Store, log: seq<Commit>, k: nat)
    requires Sane(w) && StoreHolds(w, s, log) && k < |s.revisions|
    ensures !s.revisions[k].0.IsEmpty()
  {
    StoreIsChained(w, s, log);
    hide StoreHolds, CollisionFree, Mint, Founding, WithinLimits;
    assert MintedAt(w, s.revisions, k);
    MintInjective(w, Before(s.revisions, k), s.revisions[k].1, NO_REVISION, []);
  }

  lemma MaterializesTo(w: World, s: Store, log: seq<Commit>, k: nat)
    requires Sane(w) && StoreHolds(w, s, log) && k < |s.revisions|
    ensures Materialize(s, s.revisions[k].0) == Image(w, log[..k])
  {
    hide Sized, Founding, WithinLimits, IsLedger, Image, CollisionFree;
    assert RevisionHolds(w, s, log, k);
    forall j | 0 <= j < k ensures s.revisions[j].0 != s.revisions[k].0 {
      RevisionsDistinct(w, s, log, j, k);
    }
    var at := Find(s.revisions, (r: (RevisionId, Bytes)) => r.0 == s.revisions[k].0);
    assert at.Some?;
    if k < at.value {
      assert false;
    }
  }

  lemma MaterializesOnly(w: World, s: Store, log: seq<Commit>, id: RevisionId)
    requires StoreHolds(w, s, log) && Materialize(s, id) != []
    ensures exists k :: 0 <= k < |s.revisions| && s.revisions[k].0 == id
  {
  }

  // ---- live entries ----

  /** Promoted entries stand at a stored revision, up to restoring; all others have no storage identity. */
  predicate Anchored(w: World, s: Store, log: seq<Commit>, m: Materialization) {
    match m.quarantine
    case Promoted => exists k :: 0 <= k < |s.revisions| && k <= |log| && AnchoredAt(w, s, log, m, k)
    case AuthorityPending => false
    case _ => m.revision == NO_REVISION
  }

  predicate AnchoredAt(w: World, s: Store, log: seq<Commit>, m: Materialization, k: nat)
    requires k < |s.revisions| && k <= |log|
  {
    m.revision == s.revisions[k].0 && Canon(m.state) == Canon(Replay(w.genesis, log[..k]))
  }

  predicate LiveHolds(w: World, s: Store, live: seq<Materialization>, nextAddress: nat, log: seq<Commit>) {
    && 1 <= nextAddress
    && (forall i :: 0 <= i < |live| ==> 1 <= live[i].address < nextAddress && Anchored(w, s, log, live[i]))
    && (forall i, j :: 0 <= i < j < |live| ==> live[i].address != live[j].address)
  }

  /** Every keyed commit has its receipt, and no key commits twice. */
  predicate KeysHold(w: World, receipts: map<Str, Receipt>, log: seq<Commit>) {
    && (forall k :: 0 <= k < |log| && log[k].txn.idempotencyKey != [] ==>
        log[k].txn.idempotencyKey in receipts && receipts[log[k].txn.idempotencyKey].digest == RequestDigest(w,
            log[k].txn))
    && KeysDistinct(log)
  }

  predicate KeysDistinct(log: seq<Commit>) {
    forall j, k :: 0 <= j < k < |log| && log[j].txn.idempotencyKey != [] ==>
      log[j].txn.idempotencyKey != log[k].txn.idempotencyKey
  }

  ghost predicate Inv(w: World, v: Service, log: seq<Commit>) {
    StoreHolds(w, v.store, log) && LiveHolds(w, v.store, v.live, v.nextAddress, log) && KeysHold(w, v.receipts, log)
    && (v.activeGrant == [] ==> v.grantActor == NO_ACTOR)
  }

  // ---- the canonical head ----

  lemma StoredHeadOutcome(w: World, s: Store, log: seq<Commit>)
    requires Sane(w) && StoreHolds(w, s, log) && s.revisions != []
    ensures StoredHead(w, s) ==
      if WithinLimits(w.layout, Replay(w.genesis, log)) then Some(Canon(Replay(w.genesis, log))) else None
  {
    MaterializesTo(w, s, log, |log|);
    assert log[..|log|] == log;
    assert SizedAt(w, log, |log|);
    hide Sane, Founding, IsLedger, Replay, Canon, Serialize, Deserialize, Sized, WithinLimits, Materialize;
    RestoreOutcome(w.layout, Replay(w.genesis, log));
  }

  lemma LiveHeadIsReplay(w: World, v: Service, log: seq<Commit>, i: nat)
    requires Sane(w) && Inv(w, v, log) && i < |v.live|
    requires v.live[i].revision == v.store.head && v.live[i].quarantine.Promoted?
    ensures v.store.revisions != [] && Canon(v.live[i].state) == Canon(Replay(w.genesis, log))
  {
    hide Sane, StoreHolds, KeysHold, Anchored, Replay, Canon;
    EntryAtHead(w, v.store, log, v.live[i]);
  }

  lemma StoredHeadIsReplay(w: World, v: Service, log: seq<Commit>)
    requires Sane(w) && Inv(w, v, log) && !v.store.head.IsEmpty() && StoredHead(w, v.store).Some?
    ensures v.store.revisions != [] && Canon(StoredHead(w, v.store).value) == Canon(Replay(w.genesis, log))
  {
    hide Sane, IsLedger, RevisionHolds, SizedThrough, LiveHolds, KeysHold, Replay, Canon, StoredHead, WithinLimits;
    StoredHeadOutcome(w, v.store, log);
    CanonIdempotent(Replay(w.genesis, log));
  }

  lemma CanonKeepsRoot(s: Snapshot, u: Snapshot)
    requires Canon(s) == Canon(u)
    ensures s.rootPrincipal == u.rootPrincipal
  {
  }

  /** Whatever path answers, the canonical head is the replayed ledger up to restoring. */
  lemma HeadIsReplay(w: World, v: Service, log: seq<Commit>)
    requires Sane(w) && Inv(w, v, log) && CanonicalHead(w, v).Some?
    ensures v.store.revisions != [] && Canon(CanonicalHead(w, v).value) == Canon(Replay(w.genesis, log))
    ensures CanonicalHead(w, v).value.rootPrincipal == Replay(w.genesis, log).rootPrincipal
  {
    hide Sane, Inv, Replay, Canon, StoredHead;
    var at := Find(v.live, (m: Materialization) => m.revision == v.store.head && m.quarantine.Promoted?);
    if at.Some? {
      LiveHeadIsReplay(w, v, log, at.value);
    } else {
      StoredHeadIsReplay(w, v, log);
    }
    CanonKeepsRoot(CanonicalHead(w, v).value, Replay(w.genesis, log));
  }

  /** An entry promoted at the head revision holds the replayed ledger up to restoring. */
  lemma EntryAtHead(w: World, s: Store, log: seq<Commit>, m: Materialization)
    requires Sane(w) && StoreHolds(w, s, log) && m.quarantine.Promoted? && Anchored(w, s, log,
      m) && m.revision == s.head
    ensures s.revisions != [] && Canon(m.state) == Canon(Replay(w.genesis, log))
  {
    hide Sane, IsLedger, Replay, Canon, RevisionHolds, SizedThrough;
    var k :| 0 <= k < |s.revisions| && k <= |log| && AnchoredAt(w, s, log, m, k);
    if k < |log| {
      RevisionsDistinct(w, s, log, k, |log|);
    }
    assert log[..|log|] == log;
  }

  // ---- founding and extending the store ----

  lemma StoreFounded(w: World, s: Store)
    requires Sane(w) && StoreHolds(w, s, []) && s.revisions == []
    ensures var bytes := Serialize(w.layout, w.genesis);
      CompareAndSwap(w, s, NO_REVISION, bytes) == (Store([(Mint(w, NO_REVISION, bytes), bytes)], Mint(w, NO_REVISION,
          bytes)), Committed(Mint(w, NO_REVISION, bytes)))
      && StoreHolds(w, CompareAndSwap(w, s, NO_REVISION, bytes).0, [])
  {
    hide CollisionFree, Founding, IsLedger, Mint, Serialize, SizedThrough;
    var bytes := Serialize(w.layout, w.genesis);
    var log: seq<Commit> := [];
    assert log[..0] == [];
    assert s.revisions + [(Mint(w, NO_REVISION, bytes), bytes)] == [(Mint(w, NO_REVISION, bytes), bytes)];
  }

  lemma SizedExtended(w: World, log: seq<Commit>, c: Commit)
    requires SizedThrough(w, log) && Sized(w.layout, Replay(w.genesis, log + [c]))
    ensures SizedThrough(w, log + [c])
  {
    hide Sized, Replay;
    forall k | 0 <= k <= |log| + 1 ensures SizedAt(w, log + [c], k) {
      if k <= |log| {
        assert SizedAt(w, log, k);
        assert (log + [c])[..k] == log[..k];
      } else {
        assert (log + [c])[..k] == log + [c];
      }
    }
  }

  lemma RevisionStillHolds(w: World, s: Store, log: seq<Commit>, u: Store, longer: seq<Commit>, k: nat)
    requires k < |s.revisions| && k <= |log| && RevisionHolds(w, s, log,
      k) && s.revisions <= u.revisions && log <= longer
    ensures RevisionHolds(w, u, longer, k)
  {
    hide Image, Mint;
    assert longer[..k] == log[..k];
    assert Before(u.revisions, k) == Before(s.revisions, k);
  }

  lemma StoreExtended(w: World, s: Store, log: seq<Commit>, c: Commit)
    requires StoreHolds(w, s, log) && s.revisions != []
    requires Admitted(w, Replay(w.genesis, log), c) && Sized(w.layout, Replay(w.genesis, log + [c]))
    ensures var bytes := Image(w, log + [c]);
      StoreHolds(w, Store(s.revisions + [(Mint(w, s.head, bytes), bytes)], Mint(w, s.head, bytes)), log + [c])
  {
    var bytes := Image(w, log + [c]);
    var u := Store(s.revisions + [(Mint(w, s.head, bytes), bytes)], Mint(w, s.head, bytes));
    hide Mint, Image, SizedThrough, Replay, Sized, Admitted;
    LedgerStep(w, log, c);
    SizedExtended(w, log, c);
    hide IsLedger;
    assert (log + [c])[..|log| + 1] == log + [c];
    forall k | 0 <= k < |u.revisions| ensures RevisionHolds(w, u, log + [c], k) {
      if k <= |log| {
        RevisionStillHolds(w, s, log, u, log + [c], k);
      }
    }
  }

  lemma StillAnchored(w: World, s: Store, log: seq<Commit>, u: Store, longer: seq<Commit>, m: Materialization)
    requires Anchored(w, s, log, m) && s.revisions <= u.revisions && log <= longer
    ensures Anchored(w, u, longer, m)
  {
    hide Canon, Replay;
    if m.quarantine.Promoted? {
      var k :| 0 <= k < |s.revisions| && k <= |log| && AnchoredAt(w, s, log, m, k);
      assert longer[..k] == log[..k];
      assert AnchoredAt(w, u, longer, m, k);
    }
  }

  // ---- each call keeps the invariant ----

  /** Where bytes come from: a stored image, or outside and then without storage identity. */
  predicate Sourced(w: World, v: Service, log: seq<Commit>, bytes: Bytes, revision: RevisionId,
      quarantine: Quarantine) {
    if quarantine.Promoted? then
      exists k :: 0 <= k < |v.store.revisions| && k <= |log| && revision == v.store.revisions[k].0 && bytes == Image(w, log[..k])
    else quarantine.Isolated? && revision == NO_REVISION
  }

  lemma RestoredIsAnchored(w: World, v: Service, log: seq<Commit>, bytes: Bytes, m: Materialization)
    requires Inv(w, v, log) && Sourced(w, v, log, bytes, m.revision, m.quarantine)
    requires Deserialize(w.layout, bytes) == Success(m.state)
    ensures Anchored(w, v.store, log, m)
  {
    hide LiveHolds, KeysHold, IsLedger, RevisionHolds, Canon, Deserialize, Serialize, Sized, Replay;
    if m.quarantine.Promoted? {
      var k :| 0 <= k < |v.store.revisions| && k <= |log| && m.revision == v.store.revisions[k].0 && bytes == Image(w,
          log[..k]);
      var s := Replay(w.genesis, log[..k]);
      assert SizedAt(w, log, k);
      RestoreOutcome(w.layout, s);
      CanonIdempotent(s);
      assert AnchoredAt(w, v.store, log, m, k);
    }
  }

  lemma EnterKeeps(w: World, v: Service, log: seq<Commit>, bytes: Bytes, revision: RevisionId, quarantine: Quarantine)
    requires Inv(w, v, log) && Sourced(w, v, log, bytes, revision, quarantine)
    ensures Inv(w, Enter(w, v, bytes, revision, quarantine).0, log)
  {
    var u := Enter(w, v, bytes, revision, quarantine).0;
    if u != v {
      var m := u.live[|v.live|];
      RestoredIsAnchored(w, v, log, bytes, m);
      hide StoreHolds, Anchored, Sourced, Deserialize, SnapshotDigest;
      forall i | 0 <= i < |u.live| ensures 1 <= u.live[i].address < u.nextAddress && Anchored(w, u.store, log, u.live[i]) {
        if i < |v.live| {
          assert u.live[i] == v.live[i];
        }
      }
    }
  }

  /** What a stored revision materializes to is the image at its place. */
  lemma StoredIsSourced(w: World, v: Service, log: seq<Commit>, id: RevisionId)
    requires Sane(w) && Inv(w, v, log) && Materialize(v.store, id) != []
    ensures Sourced(w, v, log, Materialize(v.store, id), id, Promoted)
  {
    hide Sane, IsLedger, RevisionHolds, SizedThrough, LiveHolds, KeysHold, Image, Materialize;
    MaterializesOnly(w, v.store, log, id);
    var k :| 0 <= k < |v.store.revisions| && v.store.revisions[k].0 == id;
    MaterializesTo(w, v.store, log, k);
  }

  lemma EmptyWhenUnnamed(w: World, v: Service, log: seq<Commit>)
    requires Sane(w) && Inv(w, v, log) && v.store.head.IsEmpty()
    ensures v.store.revisions == []
  {
    hide Sane, IsLedger, RevisionHolds, SizedThrough, LiveHolds, KeysHold;
    if v.store.revisions != [] {
      RevisionNotEmpty(w, v.store, log, |log|);
    }
  }

  lemma OpenRemoteKeeps(w: World, v: Service, log: seq<Commit>, revision: RevisionId)
    requires Sane(w) && Inv(w, v, log)
    ensures Inv(w, OpenRemoteStep(w, v, revision).0, log)
  {
    hide Sane, Inv, Materialize, Enter, CompareAndSwap, Serialize, Sourced;
    var id := if revision.IsEmpty() then v.store.head else revision;
    var bytes := Materialize(v.store, id);
    if bytes != [] {
      StoredIsSourced(w, v, log, id);
      EnterKeeps(w, v, log, bytes, id, Promoted);
    } else if id.IsEmpty() {
      EmptyWhenUnnamed(w, v, log);
      FoundKeeps(w, v, log);
    }
  }

  /** Founding an empty store keeps the invariant. */
  lemma FoundedInv(w: World, v: Service, log: seq<Commit>, store: Store)
    requires Inv(w, v, log) && v.store.revisions <= store.revisions && StoreHolds(w, store, log)
    ensures Inv(w, v.(store := store), log)
  {
    hide StoreHolds, Anchored, KeysHold;
    forall i | 0 <= i < |v.live| ensures Anchored(w, store, log, v.live[i]) {
      StillAnchored(w, v.store, log, store, log, v.live[i]);
    }
  }

  lemma FoundKeeps(w: World, v: Service, log: seq<Commit>)
    requires Sane(w) && Inv(w, v, log) && v.store.revisions == []
    ensures var bytes := Serialize(w.layout, w.genesis);
      var (store, receipt) := CompareAndSwap(w, v.store, NO_REVISION, bytes);
      receipt.Committed? && Inv(w, Enter(w, v.(store := store), bytes, receipt.revision, Promoted).0, log)
  {
    hide Sane, IsLedger, RevisionHolds, SizedThrough, LiveHolds, KeysHold, Serialize, Enter, CompareAndSwap, Mint;
    var bytes := Serialize(w.layout, w.genesis);
    var (store, receipt) := CompareAndSwap(w, v.store, NO_REVISION, bytes);
    StoreFounded(w, v.store);
    hide StoreHolds, Inv;
    FoundedInv(w, v, log, store);
    FoundedIsSourced(w, v.(store := store), log, bytes, receipt.revision);
    EnterKeeps(w, v.(store := store), log, bytes, receipt.revision, Promoted);
  }

  lemma FoundedIsSourced(w: World, v: Service, log: seq<Commit>, bytes: Bytes, revision: RevisionId)
    requires bytes == Serialize(w.layout, w.genesis) && v.store.revisions != [] && v.store.revisions[0].0 == revision
    ensures Sourced(w, v, log, bytes, revision, Promoted)
  {
    hide Serialize;
    assert log[..0] == [];
    assert bytes == Image(w, log[..0]);
  }

  lemma MoveKeeps(w: World, v: Service, log: seq<Commit>, handle: Handle, actor: Actor)
    requires Inv(w, v, log)
    ensures Inv(w, MoveStep(w, v, handle, actor, Isolated, Quarantine.Verified).0, log)
    ensures MoveStep(w, v, handle, actor, AuthorityPending, Promoted) == (v, Moved(0))
  {
    hide StoreHolds, AnchoredAt, Authenticated;
    var at := FindLive(v, handle);
    if at.Some? {
      assert Anchored(w, v.store, log, v.live[at.value]);
    }
  }

  lemma RetireKeeps(w: World, v: Service, log: seq<Commit>, handle: Handle)
    requires Inv(w, v, log)
    ensures Inv(w, RetireStep(v, handle).0, log)
  {
    hide StoreHolds, Anchored;
    var u := RetireStep(v, handle).0;
    if u != v {
      var at := FindLive(v, handle).value;
      assert forall i :: 0 <= i < |u.live| ==> u.live[i] == v.live[if i < at then i else i + 1];
    }
  }

  // ---- the write ----

  /** What an admitted transaction written from an anchored entry does to the store. */
  lemma SwapOutcome(w: World, s: Store, log: seq<Commit>, m: Materialization, c: Commit)
    requires Sane(w) && StoreHolds(w, s, log) && m.quarantine.Promoted? && Anchored(w, s, log, m)
    requires c.txn.operations != [] && Sized(w.layout, Successor(m.state, c.txn))
    requires Admit(w, m.state, c.txn, Writer(Replay(w.genesis, log).rootPrincipal, c.author)).None?
    ensures var next := Successor(m.state, c.txn);
      var (u, receipt) := CompareAndSwap(w, s, m.revision, Serialize(w.layout, next));
      if m.revision != s.head then u == s && receipt == CompareFailed
      else
        && receipt == Committed(u.head) && Admitted(w, Replay(w.genesis, log), c)
        && if u == s then Canon(next) == Canon(Replay(w.genesis, log))
           else s.revisions < u.revisions && StoreHolds(w, u, log + [c]) && Canon(next) == Canon(Replay(w.genesis,
               log + [c]))
  {
    var here, next := Replay(w.genesis, log), Successor(m.state, c.txn);
    if m.revision == s.head {
      SwapAtHead(w, s, log, m, c);
    } else {
      hide Sane, IsLedger, RevisionHolds, SizedThrough, AnchoredAt, Admit, Serialize;
    }
  }

  lemma LastImage(w: World, s: Store, log: seq<Commit>)
    requires StoreHolds(w, s, log) && s.revisions != []
    ensures s.revisions[|s.revisions| - 1].1 == Image(w, log) && Sized(w.layout, Replay(w.genesis, log))
  {
    hide IsLedger, Sized, Image, Replay, Mint;
    assert log[..|log|] == log;
    assert RevisionHolds(w, s, log, |log|) && SizedAt(w, log, |log|);
  }

  lemma SwapAtHead(w: World, s: Store, log: seq<Commit>, m: Materialization, c: Commit)
    requires Sane(w) && StoreHolds(w, s, log) && m.quarantine.Promoted? && Anchored(w, s, log,
      m) && m.revision == s.head
    requires c.txn.operations != [] && Sized(w.layout, Successor(m.state, c.txn))
    requires Admit(w, m.state, c.txn, Writer(Replay(w.genesis, log).rootPrincipal, c.author)).None?
    ensures var next := Successor(m.state, c.txn);
      var (u, receipt) := CompareAndSwap(w, s, s.head, Serialize(w.layout, next));
      && receipt == Committed(u.head) && Admitted(w, Replay(w.genesis, log), c)
      && if u == s then Canon(next) == Canon(Replay(w.genesis, log))
         else s.revisions < u.revisions && StoreHolds(w, u, log + [c]) && Canon(next) == Canon(Replay(w.genesis,
             log + [c]))
  {
    hide Sane, StoreHolds, Anchored, Canon, Replay, Serialize, Successor, Sized, Mint;
    var here, next := Replay(w.genesis, log), Successor(m.state, c.txn);
    EntryAtHead(w, s, log, m);
    LastImage(w, s, log);
    RestoredJudgedAlike(w, m.state, here, c.txn, Writer(here.rootPrincipal, c.author));
    LedgerStep(w, log, c);
    ExtendedImage(w, next, log + [c]);
    if Serialize(w.layout, next) == Image(w, log) {
      SerializeInjective(w.layout, next, here);
    } else {
      StoreExtended(w, s, log, c);
    }
  }

  /** Equal up to restoring means the same image, and as sized. */
  lemma ExtendedImage(w: World, next: Snapshot, log: seq<Commit>)
    requires Canon(next) == Canon(Replay(w.genesis, log)) && Sized(w.layout, next)
    ensures Serialize(w.layout, next) == Image(w, log) && Sized(w.layout, Replay(w.genesis, log))
  {
    SerializeCanon(w.layout, next);
    SerializeCanon(w.layout, Replay(w.genesis, log));
  }

  /** Keys stay unique and receipted when a transaction with a fresh key is remembered, committed or not. */
  lemma RememberKeeps(w: World, v: Service, log: seq<Commit>, c: Commit, outcome: Verdict)
    requires KeysHold(w, v.receipts, log) && FreshKey(v, c.txn)
    ensures KeysHold(w, Remember(v, c.txn, KeyDigest(w, c.txn), outcome).receipts, log)
    ensures KeysHold(w, Remember(v, c.txn, KeyDigest(w, c.txn), outcome).receipts, log + [c])
  {
    hide RequestDigest;
  }

  /** Live entries stay anchored while the store and the ledger grow. */
  lemma LiveStays(w: World, s: Store, live: seq<Materialization>, next: nat, log: seq<Commit>, u: Store,
      longer: seq<Commit>)
    requires LiveHolds(w, s, live, next, log) && s.revisions <= u.revisions && log <= longer
    ensures LiveHolds(w, u, live, next, longer)
  {
    hide Anchored;
    forall i | 0 <= i < |live| ensures Anchored(w, u, longer, live[i]) {
      StillAnchored(w, s, log, u, longer, live[i]);
    }
  }

  lemma LiveReplaced(w: World, s: Store, live: seq<Materialization>, next: nat, log: seq<Commit>, i: nat,
      m: Materialization)
    requires LiveHolds(w, s, live, next, log) && i < |live| && m.address == next && Anchored(w, s, log, m)
    ensures LiveHolds(w, s, live[i := m], next + 1, log)
  {
    hide Anchored;
  }

  /** The ledger after a call: a transaction is logged when the store grew by it. */
  function Logged(w: World, v: Service, log: seq<Commit>, e: Event): seq<Commit> {
    if e.Write? && v.store.revisions != [] && |v.store.revisions| < |Step(w, v, e).0.store.revisions|
    then log + [Commit.Commit(e.txn, v.grantActor.binding)] else log
  }

  /** The gates have let this transaction through to the store. */
  ghost predicate Cleared(w: World, v: Service, log: seq<Commit>, i: nat, t: ContextTransaction) {
    && i < |v.live| && v.live[i].quarantine.Promoted? && t.base == v.live[i].revision && t.operations != [] && FreshKey(v, t)
    && Admit(w, v.live[i].state, t, Writer(Replay(w.genesis, log).rootPrincipal, v.grantActor.binding)).None?
  }

  /** The ledger that goes with store `u` after the transaction was sent to it. */
  function Longer(v: Service, log: seq<Commit>, t: ContextTransaction, u: Store): seq<Commit> {
    if u == v.store then log else log + [Commit.Commit(t, v.grantActor.binding)]
  }

  /** A store that changed grew by an admitted transaction written on its head. */
  ghost predicate Grown(w: World, v: Service, log: seq<Commit>, t: ContextTransaction, u: Store) {
    u != v.store ==>
      && v.store.revisions != [] && v.store.revisions < u.revisions && t.base == v.store.head
      && Admitted(w, Replay(w.genesis, log), Commit.Commit(t, v.grantActor.binding))
  }

  function SuccessorEntry(w: World, v: Service, i: nat, t: ContextTransaction, revision: RevisionId): Materialization
    requires i < |v.live|
  {
    var next := Successor(v.live[i].state, t);
    Materialization(v.nextAddress, next, SnapshotDigest(w, Serialize(w.layout, next)), revision, v.live[i].epoch,
        v.live[i].quarantine)
  }

  lemma SwapKeeps(w: World, v: Service, log: seq<Commit>, i: nat, t: ContextTransaction)
    requires Sane(w) && Inv(w, v, log) && Cleared(w, v, log, i, t) && Sized(w.layout, Successor(v.live[i].state, t))
    ensures var (u, receipt) := CompareAndSwap(w, v.store, v.live[i].revision, Serialize(w.layout,
      Successor(v.live[i].state, t)));
      var longer := Longer(v, log, t, u);
      && Grown(w, v, log, t, u) && StoreHolds(w, u, longer) && LiveHolds(w, u, v.live, v.nextAddress, longer)
      && (receipt.Committed? ==> LiveHolds(w, u, v.live[i := SuccessorEntry(w, v, i, t, receipt.revision)], v.nextAddress + 1, longer))
      && (receipt.CompareFailed? ==> u == v.store)
  {
    hide Sane, StoreHolds, CompareAndSwap, Serialize, Successor, Admit, Anchored, Canon, Replay, SnapshotDigest,
        Admitted, Sized, KeysHold;
    var m, c := v.live[i], Commit.Commit(t, v.grantActor.binding);
    var (u, receipt) := CompareAndSwap(w, v.store, m.revision, Serialize(w.layout, Successor(m.state, t)));
    SwapOutcome(w, v.store, log, m, c);
    var longer := Longer(v, log, t, u);
    if m.revision == v.store.head {
      EntryAtHead(w, v.store, log, m);
      SuccessorAnchored(w, u, longer, SuccessorEntry(w, v, i, t, u.head));
    }
    hide LiveHolds;
    LiveStays(w, v.store, v.live, v.nextAddress, log, u, longer);
    if m.revision == v.store.head {
      LiveReplaced(w, u, v.live, v.nextAddress, longer, i, SuccessorEntry(w, v, i, t, u.head));
    }
  }

  /** The four ways a call to the store can end, as far as the service is concerned. */
  lemma CommitShape(w: World, v: Service, i: nat, t: ContextTransaction, delivery: Delivery)
    requires i < |v.live|
    ensures var u := CommitStep(w, v, i, t, delivery).0;
      var (s, receipt) := CompareAndSwap(w, v.store, v.live[i].revision, Serialize(w.layout, Successor(v.live[i].state,
          t)));
      var applied := Verdict(Applied, StoreDiverged, v.nextAddress);
      || u == v
      || u == Remember(v, t, KeyDigest(w, t), UNKNOWN)
      || u == Remember(v.(store := s), t, KeyDigest(w, t), UNKNOWN)
      || (receipt.Committed? && u == Remember(v.(store := s, nextAddress := v.nextAddress + 1,
            live := v.live[i := SuccessorEntry(w, v, i, t, receipt.revision)]), t, KeyDigest(w, t), applied))
  {
    hide Serialize, Successor, SnapshotDigest, KeyDigest, CompareAndSwap, Remember;
  }

  lemma RememberedInv(w: World, v: Service, log: seq<Commit>, t: ContextTransaction, outcome: Verdict,
      longer: seq<Commit>)
    requires KeysHold(w, v.receipts, log) && FreshKey(v, t) && (longer == log || longer == log + [Commit.Commit(t,
      v.grantActor.binding)])
    requires StoreHolds(w, v.store, longer) && LiveHolds(w, v.store, v.live, v.nextAddress, longer)
    requires v.activeGrant == [] ==> v.grantActor == NO_ACTOR
    ensures Inv(w, Remember(v, t, KeyDigest(w, t), outcome), longer)
  {
    RememberKeeps(w, v, log, Commit.Commit(t, v.grantActor.binding), outcome);
    hide StoreHolds, LiveHolds, KeysHold, KeyDigest;
  }

  lemma CommitKeeps(w: World, v: Service, log: seq<Commit>, i: nat, t: ContextTransaction, delivery: Delivery)
    requires Sane(w) && Inv(w, v, log) && Cleared(w, v, log, i, t) && Sized(w.layout, Successor(v.live[i].state, t))
    ensures var u := CommitStep(w, v, i, t, delivery).0;
      Grown(w, v, log, t, u.store) && Inv(w, u, Longer(v, log, t, u.store))
  {
    hide Sane, CommitStep, StoreHolds, CompareAndSwap, Serialize, Successor, Admit, Replay, KeyDigest, KeysHold,
        LiveHolds, Admitted, Sized, SuccessorEntry, IsLedger, Anchored, RequestDigest, Deserialize, Canon,
        SnapshotDigest;
    SwapKeeps(w, v, log, i, t);
    CommitShape(w, v, i, t, delivery);
    var u := CommitStep(w, v, i, t, delivery).0;
    var (s, receipt) := CompareAndSwap(w, v.store, v.live[i].revision, Serialize(w.layout, Successor(v.live[i].state,
        t)));
    var longer := Longer(v, log, t, s);
    if u != v {
      RememberedInv(w, v, log, t, UNKNOWN, log);
      RememberedInv(w, v.(store := s), log, t, UNKNOWN, longer);
      if receipt.Committed? {
        var moved := v.(store := s, nextAddress := v.nextAddress + 1, live := v.live[i := SuccessorEntry(w, v, i, t,
            receipt.revision)]);
        RememberedInv(w, moved, log, t, Verdict(Applied, StoreDiverged, v.nextAddress), longer);
      }
      hide Inv;
    }
  }

  lemma SuccessorAnchored(w: World, s: Store, log: seq<Commit>, m: Materialization)
    requires StoreHolds(w, s, log) && s.revisions != [] && m.quarantine.Promoted? && m.revision == s.head
    requires Canon(m.state) == Canon(Replay(w.genesis, log))
    ensures Anchored(w, s, log, m)
  {
    hide IsLedger, RevisionHolds, SizedThrough, Canon, Replay;
    assert log[..|log|] == log;
    assert AnchoredAt(w, s, log, m, |log|);
  }

  lemma RulingCleared(w: World, v: Service, log: seq<Commit>, handle: Handle, t: ContextTransaction, grant: Grant)
    requires Sane(w) && Inv(w, v, log) && WriteRuling(w, v, handle, t, grant).Commit?
    ensures Cleared(w, v, log, WriteRuling(w, v, handle, t, grant).entry, t)
    ensures v.live[WriteRuling(w, v, handle, t, grant).entry].address == handle && v.activeGrant == grant.id != []
  {
    hide Sane, Inv, Admit, CanonicalHead, Replay, KeyDigest, Canon;
    HeadIsReplay(w, v, log);
  }

  /** The successor a write sends to the store, if it gets that far, has an image the format can address (lengths
      below 4 GiB). */
  predicate Fits(w: World, v: Service, e: Event) {
    e.Write? ==>
      var ruling := WriteRuling(w, v, e.handle, e.txn, e.grant);
      ruling.Commit? ==> Sized(w.layout, Successor(v.live[ruling.entry].state, e.txn))
  }

  lemma WriteKeeps(w: World, v: Service, log: seq<Commit>, e: Event)
    requires Sane(w) && Inv(w, v, log) && e.Write? && Fits(w, v, e)
    ensures Inv(w, Step(w, v, e).0, Logged(w, v, log, e))
    ensures Step(w, v, e).0.store != v.store ==> Grown(w, v, log, e.txn, Step(w, v, e).0.store) && v.live != []
  {
    hide Sane, Inv, WriteRuling, CommitStep, Sized, Successor, Admitted, Replay;
    var ruling := WriteRuling(w, v, e.handle, e.txn, e.grant);
    if ruling.Commit? {
      RulingCleared(w, v, log, e.handle, e.txn, e.grant);
      CommitKeeps(w, v, log, ruling.entry, e.txn, e.delivery);
    }
  }

  /** Every call keeps the invariant. */
  lemma StepKeeps(w: World, v: Service, log: seq<Commit>, e: Event)
    requires Sane(w) && Inv(w, v, log) && Fits(w, v, e)
    ensures Inv(w, Step(w, v, e).0, Logged(w, v, log, e))
  {
    hide Sane, StoreHolds, LiveHolds, KeysHold, Fits, WriteStep, MoveStep, RetireStep, OpenRemoteStep, Authenticated,
        Enter, Deserialize, ContentId, Sourced;
    match e
    case OpenRemote(revision) => OpenRemoteKeeps(w, v, log, revision);
    case OpenArtifact(bytes, _) =>
      FromOutside(w, v, log, bytes);
      EnterKeeps(w, v, log, bytes, NO_REVISION, Isolated);
    case Acquire(_, _) => assert GrantName((v.generation + 1) % WORD) != [];
    case Release(_) =>
    case Write(_, _, _, _) => WriteKeeps(w, v, log, e);
    case Retire(handle) => RetireKeeps(w, v, log, handle);
    case VerifyRestored(handle, actor) => MoveKeeps(w, v, log, handle, actor);
    case PromoteAuthority(handle, actor) => MoveKeeps(w, v, log, handle, actor);
  }

  lemma FromOutside(w: World, v: Service, log: seq<Commit>, bytes: Bytes)
    ensures Sourced(w, v, log, bytes, NO_REVISION, Isolated)
  {
  }

  // ---- runs ----

  /** The transactions a run has committed, in order. */
  function RunLog(w: World, es: seq<Event>): seq<Commit> {
    if es == [] then [] else Logged(w, Run(w, es[..|es| - 1]), RunLog(w, es[..|es| - 1]), es[|es| - 1])
  }

  ghost predicate AllFit(w: World, es: seq<Event>) { forall k :: 0 <= k < |es| ==> FitsAt(w, es, k) }

  predicate FitsAt(w: World, es: seq<Event>, k: nat)
    requires k < |es|
  {
    Fits(w, Run(w, es[..k]), es[k])
  }

  lemma AllFitPrefix(w: World, es: seq<Event>, k: nat)
    requires AllFit(w, es) && k <= |es|
    ensures AllFit(w, es[..k])
  {
    hide Run, Fits;
    forall j | 0 <= j < k ensures FitsAt(w, es[..k], j) {
      assert FitsAt(w, es, j);
      assert es[..k][..j] == es[..j];
    }
  }

  lemma StartHolds(w: World)
    requires Sane(w)
    ensures Inv(w, START, [])
  {
  }

  /** Every run, with any losses of acknowledgements in it, keeps the invariant: in particular the head holds the
      image of the founding snapshot with the committed transactions applied in order. */
  lemma {:induction false} RunsHold(w: World, es: seq<Event>)
    requires Sane(w) && AllFit(w, es)
    ensures Inv(w, Run(w, es), RunLog(w, es))
  {
    if es == [] {
      StartHolds(w);
    } else {
      hide Sane, Inv, Step, Fits, Logged;
      AllFitPrefix(w, es, |es| - 1);
      assert FitsAt(w, es, |es| - 1);
      RunsHold(w, es[..|es| - 1]);
      StepKeeps(w, Run(w, es[..|es| - 1]), RunLog(w, es[..|es| - 1]), es[|es| - 1]);
    }
  }
}
