/** Which histories the service can have: exactly the ledgers with the head as every base, distinct keys, named
    authors, addressable lengths and no transaction without effect (create_cognition, acquire_grant,
    write_to_cognition and release_grant in src/persistence.cpp). */
module Realization {
  import opened Prelude
  import opened Cognition
  import opened SnapshotCodecLaws
  import opened Text
  import opened Transactions
  import opened Gates
  import opened Ledger
  import opened Genesis
  import opened Service
  import opened Reachable
  import opened ServiceLaws
  import opened Progress

  /** The id of the head after a history: each revision is minted over the one before it. */
  function HeadId(w: World, log: seq<Commit>): RevisionId {
    Mint(w, if log == [] then NO_REVISION else HeadId(w, log[..|log| - 1]), Image(w, log))
  }

  /** Written on the head by a named author, and not without effect. */
  predicate ProperAt(w: World, log: seq<Commit>, k: nat)
    requires k < |log|
  {
    && log[k].txn.base == HeadId(w, log[..k]) && log[k].author != []
    && Image(w, log[..k + 1]) != Image(w, log[..k])
  }

  ghost predicate AllProper(w: World, log: seq<Commit>) { forall k :: 0 <= k < |log| ==> ProperAt(w, log, k) }

  ghost predicate Proper(w: World, log: seq<Commit>) {
    IsLedger(w, log) && SizedThrough(w, log) && KeysDistinct(log) && AllProper(w, log)
  }

  // ---- extending a history and a run ----

  lemma ProperAtPrefix(w: World, log: seq<Commit>, longer: seq<Commit>, k: nat)
    requires k < |log| && log <= longer
    ensures ProperAt(w, log, k) <==> ProperAt(w, longer, k)
  {
    hide HeadId, Image;
    assert log[..k] == longer[..k] && log[..k + 1] == longer[..k + 1];
  }

  /** What one more transaction has to satisfy. */
  ghost predicate Extends(w: World, log: seq<Commit>, c: Commit) {
    && Admitted(w, Replay(w.genesis, log), c) && Sized(w.layout, Successor(Replay(w.genesis, log), c.txn))
    && (c.txn.idempotencyKey != [] ==> !KeyUsed(log, c.txn.idempotencyKey))
    && c.txn.base == HeadId(w, log) && c.author != [] && Image(w, log + [c]) != Image(w, log)
  }

  predicate KeyUsed(log: seq<Commit>, key: Str) { exists k :: 0 <= k < |log| && log[k].txn.idempotencyKey == key }

  lemma AllProperStep(w: World, log: seq<Commit>, c: Commit)
    ensures AllProper(w, log + [c]) <==> AllProper(w, log) && ProperAt(w, log + [c], |log|)
  {
    hide ProperAt;
    forall k | 0 <= k < |log| ensures ProperAt(w, log, k) <==> ProperAt(w, log + [c], k) {
      ProperAtPrefix(w, log, log + [c], k);
    }
  }

  lemma SizedStep(w: World, log: seq<Commit>, c: Commit)
    ensures SizedThrough(w, log + [c]) <==> SizedThrough(w, log) && Sized(w.layout, Replay(w.genesis, log + [c]))
  {
    hide Sized, Replay;
    assert (log + [c])[..|log| + 1] == log + [c];
    assert forall k :: 0 <= k <= |log| ==> (log + [c])[..k] == log[..k];
    if SizedThrough(w, log + [c]) {
      forall k | 0 <= k <= |log| ensures SizedAt(w, log, k) {
        assert SizedAt(w, log + [c], k);
      }
      assert SizedAt(w, log + [c], |log| + 1);
    }
    if SizedThrough(w, log) && Sized(w.layout, Replay(w.genesis, log + [c])) {
      SizedExtended(w, log, c);
    }
  }

  lemma KeysStep(log: seq<Commit>, c: Commit)
    ensures KeysDistinct(log + [c]) <==>
      KeysDistinct(log) && (c.txn.idempotencyKey != [] ==> !KeyUsed(log, c.txn.idempotencyKey))
  {
    var all := log + [c];
    assert all[|log|] == c && forall k :: 0 <= k < |log| ==> all[k] == log[k];
  }

  lemma ProperStep(w: World, log: seq<Commit>, c: Commit)
    ensures Proper(w, log + [c]) <==> Proper(w, log) && Extends(w, log, c)
  {
    hide IsLedger, SizedThrough, KeysDistinct, AllProper, Admitted, Sized, Replay, HeadId, Image, KeyUsed, Successor;
    LedgerStep(w, log, c);
    SizedStep(w, log, c);
    KeysStep(log, c);
    AllProperStep(w, log, c);
    assert (log + [c])[..|log|] == log && (log + [c])[..|log| + 1] == log + [c];
  }

  lemma RunStep(w: World, es: seq<Event>, e: Event)
    ensures Run(w, es + [e]) == Step(w, Run(w, es), e).0
    ensures RunLog(w, es + [e]) == Logged(w, Run(w, es), RunLog(w, es), e)
    ensures AllFit(w, es + [e]) <==> AllFit(w, es) && Fits(w, Run(w, es), e)
    ensures AllHeld(w, es + [e]) <==> AllHeld(w, es) && (Carried(e).Some? ==> Held(w, es, Carried(e).value))
    ensures forall grant :: Held(w, es + [e], grant) <==>
      Held(w, es, grant) || Step(w, Run(w, es), e).1 == Granted(Some(grant))
  {
    HeldStep(w, es, e);
    hide Step, Fits, Logged;
    var all := es + [e];
    assert all[..|es|] == es && all[|es|] == e;
    assert forall k :: 0 <= k < |es| ==> all[..k] == es[..k];
    if AllFit(w, all) {
      AllFitPrefix(w, all, |es|);
      assert FitsAt(w, all, |es|);
    }
    if AllFit(w, es) && Fits(w, Run(w, es), e) {
      forall k | 0 <= k < |all| ensures FitsAt(w, all, k) {
        assert k < |es| ==> FitsAt(w, es, k);
      }
    }
  }

  lemma HeldStep(w: World, es: seq<Event>, e: Event)
    ensures AllHeld(w, es + [e]) <==> AllHeld(w, es) && (Carried(e).Some? ==> Held(w, es, Carried(e).value))
    ensures forall grant :: Held(w, es + [e], grant) <==>
      Held(w, es, grant) || Step(w, Run(w, es), e).1 == Granted(Some(grant))
  {
    hide Step, Run, Carried;
    var all := es + [e];
    assert all[..|es|] == es && all[|es|] == e;
    assert forall k :: 0 <= k < |es| ==> all[..k] == es[..k];
    forall grant ensures Held(w, all, grant) <==> Held(w, es, grant) || Step(w, Run(w, es), e).1 == Granted(Some(grant)) {
      assert forall k :: 0 <= k < |es| ==> GrantedAt(w, all, k, grant) == GrantedAt(w, es, k, grant);
      assert GrantedAt(w, all, |es|, grant) <==> Step(w, Run(w, es), e).1 == Granted(Some(grant));
    }
    hide Held;
    assert forall k :: 0 <= k < |es| ==> CarriesHeld(w, all, k) == CarriesHeld(w, es, k);
    assert CarriesHeld(w, all, |es|) <==> (Carried(e).Some? ==> Held(w, es, Carried(e).value));
  }

  lemma {:induction false} HeadIsMinted(w: World, s: Store, log: seq<Commit>, k: nat)
    requires StoreHolds(w, s, log) && k < |s.revisions|
    ensures s.revisions[k].0 == HeadId(w, log[..k])
  {
    hide IsLedger, SizedThrough, Image, Mint;
    assert RevisionHolds(w, s, log, k);
    if k > 0 {
      HeadIsMinted(w, s, log, k - 1);
      assert log[..k][..k - 1] == log[..k - 1];
    }
  }

  // ---- every run has a proper history ----

  lemma GrownIsProper(w: World, v: Service, log: seq<Commit>, e: Event)
    requires Sane(w) && Inv(w, v, log) && Fits(w, v, e) && Proper(w, log) && Logged(w, v, log, e) != log
    ensures Proper(w, Logged(w, v, log, e))
  {
    var c := Commit.Commit(e.txn, v.grantActor.binding);
    var u := Step(w, v, e).0;
    hide *;
    StoreGrew(w, v, log, e);
    NoLostUpdate(w, v, log, e);
    HeadOfInv(w, v, log);
    GrownHasEffect(w, v, log, e);
    HistoryOfInv(w, u, log + [c]);
    ProperLast(w, log, c);
  }

  lemma ProperLast(w: World, log: seq<Commit>, c: Commit)
    requires Proper(w, log) && IsLedger(w, log + [c]) && SizedThrough(w, log + [c]) && KeysDistinct(log + [c])
    requires c.txn.base == HeadId(w, log) && c.author != [] && Image(w, log + [c]) != Image(w, log)
    ensures Proper(w, log + [c])
  {
    hide IsLedger, SizedThrough, KeysDistinct, AllProper, HeadId, Image;
    AllProperStep(w, log, c);
    assert (log + [c])[..|log|] == log && (log + [c])[..|log| + 1] == log + [c];
  }

  lemma StoreGrew(w: World, v: Service, log: seq<Commit>, e: Event)
    requires Logged(w, v, log, e) != log
    ensures e.Write? && Step(w, v, e).0.store != v.store && v.store.revisions != []
  {
    hide Step;
  }

  lemma HistoryOfInv(w: World, v: Service, log: seq<Commit>)
    requires Inv(w, v, log)
    ensures KeysDistinct(log) && IsLedger(w, log) && SizedThrough(w, log)
  {
    hide IsLedger, SizedThrough, RevisionHolds, LiveHolds, KeysDistinct;
  }

  lemma GrownHasEffect(w: World, v: Service, log: seq<Commit>, e: Event)
    requires Sane(w) && Inv(w, v, log) && Fits(w, v, e) && Logged(w, v, log, e) != log
    ensures Image(w, log + [Commit.Commit(e.txn, v.grantActor.binding)]) != Image(w, log) && v.grantActor.binding != []
  {
    hide Sane, Fits, Inv, Serialize, Successor, Admit, Mint, CanonicalHead, KeyDigest, SnapshotDigest, Image, FindLive;
    NoLostUpdate(w, v, log, e);
    InvLastImage(w, v, log);
    InvLastImage(w, Step(w, v, e).0, log + [Commit.Commit(e.txn, v.grantActor.binding)]);
  }

  lemma {:induction false} RunsAreProper(w: World, es: seq<Event>)
    requires Sane(w) && AllFit(w, es)
    ensures Proper(w, RunLog(w, es))
  {
    hide Sane, Inv, Step, Fits, Logged, Proper;
    if es == [] {
      FoundingIsProper(w);
    } else {
      AllFitPrefix(w, es, |es| - 1);
      assert FitsAt(w, es, |es| - 1);
      var v, log := Run(w, es[..|es| - 1]), RunLog(w, es[..|es| - 1]);
      RunsHold(w, es[..|es| - 1]);
      RunsAreProper(w, es[..|es| - 1]);
      if Logged(w, v, log, es[|es| - 1]) != log {
        GrownIsProper(w, v, log, es[|es| - 1]);
      }
    }
  }

  lemma FoundingIsProper(w: World)
    requires Sane(w)
    ensures Proper(w, [])
  {
    hide CollisionFree, Founding;
  }

  // ---- every proper history has a run ----

  /** The run has this history, has released its lease, and keeps one entry, at the head. */
  ghost predicate Realizes(w: World, es: seq<Event>, log: seq<Commit>) {
    var v := Run(w, es);
    && AllFit(w, es) && AllHeld(w, es) && RunLog(w, es) == log && v.store.revisions != [] && v.activeGrant == []
    && |v.live| == 1 && PromotedAtHead(v, 0)
    && forall key :: key in v.receipts ==> KeyUsed(log, key)
  }

  lemma RealizedIsAtRest(w: World, es: seq<Event>, log: seq<Commit>)
    requires Sane(w) && Realizes(w, es, log)
    ensures var v := Run(w, es);
      && Inv(w, v, log) && v.store.revisions != [] && v.activeGrant == [] && |v.live| == 1 && PromotedAtHead(v, 0)
      && forall key :: key in v.receipts ==> KeyUsed(log, key)
  {
    hide Sane, Inv, Run, RunLog, AllFit, AllHeld, KeyUsed, AtHead;
    RunsHold(w, es);
  }

  function WriterOf(w: World, binding: Str): Actor {
    Actor(w.genesis.rootPrincipal, Role.Worker, binding, [65], [], [])
  }

  lemma FoundingRun(w: World)
    requires Sane(w)
    ensures Realizes(w, [OpenRemote(NO_REVISION)], [])
  {
    hide CollisionFree, Founding, Serialize, Mint, Canon, SnapshotDigest;
    RunStep(w, [], OpenRemote(NO_REVISION));
    RoundTripExactlyWithinLimits(w.layout, w.genesis);
    ImageNotEmpty(w, []);
    assert [] + [OpenRemote(NO_REVISION)] == [OpenRemote(NO_REVISION)];
  }

  /** The three calls that extend the history by `c`. */
  function Extending(w: World, v: Service, c: Commit): seq<Event>
    requires |v.live| == 1
  {
    var grant := LeaseOf(v, WriterOf(w, c.author));
    [Acquire(WriterOf(w, c.author), SupervisedForeground), Write(v.live[0].address, c.txn, grant, Acknowledged),
      Release(grant)]
  }

  function Extended(w: World, v: Service, c: Commit): Service
    requires |v.live| == 1
  {
    var calls := Extending(w, v, c);
    Step(w, Step(w, Step(w, v, calls[0]).0, calls[1]).0, calls[2]).0
  }

  lemma {:induction false} ProperHasRun(w: World, log: seq<Commit>) returns (es: seq<Event>)
    requires Sane(w) && Proper(w, log)
    ensures Realizes(w, es, log)
  {
    hide Sane, Proper, Realizes, Extends;
    if log == [] {
      es := [OpenRemote(NO_REVISION)];
      FoundingRun(w);
    } else {
      var init, c := log[..|log| - 1], log[|log| - 1];
      assert log == init + [c];
      ProperStep(w, init, c);
      var before := ProperHasRun(w, init);
      es := ExtendedRun(w, before, init, c);
    }
  }

  lemma ExtendedRun(w: World, es: seq<Event>, log: seq<Commit>, c: Commit) returns (longer: seq<Event>)
    requires Sane(w) && Realizes(w, es, log) && Extends(w, log, c)
    ensures es <= longer && Realizes(w, longer, log + [c])
    ensures Run(w, longer) == Extended(w, Run(w, es), c)
    ensures Held(w, longer, LeaseOf(Run(w, es), WriterOf(w, c.author)))
  {
    hide Sane, Inv, Step, Fits, Logged, Extends, KeyUsed, AllFit, AllHeld, Held, Run, RunLog;
    var acquire, write, release := Extending(w, Run(w, es), c)[0], Extending(w, Run(w, es), c)[1], Extending(w, Run(w,
        es), c)[2];
    RunStep(w, es, acquire);
    RunStep(w, es + [acquire], write);
    RunStep(w, es + [acquire] + [write], release);
    longer := es + [acquire] + [write] + [release];
    RunsHold(w, es);
    ExtendedService(w, Run(w, es), log, c);
  }

  lemma ExtendedService(w: World, v: Service, log: seq<Commit>, c: Commit)
    requires Sane(w) && Inv(w, v, log) && v.store.revisions != [] && v.activeGrant == [] && Extends(w, log, c)
    requires |v.live| == 1 && PromotedAtHead(v, 0) && forall key :: key in v.receipts ==> KeyUsed(log, key)
    ensures var calls := Extending(w, v, c);
      var leased, written := Step(w, v, calls[0]).0, Step(w, Step(w, v, calls[0]).0, calls[1]).0;
      var u := Step(w, written, calls[2]).0;
      && Step(w, v, calls[0]).1 == Granted(Carried(calls[1])) && Carried(calls[1]) == Carried(calls[2])
      && Carried(calls[0]).None? && Carried(calls[1]).Some?
      && Fits(w, v, calls[0]) && Fits(w, leased, calls[1]) && Fits(w, written, calls[2])
      && Logged(w, v, log, calls[0]) == log && Logged(w, leased, log, calls[1]) == log + [c]
      && Logged(w, written, log + [c], calls[2]) == log + [c]
      && u.store.revisions != [] && u.activeGrant == [] && |u.live| == 1 && PromotedAtHead(u, 0)
      && forall key :: key in u.receipts ==> KeyUsed(log + [c], key)
  {
    hide Sane, Inv, Step, Fits, Logged, KeyUsed, Replay, Admitted, Sized, Successor, HeadId, Image, WriterOf, Verifies,
      StoreHolds;
    var leased := Leased(w, v, WriterOf(w, c.author));
    LeasedIsReady(w, v, log, c);
    LeaseIsTaken(w, v, log, WriterOf(w, c.author), 0);
    ByTheLease(w, leased, c);
    AdmittedIsApplied(w, leased, log, c.txn, 0, LeaseOf(v, WriterOf(w, c.author)));
    var calls := Extending(w, v, c);
    var written := Step(w, leased, calls[1]).0;
    NotAWrite(w, v, log, calls[0]);
    NotAWrite(w, written, log + [c], calls[2]);
    ReleaseFrees(w, written, LeaseOf(v, WriterOf(w, c.author)));
    KeysExtended(v, written, log, c);
  }

  /** With the lease taken, the transaction can be written from the one entry there is. */
  lemma LeasedIsReady(w: World, v: Service, log: seq<Commit>, c: Commit)
    requires Sane(w) && Inv(w, v, log) && v.store.revisions != [] && v.activeGrant == [] && Extends(w, log, c)
    requires |v.live| == 1 && PromotedAtHead(v, 0) && forall key :: key in v.receipts ==> KeyUsed(log, key)
    ensures Verifies(WriterOf(w, c.author), w.genesis)
    ensures Ready(w, Leased(w, v, WriterOf(w, c.author)), log, c.txn, 0, LeaseOf(v, WriterOf(w, c.author)))
  {
    hide Sane, Inv, Step, KeyUsed, Replay, Admitted, Sized, Successor, HeadId, Image, WriterOf, Verifies;
    var leased := Leased(w, v, WriterOf(w, c.author));
    WriterVerifies(w, c.author);
    LeaseIsTaken(w, v, log, WriterOf(w, c.author), 0);
    HeadOfInv(w, v, log);
    FreshWhenUnused(v, log, c);
    ByTheLease(w, leased, c);
  }

  lemma ByTheLease(w: World, leased: Service, c: Commit)
    requires leased.grantActor == WriterOf(w, c.author)
    ensures Commit.Commit(c.txn, leased.grantActor.binding) == c
  {
  }

  lemma HeadOfInv(w: World, v: Service, log: seq<Commit>)
    requires Inv(w, v, log) && v.store.revisions != []
    ensures v.store.head == HeadId(w, log)
  {
    hide IsLedger, SizedThrough, RevisionHolds, LiveHolds, KeysHold, HeadId;
    HeadIsMinted(w, v.store, log, |log|);
    assert log[..|log|] == log;
  }

  lemma FreshWhenUnused(v: Service, log: seq<Commit>, c: Commit)
    requires forall key :: key in v.receipts ==> KeyUsed(log, key)
    requires c.txn.idempotencyKey != [] ==> !KeyUsed(log, c.txn.idempotencyKey)
    ensures FreshKey(v, c.txn)
  {
    hide KeyUsed;
  }

  lemma NotAWrite(w: World, v: Service, log: seq<Commit>, e: Event)
    requires !e.Write?
    ensures Fits(w, v, e) && Logged(w, v, log, e) == log
  {
    hide Step;
  }

  lemma ReleaseFrees(w: World, v: Service, grant: Grant)
    requires v.activeGrant == grant.id
    ensures Step(w, v, Release(grant)).0 == v.(activeGrant := [], grantActor := NO_ACTOR)
  {
  }

  lemma KeysExtended(v: Service, u: Service, log: seq<Commit>, c: Commit)
    requires forall key :: key in v.receipts ==> KeyUsed(log, key)
    requires u.receipts.Keys <= v.receipts.Keys + (if c.txn.idempotencyKey == [] then {} else {c.txn.idempotencyKey})
    ensures forall key :: key in u.receipts ==> KeyUsed(log + [c], key)
  {
    forall key | key in u.receipts ensures KeyUsed(log + [c], key) {
      assert key in u.receipts.Keys;
      if key in v.receipts {
        var k :| 0 <= k < |log| && log[k].txn.idempotencyKey == key;
        assert (log + [c])[k] == log[k];
      } else {
        assert (log + [c])[|log|] == c;
      }
    }
  }

  lemma WriterVerifies(w: World, binding: Str)
    requires Sane(w) && binding != []
    ensures Verifies(WriterOf(w, binding), w.genesis)
  {
  }

  /** The histories of the runs of the service are exactly the proper ledgers, with or without made-up grants. */
  lemma HistoriesAreProperLedgers(w: World, log: seq<Commit>)
    requires Sane(w)
    ensures Proper(w, log) <==> exists es :: AllFit(w, es) && RunLog(w, es) == log
    ensures Proper(w, log) <==> exists es :: AllFit(w, es) && AllHeld(w, es) && RunLog(w, es) == log
  {
    hide Sane, Proper, AllFit, AllHeld, RunLog, Run;
    if Proper(w, log) {
      var es := ProperHasRun(w, log);
      assert AllFit(w, es) && AllHeld(w, es) && RunLog(w, es) == log;
    }
    forall es | AllFit(w, es) && RunLog(w, es) == log ensures Proper(w, log) {
      RunsAreProper(w, es);
    }
  }
}
