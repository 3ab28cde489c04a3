/** The converse of safety: whatever the gates promise to admit can be committed from any reachable state in which
    the lease is free (create_cognition, acquire_grant and write_to_cognition in src/persistence.cpp). */
module Progress {
  import opened Prelude
  import opened Cognition
  import opened SnapshotCodecLaws
  import opened Transactions
  import opened Gates
  import opened Ledger
  import opened Genesis
  import opened Service
  import opened Reachable
  import opened ServiceLaws

  /** Opening the head registers a promoted entry for it under the next address. */
  lemma HeadOpens(w: World, v: Service, log: seq<Commit>)
    requires Sane(w) && Inv(w, v, log) && v.store.revisions != [] && WithinLimits(w.layout, Replay(w.genesis, log))
    ensures var u := Step(w, v, OpenRemote(NO_REVISION)).0;
      && u.live == v.live + [HeadEntry(w, v, log)] && u.nextAddress == v.nextAddress + 1
      && u == v.(live := u.live, epoch := u.epoch, nextAddress := u.nextAddress)
  {
    hide Sane, Serialize, Deserialize, Materialize, Canon, Replay, Sized, WithinLimits, IsLedger, RevisionHolds,
        LiveHolds,
      KeysHold, SizedThrough, SnapshotDigest;
    var s := Replay(w.genesis, log);
    assert log[..|log|] == log;
    RevisionNotEmpty(w, v.store, log, |log|);
    MaterializesTo(w, v.store, log, |log|);
    HeadRestores(w, v.store, log);
    ImageNotEmpty(w, log);
  }

  function HeadEntry(w: World, v: Service, log: seq<Commit>): Materialization {
    Materialization(v.nextAddress, Canon(Replay(w.genesis, log)), SnapshotDigest(w, Image(w, log)), v.store.head,
      (v.epoch + 1) % WORD, Promoted)
  }

  lemma HeadRestores(w: World, s: Store, log: seq<Commit>)
    requires StoreHolds(w, s, log) && WithinLimits(w.layout, Replay(w.genesis, log))
    ensures Deserialize(w.layout, Image(w, log)) == Success(Canon(Replay(w.genesis, log)))
  {
    hide StoreHolds, Replay, Canon, Serialize, Deserialize, WithinLimits;
    RoundTripExactlyWithinLimits(w.layout, Replay(w.genesis, log));
  }

  lemma ImageNotEmpty(w: World, log: seq<Commit>)
    ensures Image(w, log) != []
  {
    hide Replay;
  }

  predicate PromotedAtHead(v: Service, i: nat) { i < |v.live| && AtHead(v, v.live[i]) }

  /** With a promoted entry at the head, the root principal is authenticated. */
  lemma RootIsAuthenticated(w: World, v: Service, log: seq<Commit>, actor: Actor, i: nat)
    requires Sane(w) && Inv(w, v, log) && Verifies(actor, w.genesis) && v.store.revisions != [] && PromotedAtHead(v, i)
    ensures CanonicalHead(w, v).Some? && CanonicalHead(w, v).value.rootPrincipal == w.genesis.rootPrincipal
    ensures Authenticated(w, v, actor)
  {
    hide Sane, Replay, Canon, IsLedger, RevisionHolds, LiveHolds, KeysHold, SizedThrough, StoredHead;
    RevisionNotEmpty(w, v.store, log, |log|);
    assert CanonicalHead(w, v).Some?;
    hide CanonicalHead, Inv;
    HeadIsReplay(w, v, log);
    GovernanceIsConstant(w.genesis, log);
  }

  // ---- lease and write from an entry at the head ----

  function Leased(w: World, v: Service, actor: Actor): Service { Step(w, v, Acquire(actor, SupervisedForeground)).0 }
  function LeaseOf(v: Service, actor: Actor): Grant { NextGrant(v, actor, SupervisedForeground) }

  /** With a promoted entry at the head and the lease free, the root principal gets the lease. */
  lemma LeaseIsTaken(w: World, v: Service, log: seq<Commit>, actor: Actor, i: nat)
    requires Sane(w) && Inv(w, v, log) && v.store.revisions != [] && PromotedAtHead(v, i)
    requires v.activeGrant == [] && Verifies(actor, w.genesis)
    ensures var u := Leased(w, v, actor);
      && Step(w, v, Acquire(actor, SupervisedForeground)).1 == Granted(Some(LeaseOf(v, actor)))
      && Inv(w, u, log) && u.activeGrant == LeaseOf(v, actor).id != [] && u.grantActor == actor
      && u == v.(activeGrant := u.activeGrant, grantActor := actor, generation := u.generation)
  {
    hide Sane, Inv, Authenticated, PromotedAtHead;
    RootIsAuthenticated(w, v, log, actor, i);
    StepKeeps(w, v, log, Acquire(actor, SupervisedForeground));
    assert GrantName((v.generation + 1) % WORD) != [];
  }

  /** The lease holder is about to write `t` from entry `i`, and the replayed history admits it. */
  ghost predicate Ready(w: World, v: Service, log: seq<Commit>, t: ContextTransaction, i: nat, grant: Grant) {
    && Sane(w) && Inv(w, v, log) && v.store.revisions != [] && PromotedAtHead(v, i)
    && v.activeGrant == grant.id != [] && grant.mode.SupervisedForeground? && Verifies(v.grantActor, w.genesis)
    && t.base == v.store.head && FreshKey(v, t)
    && Admitted(w, Replay(w.genesis, log), Commit.Commit(t, v.grantActor.binding))
  }

  function WriteOf(v: Service, t: ContextTransaction, i: nat, grant: Grant): Event
    requires i < |v.live|
  {
    Write(v.live[i].address, t, grant, Acknowledged)
  }

  /** The gates let the transaction through. */
  lemma AdmittedPassesGates(w: World, v: Service, log: seq<Commit>, t: ContextTransaction, i: nat, grant: Grant)
    requires Ready(w, v, log, t, i, grant)
    ensures WriteRuling(w, v, v.live[i].address, t, grant) == Ruling.Commit(i)
  {
    hide Sane, Inv, Replay, Canon, Admit, CanonicalHead, KeyDigest, FindLive;
    var s := Replay(w.genesis, log);
    RootIsAuthenticated(w, v, log, v.grantActor, i);
    FoundAt(w, v, log, i);
    HeadEntryReplays(w, v, log, i);
    GovernanceIsConstant(w.genesis, log);
    RestoredJudgedAlike(w, v.live[i].state, s, t, Writer(s.rootPrincipal, v.grantActor.binding));
  }

  lemma FoundAt(w: World, v: Service, log: seq<Commit>, i: nat)
    requires Inv(w, v, log) && i < |v.live|
    ensures FindLive(v, v.live[i].address) == Some(i)
  {
    hide StoreHolds, KeysHold, Anchored;
  }

  lemma HeadEntryReplays(w: World, v: Service, log: seq<Commit>, i: nat)
    requires Sane(w) && Inv(w, v, log) && PromotedAtHead(v, i)
    ensures Canon(v.live[i].state) == Canon(Replay(w.genesis, log))
  {
    hide Sane, StoreHolds, KeysHold, Anchored, Replay, Canon;
    EntryAtHead(w, v.store, log, v.live[i]);
  }

  /** ... and it is applied; the history extends by it exactly when it changes the image. */
  lemma AdmittedIsApplied(w: World, v: Service, log: seq<Commit>, t: ContextTransaction, i: nat, grant: Grant)
    requires Ready(w, v, log, t, i, grant) && Sized(w.layout, Successor(Replay(w.genesis, log), t))
    ensures var (u, reply) := Step(w, v, WriteOf(v, t, i, grant));
      var longer := log + [Commit.Commit(t, v.grantActor.binding)];
      && Fits(w, v, WriteOf(v, t, i, grant)) && reply.Written? && reply.verdict.outcome.Applied?
      && u.store.revisions != [] && |u.live| == |v.live| && PromotedAtHead(u, i) && u.activeGrant == v.activeGrant
      && u.receipts.Keys <= v.receipts.Keys + (if t.idempotencyKey == [] then {} else {t.idempotencyKey})
      && Logged(w, v, log, WriteOf(v, t, i, grant)) == (if Image(w, longer) == Image(w, log) then log else longer)
      && (Image(w, longer) == Image(w, log) ==> u.store == v.store)
  {
    hide Sane, Inv, Replay, Canon, Admitted, WriteRuling, Sized, Successor, FreshKey, Image, KeyDigest, SnapshotDigest,
      Mint, Serialize;
    AdmittedPassesGates(w, v, log, t, i, grant);
    SuccessorImage(w, v, log, t, i, grant);
    InvLastImage(w, v, log);
  }

  lemma InvLastImage(w: World, v: Service, log: seq<Commit>)
    requires Inv(w, v, log) && v.store.revisions != []
    ensures v.store.revisions[|v.store.revisions| - 1].1 == Image(w, log)
  {
    hide StoreHolds, LiveHolds, KeysHold, Image;
    LastImage(w, v.store, log);
  }

  lemma SuccessorImage(w: World, v: Service, log: seq<Commit>, t: ContextTransaction, i: nat, grant: Grant)
    requires Ready(w, v, log, t, i, grant) && Sized(w.layout, Successor(Replay(w.genesis, log), t))
    ensures Serialize(w.layout, Successor(v.live[i].state, t)) == Image(w, log + [Commit.Commit(t,
      v.grantActor.binding)])
    ensures Sized(w.layout, Successor(v.live[i].state, t))
  {
    hide Sane, Inv, Replay, Canon, Admitted, Successor, FreshKey, Serialize, Admit;
    HeadEntryReplays(w, v, log, i);
    LedgerStep(w, log, Commit.Commit(t, v.grantActor.binding));
    RestoredJudgedAlike(w, v.live[i].state, Replay(w.genesis, log), t, Writer([], []));
    SerializeCanon(w.layout, Successor(v.live[i].state, t));
    SerializeCanon(w.layout, Successor(Replay(w.genesis, log), t));
  }

  // ---- the whole cycle ----

  function Opened(w: World, v: Service): Service { Step(w, v, OpenRemote(NO_REVISION)).0 }

  /** In every reachable state with a free lease and a readable head, the root principal can open the head, take the
      lease and have any transaction that the replayed history admits applied at once. */
  lemma AdmittedCanBeApplied(w: World, v: Service, log: seq<Commit>, t: ContextTransaction, actor: Actor)
    requires Sane(w) && Inv(w, v, log) && v.store.revisions != [] && WithinLimits(w.layout, Replay(w.genesis, log))
    requires v.activeGrant == [] && Verifies(actor, w.genesis)
    requires t.base == v.store.head && FreshKey(v, t) && Admitted(w, Replay(w.genesis, log), Commit.Commit(t,
      actor.binding))
    requires Sized(w.layout, Successor(Replay(w.genesis, log), t))
    ensures var u := Leased(w, Opened(w, v), actor);
      WriteStep(w, u, v.nextAddress, t, LeaseOf(Opened(w, v), actor), Acknowledged).1.outcome.Applied?
  {
    hide Sane, Inv, Replay, WithinLimits, Admitted, WriteStep, Sized, Successor, HeadEntry, WriteRuling, Leased,
      OpenRemoteStep;
    var o := Opened(w, v);
    HeadOpens(w, v, log);
    StepKeeps(w, v, log, OpenRemote(NO_REVISION));
    HeadEntryStands(w, v, log);
    LeaseIsTaken(w, o, log, actor, |v.live|);
    AdmittedIsApplied(w, Leased(w, o, actor), log, t, |v.live|, LeaseOf(o, actor));
  }

  lemma HeadEntryStands(w: World, v: Service, log: seq<Commit>)
    ensures var m := HeadEntry(w, v, log);
      m.revision == v.store.head && m.quarantine.Promoted? && m.address == v.nextAddress && m.state == Canon(Replay(w.genesis, log))
  {
    hide Replay, Canon;
  }
}
