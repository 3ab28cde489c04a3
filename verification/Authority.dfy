/** Who may do what, over whole runs: leases, commits and moves out of quarantine are the root principal's alone
    (acquire_grant, the actor check of write_to_cognition, verify_restored and promote_authority in
    src/persistence.cpp). */
module Authority {
  import opened Prelude
  import opened Cognition
  import opened SnapshotCodecLaws
  import opened Transactions
  import opened Gates
  import opened Ledger
  import opened Genesis
  import opened Service
  import opened Reachable
  import opened ServiceLaws

  /** The root principal of the founding snapshot, under a binding and with a serving model. */
  predicate IsRoot(w: World, actor: Actor) {
    actor.principal == w.genesis.rootPrincipal != [] && actor.binding != [] && actor.servingModel != []
  }

  /** The root principal never changes. */
  lemma HeadRoot(w: World, v: Service, log: seq<Commit>)
    requires Sane(w) && Inv(w, v, log) && CanonicalHead(w, v).Some?
    ensures CanonicalHead(w, v).value.rootPrincipal == w.genesis.rootPrincipal != []
  {
    HeadIsReplay(w, v, log);
    hide Inv, CanonicalHead, Replay, CollisionFree;
    GovernanceIsConstant(w.genesis, log);
  }

  // ---- one call ----

  /** A lease is granted exactly when none is held, there is a canonical head, and the actor is the root principal. It
      carries the actor's principal, the current epoch and the mode asked for. */
  lemma GrantedExactlyToRoot(w: World, v: Service, log: seq<Commit>, actor: Actor, mode: WorkMode)
    requires Sane(w) && Inv(w, v, log)
    ensures var (u, reply) := Step(w, v, Acquire(actor, mode));
      && reply.Granted?
      && (reply.grant.Some? <==> v.activeGrant == [] && CanonicalHead(w, v).Some? && IsRoot(w, actor))
      && (reply.grant.None? ==> u == v)
      && (reply.grant.Some? ==>
            && reply.grant.value.principal == actor.principal && reply.grant.value.mode == mode
            && reply.grant.value.epoch == v.epoch && reply.grant.value.id == u.activeGrant && u.grantActor == actor)
  {
    RootAuthenticates(w, v, log, actor);
    hide Sane, Inv, CanonicalHead, GrantName, Authenticated, IsRoot;
  }

  predicate IsolatedAt(v: Service, i: nat, handle: Handle)
    requires i < |v.live|
  {
    v.live[i].address == handle && v.live[i].quarantine.Isolated?
  }

  /** Entry `i` has left its quarantine for the state Verified, under the next address; nothing else changed. */
  predicate VerifiedAt(v: Service, u: Service, i: nat)
    requires i < |v.live|
  {
    && u == v.(live := u.live, nextAddress := v.nextAddress + 1) && |u.live| == |v.live|
    && u.live[i] == v.live[i].(address := v.nextAddress, quarantine := Quarantine.Verified)
    && forall j :: 0 <= j < |v.live| && j != i ==> u.live[j] == v.live[j]
  }

  predicate Numbered(v: Service) {
    1 <= v.nextAddress && forall i, j :: 0 <= i < j < |v.live| ==> v.live[i].address != v.live[j].address
  }

  lemma VerifiedMove(w: World, v: Service, handle: Handle, actor: Actor)
    requires Numbered(v)
    ensures var (u, reply) := MoveStep(w, v, handle, actor, Isolated, Quarantine.Verified);
      && reply in {Moved(0), Moved(v.nextAddress)}
      && (reply == Moved(v.nextAddress) <==>
            Authenticated(w, v, actor) && exists i :: 0 <= i < |v.live| && IsolatedAt(v, i, handle))
      && (reply == Moved(0) ==> u == v)
      && (forall i :: 0 <= i < |v.live| && IsolatedAt(v, i, handle) && reply != Moved(0) ==> VerifiedAt(v, u, i))
  {
    hide Authenticated;
    forall i | 0 <= i < |v.live| && v.live[i].address == handle ensures FindLive(v, handle) == Some(i) {
      var at := FindLive(v, handle);
      assert at.Some?;
      assert v.live[at.value].address == v.live[i].address;
    }
    var at := FindLive(v, handle);
    if at.Some? && v.live[at.value].quarantine.Isolated? {
      assert IsolatedAt(v, at.value, handle);
    }
  }

  lemma RootAuthenticates(w: World, v: Service, log: seq<Commit>, actor: Actor)
    requires Sane(w) && Inv(w, v, log)
    ensures Authenticated(w, v, actor) <==> CanonicalHead(w, v).Some? && IsRoot(w, actor)
  {
    if CanonicalHead(w, v).Some? {
      HeadRoot(w, v, log);
    }
    hide Sane, Inv, CanonicalHead;
  }

  /** An entry leaves its quarantine only for the root principal: exactly then, and only from Isolated to Verified. It
      gets a new address and keeps everything else; the other entries stay. */
  lemma MovedExactlyByRoot(w: World, v: Service, log: seq<Commit>, handle: Handle, actor: Actor)
    requires Sane(w) && Inv(w, v, log)
    ensures var (u, reply) := Step(w, v, VerifyRestored(handle, actor));
      && reply in {Moved(0), Moved(v.nextAddress)} && v.nextAddress != 0
      && (reply == Moved(v.nextAddress) <==>
            CanonicalHead(w, v).Some? && IsRoot(w, actor) && exists i :: 0 <= i < |v.live| && IsolatedAt(v, i, handle))
      && (reply == Moved(0) ==> u == v)
      && (forall i :: 0 <= i < |v.live| && IsolatedAt(v, i, handle) && reply != Moved(0) ==> VerifiedAt(v, u, i))
  {
    RootAuthenticates(w, v, log, actor);
    hide Sane, StoreHolds, KeysHold, CanonicalHead, Anchored, MoveStep, IsRoot, Authenticated, VerifiedAt;
    VerifiedMove(w, v, handle, actor);
  }

  // ---- whole runs ----

  predicate HolderIsRoot(w: World, v: Service) { v.activeGrant != [] ==> IsRoot(w, v.grantActor) }

  lemma HolderStep(w: World, v: Service, log: seq<Commit>, e: Event)
    requires Sane(w) && Inv(w, v, log) && HolderIsRoot(w, v)
    ensures HolderIsRoot(w, Step(w, v, e).0)
  {
    if e.Acquire? {
      GrantedExactlyToRoot(w, v, log, e.actor, e.mode);
    }
    hide Sane, Inv, Step, IsRoot;
    var (u, reply) := Step(w, v, e);
    GenerationStep(w, v, e, u, reply);
  }

  /** Whenever a lease is held, the root principal holds it. */
  lemma {:induction false} LeaseIsRoots(w: World, es: seq<Event>)
    requires Sane(w) && AllFit(w, es)
    ensures HolderIsRoot(w, Run(w, es))
  {
    if es != [] {
      hide Sane, Inv, Step, FitsAt, HolderIsRoot, AllFit;
      var init := es[..|es| - 1];
      AllFitPrefix(w, es, |es| - 1);
      LeaseIsRoots(w, init);
      RunsHold(w, init);
      HolderStep(w, Run(w, init), RunLog(w, init), es[|es| - 1]);
    }
  }

  /** The reply gives something: a lease, a commit or a move. */
  predicate Gives(w: World, es: seq<Event>, k: nat)
    requires k < |es|
  {
    var v := Run(w, es[..k]);
    var (u, reply) := Step(w, v, es[k]);
    match reply
    case Granted(grant) => grant.Some?
    case Moved(handle) => handle != 0
    case Written(_) => u != v
    case _ => false
  }

  /** Who it is given to: the actor of the call, or for a write the holder of the lease. */
  function Given(w: World, es: seq<Event>, k: nat): Actor
    requires k < |es|
  {
    match es[k]
    case Acquire(actor, _) => actor
    case VerifyRestored(_, actor) => actor
    case PromoteAuthority(_, actor) => actor
    case _ => Run(w, es[..k]).grantActor
  }

  lemma GivenInStep(w: World, v: Service, log: seq<Commit>, e: Event)
    requires Sane(w) && Inv(w, v, log)
    ensures Step(w, v, e).1.Granted? && Step(w, v, e).1.grant.Some? ==> e.Acquire? && IsRoot(w, e.actor)
    ensures Step(w, v, e).1.Moved? && Step(w, v, e).1.handle != 0 ==> e.VerifyRestored? && IsRoot(w, e.actor)
    ensures Step(w, v, e).1.Written? && Step(w, v, e).0 != v ==> e.Write? && v.activeGrant == e.grant.id != []
  {
    hide Sane, Inv, IsRoot, CanonicalHead, Enter, WriteStep, Materialize, CompareAndSwap, GrantName, Deserialize,
      Authenticated, FindLive, OpenRemoteStep, OpenArtifactStep;
    match e
    case Acquire(actor, mode) => GrantedExactlyToRoot(w, v, log, actor, mode);
    case VerifyRestored(handle, actor) => MovedExactlyByRoot(w, v, log, handle, actor);
    case PromoteAuthority(handle, actor) => MoveKeeps(w, v, log, handle, actor);
    case Write(_, _, _, _) =>
      if v.activeGrant == [] || e.grant.id != v.activeGrant {
        StaleGrantChangesNothing(w, v, e);
      }
    case OpenRemote(_) => OpensOnly(w, v, e);
    case OpenArtifact(_, _) => OpensOnly(w, v, e);
    case _ =>
  }

  lemma OpensOnly(w: World, v: Service, e: Event)
    requires e.OpenRemote? || e.OpenArtifact?
    ensures Step(w, v, e).1.Opened?
  {
    hide Materialize, CompareAndSwap, Deserialize, Serialize, SnapshotDigest, ContentId;
  }

  /** In every run, whatever any call gives goes to the root principal. */
  lemma OnlyToTheRoot(w: World, es: seq<Event>, k: nat)
    requires Sane(w) && AllFit(w, es) && k < |es| && Gives(w, es, k)
    ensures IsRoot(w, Given(w, es, k))
  {
    hide Sane, Inv, Step, Run, IsRoot, AllFit;
    AllFitPrefix(w, es, k);
    RunsHold(w, es[..k]);
    LeaseIsRoots(w, es[..k]);
    GivenInStep(w, Run(w, es[..k]), RunLog(w, es[..k]), es[k]);
  }

  /** Call `k` sent the transaction, and the root principal held the lease it was written under. */
  predicate WrittenByRoot(w: World, es: seq<Event>, k: nat, c: Commit)
    requires k < |es|
  {
    && es[k].Write? && es[k].txn == c.txn && Run(w, es[..k]).activeGrant == es[k].grant.id != []
    && Run(w, es[..k]).grantActor.binding == c.author && IsRoot(w, Run(w, es[..k]).grantActor)
  }

  lemma LoggedByRoot(w: World, es: seq<Event>)
    requires Sane(w) && AllFit(w, es) && es != [] && RunLog(w, es) != RunLog(w, es[..|es| - 1])
    ensures RunLog(w, es) != [] && WrittenByRoot(w, es, |es| - 1, RunLog(w, es)[|RunLog(w, es)| - 1])
  {
    hide Sane, Inv, Step, IsRoot, AllFit, StoreHolds;
    var init, e := es[..|es| - 1], es[|es| - 1];
    AllFitPrefix(w, es, |es| - 1);
    LeaseIsRoots(w, init);
    if Run(w, init).activeGrant == [] || e.grant.id != Run(w, init).activeGrant {
      StaleGrantChangesNothing(w, Run(w, init), e);
    }
  }

  /** Every commit of every run was written by the root principal, under a lease it held. */
  lemma {:induction false} CommitsAreRoots(w: World, es: seq<Event>, n: nat) returns (k: nat)
    requires Sane(w) && AllFit(w, es) && n < |RunLog(w, es)|
    ensures k < |es| && WrittenByRoot(w, es, k, RunLog(w, es)[n])
  {
    hide Sane, Step, IsRoot, Run, AllFit;
    var init := es[..|es| - 1];
    AllFitPrefix(w, es, |es| - 1);
    if n < |RunLog(w, init)| {
      k := CommitsAreRoots(w, init, n);
      assert init[..k] == es[..k];
    } else {
      LoggedByRoot(w, es);
      k := |es| - 1;
    }
  }
}
