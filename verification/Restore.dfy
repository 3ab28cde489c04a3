/** Restoring loses two fields of some records; no call to the service can tell. */
module Restore {
  import opened Prelude
  import opened Cognition
  import opened SnapshotCodecLaws
  import opened Transactions
  import opened Gates
  import opened Service

  /** Equal but for what a restore of the live snapshots would reset. */
  predicate Similar(a: Service, b: Service) {
    && a == b.(live := a.live) && |a.live| == |b.live|
    && forall i :: 0 <= i < |a.live| ==> SimilarEntry(a.live[i], b.live[i])
  }

  predicate SimilarEntry(m: Materialization, n: Materialization) {
    m == n.(state := m.state) && Canon(m.state) == Canon(n.state)
  }

  predicate SimilarOption(s: Option<Snapshot>, u: Option<Snapshot>) {
    if s.Some? then u.Some? && Canon(s.value) == Canon(u.value) else u.None?
  }

  lemma FindLiveSimilar(a: Service, b: Service, handle: Handle)
    requires Similar(a, b)
    ensures FindLive(a, handle) == FindLive(b, handle)
  {
    FindAgrees(a.live, (m: Materialization) => m.address == handle, b.live,
        (m: Materialization) => m.address == handle);
  }

  lemma HeadSimilar(w: World, a: Service, b: Service)
    requires Similar(a, b)
    ensures SimilarOption(CanonicalHead(w, a), CanonicalHead(w, b))
  {
    hide Canon, Serialize, Deserialize, Materialize;
    var p := (m: Materialization) => m.revision == a.store.head && m.quarantine.Promoted?;
    FindAgrees(a.live, p, b.live, p);
    FindAgrees(b.live, p, b.live, (m: Materialization) => m.revision == b.store.head && m.quarantine.Promoted?);
    FindAgrees(a.live, p, a.live, (m: Materialization) => m.revision == a.store.head && m.quarantine.Promoted?);
  }

  lemma AuthenticatedSimilar(w: World, a: Service, b: Service, actor: Actor)
    requires Similar(a, b)
    ensures Authenticated(w, a, actor) == Authenticated(w, b, actor)
    ensures CanonicalHead(w, a).Some? ==>
      CanonicalHead(w, b).Some? && CanonicalHead(w, a).value.rootPrincipal == CanonicalHead(w, b).value.rootPrincipal
  {
    HeadSimilar(w, a, b);
    hide CanonicalHead;
  }

  lemma CommitSimilar(w: World, a: Service, b: Service, i: nat, t: ContextTransaction, delivery: Delivery)
    requires Similar(a, b) && i < |a.live|
    ensures Similar(CommitStep(w, a, i, t, delivery).0, CommitStep(w, b, i, t, delivery).0)
    ensures CommitStep(w, a, i, t, delivery).1 == CommitStep(w, b, i, t, delivery).1
  {
    hide Canon, Serialize, Successor, Deliver, KeyDigest, SnapshotDigest, Admit;
    var x, y := Successor(a.live[i].state, t), Successor(b.live[i].state, t);
    RestoredJudgedAlike(w, a.live[i].state, b.live[i].state, t, Writer([], []));
    SerializeCanon(w.layout, x);
    SerializeCanon(w.layout, y);
  }

  lemma JudgeSimilar(w: World, m: Materialization, n: Materialization, g: Option<Snapshot>, h: Option<Snapshot>,
      actor: Actor, t: ContextTransaction, mode: WorkMode)
    requires SimilarEntry(m, n) && SimilarOption(g, h)
    ensures Judge(w, m, g, actor, t, mode) == Judge(w, n, h, actor, t, mode)
  {
    hide Admit, Successor;
    if g.Some? {
      RestoredJudgedAlike(w, m.state, n.state, t, Writer(g.value.rootPrincipal, actor.binding));
    }
  }

  lemma RulingSimilar(w: World, a: Service, b: Service, handle: Handle, t: ContextTransaction, grant: Grant)
    requires Similar(a, b)
    ensures WriteRuling(w, a, handle, t, grant) == WriteRuling(w, b, handle, t, grant)
  {
    hide KeyDigest, Judge, CanonicalHead, SimilarOption, Canon;
    FindLiveSimilar(a, b, handle);
    HeadSimilar(w, a, b);
    var at := FindLive(a, handle);
    if at.Some? {
      JudgeSimilar(w, a.live[at.value], b.live[at.value], CanonicalHead(w, a), CanonicalHead(w, b), a.grantActor, t,
          grant.mode);
    }
  }

  lemma WriteSimilar(w: World, a: Service, b: Service, handle: Handle, t: ContextTransaction, grant: Grant,
      delivery: Delivery)
    requires Similar(a, b)
    ensures Similar(WriteStep(w, a, handle, t, grant, delivery).0, WriteStep(w, b, handle, t, grant,
      delivery).0)
    ensures WriteStep(w, a, handle, t, grant, delivery).1 == WriteStep(w, b, handle, t, grant, delivery).1
  {
    RulingSimilar(w, a, b, handle, t, grant);
    var ruling := WriteRuling(w, a, handle, t, grant);
    hide WriteRuling, CommitStep, SimilarEntry;
    if ruling.Commit? {
      CommitSimilar(w, a, b, ruling.entry, t, delivery);
    }
  }

  lemma EnterSimilar(w: World, a: Service, b: Service, bytes: Bytes, revision: RevisionId, quarantine: Quarantine)
    requires Similar(a, b)
    ensures Similar(Enter(w, a, bytes, revision, quarantine).0, Enter(w, b, bytes, revision, quarantine).0)
    ensures Enter(w, a, bytes, revision, quarantine).1 == Enter(w, b, bytes, revision, quarantine).1
  {
    hide Canon, Serialize, Deserialize, SnapshotDigest;
  }

  lemma MoveSimilar(w: World, a: Service, b: Service, handle: Handle, actor: Actor, from: Quarantine, to: Quarantine)
    requires Similar(a, b)
    ensures Similar(MoveStep(w, a, handle, actor, from, to).0, MoveStep(w, b, handle, actor, from, to).0)
    ensures MoveStep(w, a, handle, actor, from, to).1 == MoveStep(w, b, handle, actor, from, to).1
  {
    FindLiveSimilar(a, b, handle);
    AuthenticatedSimilar(w, a, b, actor);
    hide Canon, Authenticated, Find;
  }

  /** Every call answers alike and leaves similar services. */
  lemma StepSimilar(w: World, a: Service, b: Service, e: Event)
    requires Similar(a, b)
    ensures Similar(Step(w, a, e).0, Step(w, b, e).0) && Step(w, a, e).1 == Step(w, b, e).1
  {
    hide WriteStep, MoveStep, Enter, SimilarEntry, Authenticated, CompareAndSwap, Materialize, Serialize, ContentId;
    match e
    case OpenRemote(revision) =>
      var id := if revision.IsEmpty() then a.store.head else revision;
      var founding := Serialize(w.layout, w.genesis);
      var (store, receipt) := CompareAndSwap(w, a.store, NO_REVISION, founding);
      EnterSimilar(w, a.(store := store), b.(store := store), founding,
          if receipt.Committed? then receipt.revision else NO_REVISION, Promoted);
      EnterSimilar(w, a, b, Materialize(a.store, id), id, Promoted);
    case OpenArtifact(bytes, _) => EnterSimilar(w, a, b, bytes, NO_REVISION, Isolated);
    case Acquire(actor, _) => AuthenticatedSimilar(w, a, b, actor);
    case Release(_) =>
    case Write(handle, t, grant, delivery) => WriteSimilar(w, a, b, handle, t, grant, delivery);
    case Retire(handle) => FindLiveSimilar(a, b, handle);
    case VerifyRestored(handle, actor) => MoveSimilar(w, a, b, handle, actor, Isolated, Quarantine.Verified);
    case PromoteAuthority(handle, actor) => MoveSimilar(w, a, b, handle, actor, AuthorityPending, Promoted);
  }

  /** The answers of a service to a sequence of calls. */
  function Replies(w: World, v: Service, es: seq<Event>): seq<Reply>
    decreases es
  {
    if es == [] then [] else [Step(w, v, es[0]).1] + Replies(w, Step(w, v, es[0]).0, es[1..])
  }

  function AfterAll(w: World, v: Service, es: seq<Event>): Service
    decreases es
  {
    if es == [] then v else AfterAll(w, Step(w, v, es[0]).0, es[1..])
  }

  lemma {:induction false} RunsSimilar(w: World, a: Service, b: Service, es: seq<Event>)
    requires Similar(a, b)
    ensures Replies(w, a, es) == Replies(w, b, es) && Similar(AfterAll(w, a, es), AfterAll(w, b, es))
    decreases es
  {
    if es != [] {
      hide Step, Similar;
      StepSimilar(w, a, b, es[0]);
      RunsSimilar(w, Step(w, a, es[0]).0, Step(w, b, es[0]).0, es[1..]);
    }
  }

  /** Replacing a live snapshot by its restored form never shows: every later sequence of calls gets the same
      answers and stores the same images under the same revisions. */
  lemma LossyRestoreIsInvisible(w: World, v: Service, i: nat, es: seq<Event>)
    requires i < |v.live|
    ensures var restored := v.(live := v.live[i := v.live[i].(state := Canon(v.live[i].state))]);
      Replies(w, restored, es) == Replies(w, v, es) && AfterAll(w, restored, es).store == AfterAll(w, v, es).store
  {
    var restored := v.(live := v.live[i := v.live[i].(state := Canon(v.live[i].state))]);
    CanonIdempotent(v.live[i].state);
    assert Similar(restored, v);
    RunsSimilar(w, restored, v, es);
  }
}
