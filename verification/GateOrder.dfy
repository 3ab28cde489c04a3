/** The gates of a write in the order the header lists them, against the order of the code, which resolves the
    idempotency key first (include/qiven/context/persistence.hpp and write_to_cognition in src/persistence.cpp). */
module GateOrder {
  import opened Prelude
  import opened Cognition
  import opened SnapshotCodecLaws
  import opened Transactions
  import opened Gates
  import opened Ledger
  import opened Genesis
  import opened Service
  import opened Reachable
  import opened ServiceLaws
  import opened Progress
  import opened Realization

  /** The gates listed before the key: the first that refuses. `unknown` is the refusal of a handle that is not live. */
  function EarlyRefusal(w: World, v: Service, handle: Handle, grant: Grant,
      unknown: RefusalReason): Option<RefusalReason>
  {
    match FindLive(v, handle)
    case None => Some(unknown)
    case Some(i) =>
      if !v.live[i].quarantine.Promoted? then Some(GovernanceDenied)
      else if v.activeGrant == [] || v.activeGrant != grant.id then Some(GrantRefused)
      else
        var head := CanonicalHead(w, v);
        if head.None? || !Verifies(v.grantActor, head.value) then Some(UnverifiedActor) else None
  }

  /** Handle, grant and actor, then the key, then the rest. */
  function ListedRuling(w: World, v: Service, handle: Handle, t: ContextTransaction, grant: Grant,
      unknown: RefusalReason): Ruling
  {
    match EarlyRefusal(w, v, handle, grant, unknown)
    case Some(reason) => Answer(Refuse(reason))
    case None =>
      var i := FindLive(v, handle).value;
      if !FreshKey(v, t) then Answer(Recorded(w, v, t))
      else
        match Judge(w, v.live[i], CanonicalHead(w, v), v.grantActor, t, grant.mode)
        case Some(verdict) => Answer(verdict)
        case None => Ruling.Commit(i)
  }

  // ---- recorded answers are never refusals ----

  predicate NoRefusalRecorded(receipts: map<Str, Receipt>) {
    forall key :: key in receipts ==> !receipts[key].outcome.outcome.Refused?
  }

  lemma NoRefusalStep(w: World, v: Service, e: Event)
    requires NoRefusalRecorded(v.receipts)
    ensures NoRefusalRecorded(Step(w, v, e).0.receipts)
  {
    hide Serialize, Successor, Judge, CanonicalHead, KeyDigest, SnapshotDigest, Find, CompareAndSwap, Authenticated,
      Deserialize, GrantName, FindLive;
    match e
    case Write(handle, t, grant, delivery) =>
      var ruling := WriteRuling(w, v, handle, t, grant);
      if ruling.Commit? {
        CommitShape(w, v, ruling.entry, t, delivery);
        hide CommitStep, SuccessorEntry;
      }
    case _ =>
  }

  lemma {:induction false} RunsRecordNoRefusal(w: World, es: seq<Event>)
    ensures NoRefusalRecorded(Run(w, es).receipts)
  {
    if es != [] {
      hide Step, NoRefusalRecorded;
      RunsRecordNoRefusal(w, es[..|es| - 1]);
      NoRefusalStep(w, Run(w, es[..|es| - 1]), es[|es| - 1]);
    } else {
      assert START.receipts == map[];
    }
  }

  // ---- where the orders part ----

  lemma RulingsDifferExactly(w: World, v: Service, handle: Handle, t: ContextTransaction, grant: Grant,
      unknown: RefusalReason)
    requires NoRefusalRecorded(v.receipts) && unknown != KeyConflict
    ensures WriteRuling(w, v, handle, t, grant) != ListedRuling(w, v, handle, t, grant, unknown) <==>
      || (!FreshKey(v, t) && EarlyRefusal(w, v, handle, grant, unknown).Some?)
      || (FindLive(v, handle).None? && unknown != StaleBase)
  {
    hide Admit, CanonicalHead, KeyDigest, FindLive, Verifies;
    assert !FreshKey(v, t) ==> t.idempotencyKey in v.receipts;
  }

  /** In every run the code rules on a write as the header lists the gates, except exactly when an answer is recorded
      for the key and a gate listed before the key refuses: the code gives the recorded answer instead. */
  lemma OrdersDifferExactly(w: World, es: seq<Event>, handle: Handle, t: ContextTransaction, grant: Grant)
    ensures var v := Run(w, es);
      WriteRuling(w, v, handle, t, grant) != ListedRuling(w, v, handle, t, grant, StaleBase) <==>
        !FreshKey(v, t) && EarlyRefusal(w, v, handle, grant, StaleBase).Some?
  {
    hide Run, WriteRuling, ListedRuling, EarlyRefusal, NoRefusalRecorded, FreshKey;
    RunsRecordNoRefusal(w, es);
    RulingsDifferExactly(w, Run(w, es), handle, t, grant, StaleBase);
  }

  /** The header moreover lists `GovernanceDenied` for a handle that is not live, where the code says `StaleBase`: read
      so, the two differ there too, and nowhere else. */
  lemma ReasonsDifferExactly(w: World, es: seq<Event>, handle: Handle, t: ContextTransaction, grant: Grant)
    ensures var v := Run(w, es);
      WriteRuling(w, v, handle, t, grant) != ListedRuling(w, v, handle, t, grant, GovernanceDenied) <==>
        FindLive(v, handle).None? || (!FreshKey(v, t) && EarlyRefusal(w, v, handle, grant, GovernanceDenied).Some?)
  {
    hide Run, WriteRuling, ListedRuling, EarlyRefusal, NoRefusalRecorded, FreshKey, FindLive;
    RunsRecordNoRefusal(w, es);
    RulingsDifferExactly(w, Run(w, es), handle, t, grant, GovernanceDenied);
  }

  // ---- what a caller sees ----

  /** The request is answered with a success and its live successor, although no lease is held, so that a gate listed
      before the key refuses; and nothing changes. */
  predicate AnsweredAnyway(w: World, v: Service, again: Event) {
    && again.Write? && v.activeGrant == [] && EarlyRefusal(w, v, again.handle, again.grant, StaleBase).Some?
    && Step(w, v, again).0 == v && Step(w, v, again).1.Written?
    && Step(w, v, again).1.verdict.outcome.Applied? && FindLive(v, Step(w, v, again).1.verdict.successor).Some?
  }

  lemma WithoutLease(w: World, v: Service, handle: Handle, grant: Grant)
    requires v.activeGrant == []
    ensures EarlyRefusal(w, v, handle, grant, StaleBase).Some?
  {
    hide FindLive, CanonicalHead;
  }

  /** A keyed write, acknowledged and released, leaves its answer behind for whoever sends the request again. */
  lemma AnswerStaysBehind(w: World, v: Service, log: seq<Commit>, t: ContextTransaction, i: nat, grant: Grant,
      again: Event)
    requires Ready(w, v, log, t, i, grant) && Sized(w.layout, Successor(Replay(w.genesis, log), t))
    requires t.idempotencyKey != [] && again.Write? && again.txn == t
    ensures AnsweredAnyway(w, Step(w, Step(w, v, WriteOf(v, t, i, grant)).0, Release(grant)).0, again)
  {
    hide Sane, Inv, Replay, Admitted, Sized, Successor, AtHead, WriteRuling, CommitStep, Verifies, EarlyRefusal, Logged;
    var e := WriteOf(v, t, i, grant);
    AdmittedIsApplied(w, v, log, t, i, grant);
    AdmittedPassesGates(w, v, log, t, i, grant);
    var (u, reply) := Step(w, v, e);
    AppliedLeavesAnswer(w, v, e, i);
    hide Step, FindLive;
    ReleaseFrees(w, u, grant);
    var r := Step(w, u, Release(grant)).0;
    ReplayedByKey(w, r, again);
    FoundStill(u, r, reply.verdict.successor);
    WithoutLease(w, r, again.handle, again.grant);
  }

  lemma FoundStill(u: Service, r: Service, handle: Handle)
    requires u.live == r.live
    ensures FindLive(u, handle) == FindLive(r, handle)
  {
  }

  lemma AppliedLeavesAnswer(w: World, v: Service, e: Event, i: nat)
    requires e.Write? && e.txn.idempotencyKey != [] && Step(w, v, e).1.verdict.outcome.Applied?
    requires WriteRuling(w, v, e.handle, e.txn, e.grant) == Ruling.Commit(i)
    ensures var (u, reply) := Step(w, v, e);
      && e.txn.idempotencyKey in u.receipts
      && u.receipts[e.txn.idempotencyKey] == Receipt(RequestDigest(w, e.txn), reply.verdict)
      && FindLive(u, reply.verdict.successor).Some?
  {
    hide Serialize, Successor, WriteRuling, RequestDigest, SnapshotDigest, Deliver;
    var (u, reply) := Step(w, v, e);
    assert u.live[i].address == reply.verdict.successor;
  }

  lemma AnsweredAfterExtending(w: World, v: Service, log: seq<Commit>, c: Commit, again: Event)
    requires Sane(w) && Inv(w, v, log) && v.store.revisions != [] && v.activeGrant == [] && Extends(w, log, c)
    requires |v.live| == 1 && PromotedAtHead(v, 0) && forall key :: key in v.receipts ==> KeyUsed(log, key)
    requires c.txn.idempotencyKey != [] && again.Write? && again.txn == c.txn
    ensures AnsweredAnyway(w, Extended(w, v, c), again)
  {
    hide Sane, Inv, Step, Replay, Sized, Successor, KeyUsed, Ready, Admitted, HeadId, Image, AnsweredAnyway, WriterOf,
        AtHead,
      Verifies;
    LeasedIsReady(w, v, log, c);
    var leased, grant := Leased(w, v, WriterOf(w, c.author)), LeaseOf(v, WriterOf(w, c.author));
    LeaseIsTaken(w, v, log, WriterOf(w, c.author), 0);
    AnswerStaysBehind(w, leased, log, c.txn, 0, grant, again);
  }

  /** Any run at rest can be extended by one keyed commit, after which its request is answered without a lease,
      whatever handle and grant it comes with. */
  lemma AnsweredWithoutLease(w: World, es: seq<Event>, log: seq<Commit>, c: Commit, again: Event)
      returns (longer: seq<Event>)
    requires Sane(w) && Realizes(w, es, log) && Extends(w, log, c)
    requires c.txn.idempotencyKey != [] && again.Write? && again.txn == c.txn
    ensures es <= longer && Realizes(w, longer, log + [c]) && AnsweredAnyway(w, Run(w, longer), again)
    ensures Held(w, longer, LeaseOf(Run(w, es), WriterOf(w, c.author)))
  {
    hide *;
    longer := ExtendedRun(w, es, log, c);
    RealizedIsAtRest(w, es, log);
    AnsweredAfterExtending(w, Run(w, es), log, c, again);
  }
}
