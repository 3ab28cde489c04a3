/** What a work cycle tells the session: field by field, and the recovery the founding policy mandates for each reason
    (LLM::work_impl in src/runtime.cpp, recovery_for and makeDefaultPolicy in src/persistence.cpp). */
module WorkerLaws {
  import opened Prelude
  import opened Cognition
  import opened Text
  import opened Transactions
  import opened Gates
  import opened Genesis
  import opened Service
  import opened Worker
  import Verdicts

  // ---- the recovery table ----

  /** Rule `k` is the first for the reason. */
  predicate FirstRule(s: Snapshot, reason: RefusalReason, k: nat) {
    k < |s.policy.recovery| && s.policy.recovery[k].reason == reason
        && forall j :: 0 <= j < k ==> s.policy.recovery[j].reason != reason
  }

  /** The first rule for the reason decides; without one, fail closed. */
  lemma FirstRuleDecides(s: Snapshot, reason: RefusalReason)
    ensures forall k: nat :: FirstRule(s, reason, k) ==> RecoveryFor(s, reason) == s.policy.recovery[k].action
    ensures (forall k :: 0 <= k < |s.policy.recovery| ==> s.policy.recovery[k].reason != reason) ==>
      RecoveryFor(s, reason) == FailClosed
  {
    var at := Find(s.policy.recovery, (rule: RecoveryRule) => rule.reason == reason);
    forall k: nat | FirstRule(s, reason, k) ensures at == Some(k) {
      assert at.Some?;
    }
  }

  /** What a participant is told to do next, reason by reason, under the founding policy. */
  function ToldNext(reason: RefusalReason): string {
    match reason
    case StaleBase => "re-read, re-think; never blind-retry"
    case HandoffMissing => "halt; escalate for typed handoff; retry is forbidden"
    case HandoffInvalid => "halt; escalate for typed handoff; retry is forbidden"
    case UnverifiedActor => "halt; escalate for typed handoff; retry is forbidden"
    case UnattendedMutation => "defer to a supervised session"
    case InvariantFailed => "design review required (constitution 17)"
    case OutcomeUnresolved => "outcome unknown; dependent mutations stopped"
    case _ => "fail closed"
  }

  function Mandated(reason: RefusalReason): RecoveryAction {
    match reason
    case StaleBase => RereadRethink
    case HandoffMissing | HandoffInvalid | UnverifiedActor => HaltEscalate
    case UnattendedMutation => DeferToSupervised
    case InvariantFailed => DesignReview
    case OutcomeUnresolved => Block
    case _ => FailClosed
  }

  lemma RuleOf(reason: RefusalReason, k: nat)
    requires k < |DEFAULT_RECOVERY| && DEFAULT_RECOVERY[k].reason == reason
    ensures DEFAULT_RECOVERY[k].action == Mandated(reason)
  {
  }

  lemma ToldAsMandated(reason: RefusalReason)
    ensures NextAction(Mandated(reason)) == Ascii(ToldNext(reason))
  {
    hide Ascii;
    match reason
    case StaleBase => assert Mandated(reason) == RereadRethink;
    case HandoffMissing | HandoffInvalid | UnverifiedActor => assert Mandated(reason) == HaltEscalate;
    case UnattendedMutation => assert Mandated(reason) == DeferToSupervised;
    case InvariantFailed => assert Mandated(reason) == DesignReview;
    case OutcomeUnresolved => assert Mandated(reason) == Block;
    case _ => assert Mandated(reason) == FailClosed;
  }

  /** Under the founding policy every reason has its recovery. */
  lemma FoundingRecovery(s: Snapshot, reason: RefusalReason)
    requires s.policy == MakeGenesis().policy
    ensures RecoveryFor(s, reason) == Mandated(reason)
    ensures NextAction(RecoveryFor(s, reason)) == Ascii(ToldNext(reason))
  {
    hide Ascii, MakeArticles, DefaultRules, NextAction, ToldNext, Mandated;
    ToldAsMandated(reason);
    DefaultRecoveryCovers(reason);
    var at := Find(s.policy.recovery, (rule: RecoveryRule) => rule.reason == reason);
    assert at.Some?;
    RuleOf(reason, at.value);
  }

  lemma RowOf(c: OperationClass) returns (k: nat)
    ensures k < |DEFAULT_HANDOFF| && DEFAULT_HANDOFF[k].opClass == c
  {
    k := match c
      case DecisionAcceptance => 0 case MemoryWrite => 1 case ObligationWrite => 2 case StateUpdate => 3
      case ConflictWrite => 4 case EvidenceWrite => 5;
  }

  lemma ReviewedRows(k: nat)
    requires k < |DEFAULT_HANDOFF|
    ensures DEFAULT_HANDOFF[k].required == Handoff.Review <==> DEFAULT_HANDOFF[k].opClass == DecisionAcceptance
  {
  }

  /** Under the founding policy every operation is governed, and exactly the two that change decisions need a review. */
  lemma FoundingHandoff(s: Snapshot, kind: OperationKind)
    requires s.policy == MakeGenesis().policy
    ensures Verdicts.Governed(s, kind)
    ensures Verdicts.NeedsReview(s, kind) <==> kind in {AppendDecision, SupersedeDecision}
  {
    hide Ascii, MakeArticles, DefaultRules, Verdicts.Governed, Verdicts.NeedsReview;
    assert s.policy.handoff == DEFAULT_HANDOFF;
    Verdicts.GoverningRow(s, kind);
    var k := RowOf(ClassOf(kind));
    var row := Find(s.policy.handoff, (row: HandoffPolicy) => row.opClass == ClassOf(kind));
    assert row.Some?;
    ReviewedRows(row.value);
  }

  // ---- the cycle ----

  /** The session after an answer to its proposal: on success it is bound to the successor and has its revision
      accepted; otherwise it stays where it is, keeps the base as unaccepted and is told what to do, and only an
      unknown outcome leaves a gap in the evidence. Exactly the recovery by re-reading parks the proposal. */
  lemma SettledExactly(session: Session, turn: Turn, t: ContextTransaction, verdict: Verdict)
    ensures var u := Settled(session, turn, t, verdict);
      var c, d := session.checkpoint, u.checkpoint;
      var parks := !verdict.outcome.Applied? && RecoveryFor(turn.pinned(session.handle).state,
          verdict.reason).RereadRethink?;
      && u.name == session.name && d.servingDisclosure == c.servingDisclosure
      && u.handle == (if verdict.outcome.Applied? then verdict.successor else session.handle)
      && u.parkedDeltas == (if parks then session.parkedDeltas + [t] else session.parkedDeltas)
      && d.knownGaps == (if parks then Ascii("delta parked: admission gate refused") else c.knownGaps)
      && d.evidenceGaps == c.evidenceGaps
           + (if verdict.outcome.Unknown? then [Ascii("commit outcome for key ") + t.idempotencyKey] else [])
      && if verdict.outcome.Applied? then
           && d.acceptedRefs == c.acceptedRefs + [turn.pinned(verdict.successor).revision]
           && d.unacceptedCandidates == c.unacceptedCandidates && d.lastTrigger == MaterialTransaction
           && d.nextAction == Ascii("continue")
         else
           && d.acceptedRefs == c.acceptedRefs && d.unacceptedCandidates == c.unacceptedCandidates + [t.base]
           && d.lastTrigger == c.lastTrigger
           && d.nextAction == NextAction(RecoveryFor(turn.pinned(session.handle).state, verdict.reason))
  {
    hide Ascii, NextAction, RecoveryFor;
  }

  /** The actor gets the lease. */
  predicate GetsLease(w: World, v: Service, turn: Turn) { v.activeGrant == [] && Authenticated(w, v, turn.actor) }

  /** A cycle by its cases: nothing bound, no lease, nothing to write, and a write under the next lease, of exactly the
      proposal on the revision of the pinned snapshot, settled by the answer the service gives to it. */
  lemma CycleByCases(w: World, v: Service, session: Session, turn: Turn)
    ensures var (u, after) := WorkStep(w, v, session, turn);
      var c, d := session.checkpoint, after.checkpoint;
      if session.handle == 0 then (u, after) == (v, session)
      else if !GetsLease(w, v, turn) then
        && u == v && after == session.(checkpoint := d)
        && d == c.(lastTrigger := TurnBoundary, nextAction := Ascii("fail closed: a competing flow holds the chain"))
      else
        var m := turn.pinned(session.handle);
        var t := turn.generate(m.state);
        var leased := Step(w, v, Acquire(turn.actor, turn.mode)).0;
        var grant := NextGrant(v, turn.actor, turn.mode);
        var served := c.(servingDisclosure := turn.actor.servingModel + Ascii("/") + turn.actor.binding);
        if t.operations == [] then
          && u == Step(w, leased, Release(grant)).0
          && after == session.(checkpoint := served.(nextAction := Ascii("continue")))
        else
          var (written, reply) := Step(w, leased, Write(session.handle, t.(base := m.revision), grant, turn.delivery));
          && reply.Written? && u == Step(w, written, Release(grant)).0
          && after == Settled(session.(checkpoint := served), turn, t.(base := m.revision), reply.verdict)
  {
    hide Ascii, NextAction, Settled, WriteStep, Authenticated, GrantName;
  }
}
