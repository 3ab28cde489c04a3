/** The causal work cycle: lease, gated write, release, and the recovery the policy table mandates
    (LLM::work_impl in src/runtime.cpp, recovery_for in src/persistence.cpp). */
module Worker {
  import opened Prelude
  import opened Cognition
  import opened SnapshotLayout
  import opened Text
  import opened Transactions
  import opened Gates
  import opened GateChecks
  import opened Genesis
  import opened Service
  import opened QivenContext

  /** The first rule for the reason; without one, fail closed. */
  function RecoveryFor(s: Snapshot, reason: RefusalReason): RecoveryAction {
    match Find(s.policy.recovery, (rule: RecoveryRule) => rule.reason == reason)
    case None => FailClosed
    case Some(i) => s.policy.recovery[i].action
  }

  datatype Trigger = TurnBoundary | MaterialTransaction

  datatype Checkpoint = Checkpoint(lastTrigger: Trigger, nextAction: Str, servingDisclosure: Str,
    acceptedRefs: seq<RevisionId>, unacceptedCandidates: seq<RevisionId>, evidenceGaps: seq<Str>, knownGaps: Str)

  /** The session's state: its pinned handle (0: none bound), its checkpoint and its parked deltas. */
  datatype Session = Session(name: Str, handle: Handle, checkpoint: Checkpoint, parkedDeltas: seq<ContextTransaction>)

  function RefusalName(reason: RefusalReason): Str {
    Ascii(match reason
      case GrantRefused => "grant-refused"
      case UnverifiedActor => "unverified-actor"
      case StaleBase => "stale-base"
      case HandoffMissing => "handoff-missing"
      case HandoffInvalid => "handoff-invalid"
      case UnattendedMutation => "unattended-mutation"
      case InvariantFailed => "invariant-failed"
      case GovernanceDenied => "governance-denied"
      case StoreDiverged => "store-diverged"
      case OutcomeUnresolved => "outcome-unresolved"
      case KeyConflict => "key-conflict"
      case ConflictUnresolved => "unknown")
  }

  /** Every reason has a name of its own but one, which is reported as unknown. */
  lemma OneReasonHasNoName(a: RefusalReason, b: RefusalReason)
    ensures RefusalName(a) == RefusalName(b) <==> a == b
    ensures RefusalName(a) == Ascii("unknown") <==> a == ConflictUnresolved
  {
    assert Ascii("handoff-missing")[8] != Ascii("handoff-invalid")[8];
    assert Ascii("unverified-actor")[0] != Ascii("invariant-failed")[0];
    NameLength(a);
    NameLength(b);
  }

  lemma NameLength(a: RefusalReason)
    ensures |RefusalName(a)| == match a
      case GrantRefused => 13 case UnverifiedActor => 16 case StaleBase => 10 case HandoffMissing => 15
      case HandoffInvalid => 15 case UnattendedMutation => 19 case InvariantFailed => 16 case GovernanceDenied => 17
      case StoreDiverged => 14 case OutcomeUnresolved => 18 case KeyConflict => 12 case ConflictUnresolved => 7
  {
  }

  function NextAction(action: RecoveryAction): Str {
    Ascii(match action
      case RereadRethink => "re-read, re-think; never blind-retry"
      case HaltEscalate => "halt; escalate for typed handoff; retry is forbidden"
      case DeferToSupervised => "defer to a supervised session"
      case DesignReview => "design review required (constitution 17)"
      case FailClosed => "fail closed"
      case Block => "outcome unknown; dependent mutations stopped")
  }

  /** What happens in a turn: the actor and mode, what the generator proposes for the pinned snapshot, and what
      happens to the store call. `pinned` gives the immutable materialization behind a handle,
          which a session keeps when the
      registry has let go of it; it may be anything here, and `PinnedLive` says that it agrees with the registry. */
  datatype Turn = Turn(actor: Actor, mode: WorkMode, generate: Snapshot -> ContextTransaction, delivery: Delivery,
    pinned: Handle -> Materialization)

  function Proposal(session: Session, turn: Turn): ContextTransaction {
    var m := turn.pinned(session.handle);
    turn.generate(m.state).(base := m.revision)
  }

  function Disclosure(actor: Actor): Str { actor.servingModel + Ascii("/") + actor.binding }

  /** The session after the verdict on its proposal. */
  function Settled(session: Session, turn: Turn, t: ContextTransaction, verdict: Verdict): Session {
    var c := session.checkpoint;
    if verdict.outcome.Applied? then
      session.(handle := verdict.successor,
        checkpoint := c.(acceptedRefs := c.acceptedRefs + [turn.pinned(verdict.successor).revision],
          lastTrigger := MaterialTransaction, nextAction := Ascii("continue")))
    else
      var action := RecoveryFor(turn.pinned(session.handle).state, verdict.reason);
      var gap := if verdict.outcome.Unknown? then [Ascii("commit outcome for key ") + t.idempotencyKey] else [];
      var gaps := c.evidenceGaps + gap;
      var refused := c.(unacceptedCandidates := c.unacceptedCandidates + [t.base], evidenceGaps := gaps,
          nextAction := NextAction(action));
      if action.RereadRethink? then
        session.(parkedDeltas := session.parkedDeltas + [t],
          checkpoint := refused.(knownGaps := Ascii("delta parked: admission gate refused")))
      else session.(checkpoint := refused)
  }

  /** One work cycle. */
  function WorkStep(w: World, v: Service, session: Session, turn: Turn): (Service, Session) {
    if session.handle == 0 then (v, session)
    else
      var (leased, reply) := AcquireStep(w, v, turn.actor, turn.mode);
      if reply.grant.None? then
        (v, session.(checkpoint := session.checkpoint.(lastTrigger := TurnBoundary,
          nextAction := Ascii("fail closed: a competing flow holds the chain"))))
      else
        var grant := reply.grant.value;
        var served := session.(checkpoint := session.checkpoint.(servingDisclosure := Disclosure(turn.actor)));
        var t := Proposal(session, turn);
        if t.operations == [] then
          (ReleaseStep(leased, grant).0, served.(checkpoint := served.checkpoint.(nextAction := Ascii("continue"))))
        else
          var (written, verdict) := WriteStep(w, leased, session.handle, t, grant, turn.delivery);
          (ReleaseStep(written, grant).0, Settled(served, turn, t, verdict))
  }

  /** The line a cycle reports, from the session as it has been settled. */
  function Report(after: Session, turn: Turn, verdict: Verdict): Str {
    if verdict.outcome.Applied? then
      after.name + Ascii(": delta applied; head=") + turn.pinned(after.handle).revision.value
    else
      after.name + Ascii(": refused (") + RefusalName(verdict.reason) + Ascii("); next: ") + after.checkpoint.nextAction
  }

  /** ... or why there is nothing to report on. */
  function Reported(w: World, v: Service, session: Session, after: Session, turn: Turn): Str {
    var (leased, reply) := AcquireStep(w, v, turn.actor, turn.mode);
    if session.handle == 0 then after.name + Ascii(": no cognition bound")
    else if reply.grant.None? then after.name + Ascii(": grant refused")
    else if Proposal(session, turn).operations == [] then after.name + Ascii(": no material cognition this turn")
    else Report(after, turn, WriteStep(w, leased, session.handle, Proposal(session, turn), reply.grant.value,
        turn.delivery).1)
  }

  // ---- what a cycle guarantees ----

  lemma WriteKeepsLease(w: World, v: Service, handle: Handle, t: ContextTransaction, grant: Grant,
      delivery: Delivery)
    ensures var u := WriteStep(w, v, handle, t, grant,
      delivery).0; u.activeGrant == v.activeGrant && u.grantActor == v.grantActor
  {
    hide WriteRuling, Successor, Deliver, KeyDigest, SnapshotDigest;
  }

  /** Whatever happens in a cycle, the lease is afterwards as it was found; without the lease nothing happens. */
  lemma LeaseIsLeftAsFound(w: World, v: Service, session: Session, turn: Turn)
    requires v.activeGrant == [] ==> v.grantActor == NO_ACTOR
    ensures var u := WorkStep(w, v, session, turn).0;
      && u.activeGrant == v.activeGrant && u.grantActor == v.grantActor
      && (v.activeGrant != [] ==> u == v)
  {
    hide WriteStep, Authenticated, GrantName, Settled, Proposal, Ascii;
    if session.handle != 0 {
      var (leased, reply) := AcquireStep(w, v, turn.actor, turn.mode);
      if reply.grant.Some? {
        WriteKeepsLease(w, leased, session.handle, Proposal(session, turn), reply.grant.value,
            turn.delivery);
      }
    }
  }

  /** Under the default policy only a stale base leads to parking. */
  lemma DefaultPolicyParksOnlyStaleBase(s: Snapshot, reason: RefusalReason)
    requires s.policy.recovery == DEFAULT_RECOVERY
    ensures RecoveryFor(s, reason) == RereadRethink <==> reason == StaleBase
  {
    var at := Find(s.policy.recovery, (rule: RecoveryRule) => rule.reason == reason);
    DefaultRecoveryCovers(reason);
  }

  lemma DefaultRecoveryCovers(reason: RefusalReason)
    ensures exists i :: 0 <= i < |DEFAULT_RECOVERY| && DEFAULT_RECOVERY[i].reason == reason
    ensures forall i :: 0 <= i < |DEFAULT_RECOVERY| && DEFAULT_RECOVERY[i].reason == reason ==>
      (DEFAULT_RECOVERY[i].action == RereadRethink <==> reason == StaleBase)
  {
    match reason
    case StaleBase => assert DEFAULT_RECOVERY[0].reason == reason;
    case HandoffMissing => assert DEFAULT_RECOVERY[1].reason == reason;
    case HandoffInvalid => assert DEFAULT_RECOVERY[2].reason == reason;
    case UnattendedMutation => assert DEFAULT_RECOVERY[3].reason == reason;
    case InvariantFailed => assert DEFAULT_RECOVERY[4].reason == reason;
    case UnverifiedActor => assert DEFAULT_RECOVERY[5].reason == reason;
    case GrantRefused => assert DEFAULT_RECOVERY[6].reason == reason;
    case GovernanceDenied => assert DEFAULT_RECOVERY[7].reason == reason;
    case StoreDiverged => assert DEFAULT_RECOVERY[8].reason == reason;
    case OutcomeUnresolved => assert DEFAULT_RECOVERY[9].reason == reason;
    case KeyConflict => assert DEFAULT_RECOVERY[10].reason == reason;
    case ConflictUnresolved => assert DEFAULT_RECOVERY[11].reason == reason;
  }

  lemma StaleWriteChangesNothing(w: World, v: Service, handle: Handle, t: ContextTransaction, grant: Grant,
      delivery: Delivery)
    requires WriteStep(w, v, handle, t, grant, delivery).1.reason == StaleBase
    ensures WriteStep(w, v, handle, t, grant, delivery).0 == v
  {
    hide WriteRuling, Successor, Deliver, KeyDigest, SnapshotDigest;
  }

  /** A cycle that parks its delta under the default policy has changed nothing but the lease counter: the write was
      refused for a stale base, the handle stays, and exactly the proposal is parked. */
  lemma ParkedMeansUntouched(w: World, v: Service, session: Session, turn: Turn)
    requires v.activeGrant == [] ==> v.grantActor == NO_ACTOR
    requires turn.pinned(session.handle).state.policy.recovery == DEFAULT_RECOVERY
    requires WorkStep(w, v, session, turn).1.parkedDeltas != session.parkedDeltas
    ensures var (u, after) := WorkStep(w, v, session, turn);
      && u == v.(generation := (v.generation + 1) % WORD)
      && after.handle == session.handle && after.parkedDeltas == session.parkedDeltas + [Proposal(session, turn)]
  {
    hide WriteStep, Authenticated, GrantName, Proposal, Ascii, RecoveryFor, NextAction;
    var (leased, reply) := AcquireStep(w, v, turn.actor, turn.mode);
    var t, grant := Proposal(session, turn), reply.grant.value;
    var (written, verdict) := WriteStep(w, leased, session.handle, t, grant, turn.delivery);
    DefaultPolicyParksOnlyStaleBase(turn.pinned(session.handle).state, verdict.reason);
    StaleWriteChangesNothing(w, leased, session.handle, t, grant, turn.delivery);
  }

  /** What handles pin is what the registry holds under them, as long as it does. */
  predicate PinnedLive(v: Service, turn: Turn) {
    forall i :: 0 <= i < |v.live| ==> turn.pinned(v.live[i].address) == v.live[i]
  }

  lemma {:induction false} RefusedBy(ops: seq<Operation>, gate: Operation -> Option<RefusalReason>)
    requires FirstRefusal(ops, gate).Some?
    ensures exists op :: op in ops && gate(op) == FirstRefusal(ops, gate)
  {
    if gate(ops[0]).None? {
      RefusedBy(ops[1..], gate);
    }
  }

  lemma AdmitNeverSaysStale(w: World, s: Snapshot, t: ContextTransaction, a: Writer)
    ensures Admit(w, s, t, a) != Some(StaleBase)
  {
    hide Admissible, DigestOperations, Coherent, Successor;
    var policy, conflict, record := (op: Operation) => PolicyGate(w, s, t, a, op), (op: Operation) => ConflictGate(s,
        op),
      (op: Operation) => InvariantGate(s, op);
    if FirstRefusal(t.operations, policy).Some? {
      RefusedBy(t.operations, policy);
    } else if FirstRefusal(t.operations, conflict).Some? {
      RefusedBy(t.operations, conflict);
    } else if FirstRefusal(t.operations, record).Some? {
      RefusedBy(t.operations, record);
    }
  }

  lemma StaleExactlyWhenGone(w: World, v: Service, handle: Handle, t: ContextTransaction, grant: Grant,
      delivery: Delivery)
    requires FreshKey(v, t) && v.activeGrant == grant.id != []
    requires FindLive(v, handle).Some? ==> t.base == v.live[FindLive(v, handle).value].revision
    ensures WriteStep(w, v, handle, t, grant, delivery).1.reason == StaleBase <==> FindLive(v, handle).None?
    ensures FindLive(v, handle).None? ==> WriteStep(w, v, handle, t, grant, delivery).1.outcome.Refused?
  {
    hide KeyDigest, CanonicalHead, Admit, Successor, Deliver, SnapshotDigest, Verifies;
    var at := FindLive(v, handle);
    var head := CanonicalHead(w, v);
    if at.Some? && head.Some? {
      AdmitNeverSaysStale(w, v.live[at.value].state, t, Writer(head.value.rootPrincipal, v.grantActor.binding));
    }
  }

  /** Under the default policy a cycle that gets the lease and proposes something fresh parks its delta exactly when
      the registry has let go of the handle: with a live handle the base of the proposal is never stale. */
  lemma ParksExactlyWhenRetired(w: World, v: Service, session: Session, turn: Turn)
    requires session.handle != 0 && v.activeGrant == [] && Authenticated(w, v, turn.actor) && PinnedLive(v, turn)
    requires turn.pinned(session.handle).state.policy.recovery == DEFAULT_RECOVERY
    requires Proposal(session, turn).operations != [] && FreshKey(v, Proposal(session, turn))
    ensures WorkStep(w, v, session, turn).1.parkedDeltas != session.parkedDeltas <==> FindLive(v, session.handle).None?
  {
    hide WriteStep, Authenticated, Ascii, RecoveryFor, NextAction, CanonicalHead;
    var (leased, reply) := AcquireStep(w, v, turn.actor, turn.mode);
    var t := Proposal(session, turn);
    assert leased.activeGrant != [] by { assert |GrantName((v.generation + 1) % WORD)| > 0; }
    assert FindLive(leased, session.handle) == FindLive(v, session.handle);
    var verdict := WriteStep(w, leased, session.handle, t, reply.grant.value, turn.delivery).1;
    StaleExactlyWhenGone(w, leased, session.handle, t, reply.grant.value, turn.delivery);
    DefaultPolicyParksOnlyStaleBase(turn.pinned(session.handle).state, verdict.reason);
  }

  // ---- the cycle as it runs ----

  class Llm {
    var session: Session

    constructor (session: Session)
      ensures this.session == session
    {
      this.session := session;
    }

    method Work(context: Context, turn: Turn) returns (result: Str)
      requires context.Valid()
      modifies this, context, context.store
      ensures (context.State(), session) == WorkStep(context.w, old(context.State()), old(session), turn)
      ensures result == Reported(context.w, old(context.State()), old(session), session, turn)
    {
      hide Context.Valid, WriteStep, Authenticated, GrantName, Settled, Ascii;
      if session.handle == 0 {
        return session.name + Ascii(": no cognition bound");
      }
      var m := turn.pinned(session.handle);
      var grant := context.AcquireGrant(turn.actor, turn.mode);
      if grant.None? {
        session := session.(checkpoint := session.checkpoint.(lastTrigger := TurnBoundary,
          nextAction := Ascii("fail closed: a competing flow holds the chain")));
        return session.name + Ascii(": grant refused");
      }
      session := session.(checkpoint := session.checkpoint.(servingDisclosure := Disclosure(turn.actor)));
      var t := turn.generate(m.state).(base := m.revision);
      if t.operations == [] {
        context.ReleaseGrant(grant.value);
        session := session.(checkpoint := session.checkpoint.(nextAction := Ascii("continue")));
        return session.name + Ascii(": no material cognition this turn");
      }
      var verdict := context.WriteToCognition(session.handle, t, grant.value, turn.delivery);
      context.ReleaseGrant(grant.value);
      result := Settle(turn, t, verdict);
    }

    /** Obeys the verdict: rebind on success, else the recovery the table mandates. */
    method Settle(turn: Turn, t: ContextTransaction, verdict: Verdict) returns (result: Str)
      modifies this
      ensures session == Settled(old(session), turn, t, verdict) && result == Report(session, turn, verdict)
    {
      hide Ascii;
      var c := session.checkpoint;
      if verdict.outcome.Applied? {
        var revision := turn.pinned(verdict.successor).revision;
        session := session.(handle := verdict.successor,
          checkpoint := c.(acceptedRefs := c.acceptedRefs + [revision], lastTrigger := MaterialTransaction,
              nextAction := Ascii("continue")));
        return session.name + Ascii(": delta applied; head=") + revision.value;
      }
      var s := turn.pinned(session.handle).state;
      var rule := Search(s.policy.recovery, (rule: RecoveryRule) => rule.reason == verdict.reason);
      var action := if rule.Some? then s.policy.recovery[rule.value].action else FailClosed;
      c := c.(unacceptedCandidates := c.unacceptedCandidates + [t.base]);
      if verdict.outcome.Unknown? {
        c := c.(evidenceGaps := c.evidenceGaps + [Ascii("commit outcome for key ") + t.idempotencyKey]);
      }
      if action.RereadRethink? {
        session := session.(parkedDeltas := session.parkedDeltas + [t]);
        c := c.(knownGaps := Ascii("delta parked: admission gate refused"));
      }
      session := session.(checkpoint := c.(nextAction := NextAction(action)));
      result := session.name + Ascii(": refused (") + RefusalName(verdict.reason) + Ascii("); next: ")
        + session.checkpoint.nextAction;
    }
  }
}
