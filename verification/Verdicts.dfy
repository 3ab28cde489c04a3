/** What gates 6 to 9 answer, on the fields of the snapshot and of the transaction alone, and what an open conflict
    keeps out of a history (write_to_cognition in src/persistence.cpp). */
module Verdicts {
  import opened Prelude
  import opened Cognition
  import opened Text
  import opened Transactions
  import opened Gates
  import opened Ledger
  import opened History

  // ---- the conditions, on fields ----

  /** The operations of a class. */
  function KindsOf(c: OperationClass): set<OperationKind> {
    match c
    case DecisionAcceptance => {AppendDecision, SupersedeDecision}
    case MemoryWrite => {AddMemory}
    case ObligationWrite => {UpsertObligation, CloseObligation, TransitionObligation}
    case StateUpdate => {UpdateState, SetNextBoundary}
    case ConflictWrite => {OpenConflict, ResolveConflict}
    case EvidenceWrite => {AddEvidence, UpsertProfile, AmendViewSpec}
  }

  /** The row of the policy that governs the operation: the first of its class. */
  predicate GovernedBy(s: Snapshot, kind: OperationKind, k: int) {
    && 0 <= k < |s.policy.handoff| && kind in KindsOf(s.policy.handoff[k].opClass)
    && forall j :: 0 <= j < k ==> kind !in KindsOf(s.policy.handoff[j].opClass)
  }

  predicate Governed(s: Snapshot, kind: OperationKind) {
    exists k :: 0 <= k < |s.policy.handoff| && GovernedBy(s, kind, k)
  }

  predicate NeedsReview(s: Snapshot, kind: OperationKind) {
    exists k :: 0 <= k < |s.policy.handoff| && GovernedBy(s, kind, k) && s.policy.handoff[k].required == Handoff.Review
  }

  /** Nothing of the review evidence is missing. */
  predicate EvidenceComplete(t: ContextTransaction) {
    && t.h2.Some? && t.h2.value.reviewer != [] && t.h2.value.reviewerBinding != [] && t.h2.value.reviewRef != []
    && t.handoffEvidenceRef != []
  }

  /** It is by the root principal, under another binding than the writer's, and for exactly these operations. */
  predicate EvidenceValid(w: World, t: ContextTransaction, a: Writer) {
    && EvidenceComplete(t) && t.h2.value.reviewerBinding != a.leaseBinding && t.h2.value.reviewer == a.rootPrincipal
    && t.h2.value.reviewedDeltaDigest == ContentId(w, OperationsImage(t.operations))
  }

  predicate AboutConflicts(op: Operation) { op.kind.OpenConflict? || op.kind.ResolveConflict? }

  /** An open conflict of this scope, or of all scopes, stands against the operation. */
  predicate ScopeBlocked(s: Snapshot, op: Operation) {
    !AboutConflicts(op) &&
    exists c :: c in s.conflicts && c.status == ConflictStatus.Open && (c.scope == [] || c.scope == op.scope)
  }

  /** The first obligation of the id is open. */
  predicate FirstIsOpen(os: seq<Obligation>, id: i64) {
    exists i :: && 0 <= i < |os| && os[i].id == id && os[i].status == ObligationStatus.Open
                && forall j :: 0 <= j < i ==> os[j].id != id
  }

  /** The first decision of the id is accepted. */
  predicate FirstIsAccepted(ds: seq<Decision>, id: i64) {
    exists i :: && 0 <= i < |ds| && ds[i].id == id && ds[i].status == Lifecycle.Accepted
                && forall j :: 0 <= j < i ==> ds[j].id != id
  }

  /** The first conflict of the id is open. */
  predicate FirstIsUnresolved(cs: seq<Conflict>, id: Str) {
    exists i :: && 0 <= i < |cs| && cs[i].id == id && cs[i].status == ConflictStatus.Open
                && forall j :: 0 <= j < i ==> cs[j].id != id
  }

  predicate NamesProfile(ps: seq<ProfileRecord>, id: Str) { exists i :: 0 <= i < |ps| && ps[i].id == id }

  /** What the record invariants ask of one operation, against the snapshot before the transaction. */
  predicate Rule(s: Snapshot, op: Operation) {
    match op.kind
    case AppendDecision =>
      && op.recordId > 0 && op.title != [] && op.payload != []
      && forall i :: 0 <= i < |s.decisions| ==> s.decisions[i].id != op.recordId
    case SupersedeDecision =>
      && op.recordId != op.successorRecordId && op.payload != []
      && FirstIsAccepted(s.decisions, op.recordId) && FirstIsAccepted(s.decisions, op.successorRecordId)
      && ChainClear(s.decisions, op)
    case AddMemory => op.payload != [] && op.provenanceRef != [] && op.aux <= 5
    case UpsertObligation => op.recordId > 0 && op.payload != []
    case CloseObligation =>
      exists i :: 0 <= i < |s.obligations| && s.obligations[i].id == op.recordId && s.obligations[i].status == ObligationStatus.Open
    case TransitionObligation =>
      && op.payload != [] && op.aux in {1, 3, 4, 5} && FirstIsOpen(s.obligations, op.recordId)
      && (op.aux == 5 ==> exists i :: 0 <= i < |s.obligations| && s.obligations[i].id == op.successorRecordId)
    case UpdateState => op.payload != []
    case AddEvidence => op.title != [] && op.payload != []
    case UpsertProfile =>
      op.title != [] && op.scope != [] && op.payload != [] && !NamesProfile(s.profiles, op.title)
    case OpenConflict =>
      op.title != [] && op.payload != [] && forall i :: 0 <= i < |s.conflicts| ==> s.conflicts[i].id != op.title
    case ResolveConflict => op.payload != [] && FirstIsUnresolved(s.conflicts, op.title)
    case AmendViewSpec =>
      && op.title != [] && (exists i :: 0 <= i < |op.scope| && op.scope[i] == 58)
      && (op.aux == 0 ==> forall i :: 0 <= i < |s.views| ==> s.views[i].id != op.title)
      && var refs := SplitRefs(op.provenanceRef);
         && refs != [] && (forall i :: 0 <= i < |refs| ==> NamesProfile(s.profiles, refs[i]))
         && forall i, j :: 0 <= i < j < |refs| ==> refs[i] != refs[j]
    case SetNextBoundary => FirstIsOpen(s.obligations, op.recordId)
  }

  /** The search from the successor ends without meeting the decision; `Reachability` says when it does. */
  predicate ChainClear(ds: seq<Decision>, op: Operation) {
    var at := FindDecision(ds, op.successorRecordId);
    at.Some? && Reaches(ds, ds[at.value], op.recordId, |ds|) == Some(false)
  }

  predicate BoundaryHolds(s: Snapshot) {
    s.state.nextBoundaryRef == [] ||
    (exists i :: && 0 <= i < |s.obligations| && Decimal(s.obligations[i].id) == s.state.nextBoundaryRef
                 && s.obligations[i].status == ObligationStatus.Open)
  }

  // ---- each gate against its condition ----

  lemma ClassHas(c: OperationClass, kind: OperationKind)
    ensures kind in KindsOf(c) <==> c == ClassOf(kind)
  {
  }

  lemma GovernedAtRow(s: Snapshot, kind: OperationKind, k: int)
    ensures GovernedBy(s, kind, k) <==> Find(s.policy.handoff, (row: HandoffPolicy) => row.opClass == ClassOf(kind)) == Some(k)
  {
    hide KindsOf, ClassOf;
    forall j | 0 <= j < |s.policy.handoff|
      ensures kind in KindsOf(s.policy.handoff[j].opClass) <==> s.policy.handoff[j].opClass == ClassOf(kind)
    {
      ClassHas(s.policy.handoff[j].opClass, kind);
    }
  }

  /** The rows the table lookup finds are the governing ones. */
  lemma GoverningRow(s: Snapshot, kind: OperationKind)
    ensures var row := Find(s.policy.handoff, (row: HandoffPolicy) => row.opClass == ClassOf(kind));
      && (Governed(s, kind) <==> row.Some?)
      && (NeedsReview(s, kind) <==> row.Some? && s.policy.handoff[row.value].required == Handoff.Review)
  {
    hide KindsOf, ClassOf, GovernedBy;
    forall k: int ensures GovernedBy(s, kind, k) <==>
      Find(s.policy.handoff, (row: HandoffPolicy) => row.opClass == ClassOf(kind)) == Some(k)
    {
      GovernedAtRow(s, kind, k);
    }
  }

  lemma PolicyAnswer(w: World, s: Snapshot, t: ContextTransaction, a: Writer, op: Operation)
    ensures PolicyGate(w, s, t, a, op) ==
      if !Governed(s, op.kind) then Some(GovernanceDenied)
      else if !NeedsReview(s, op.kind) || EvidenceValid(w, t, a) then None
      else if EvidenceComplete(t) then Some(HandoffInvalid) else Some(HandoffMissing)
  {
    hide Governed, NeedsReview, OperationsImage;
    GoverningRow(s, op.kind);
  }

  lemma ConflictAnswer(s: Snapshot, op: Operation)
    ensures ConflictGate(s, op) == if ScopeBlocked(s, op) then Some(ConflictUnresolved) else None
  {
    if c :| c in s.conflicts && c.status == ConflictStatus.Open && (c.scope == [] || c.scope == op.scope) {
      var i :| 0 <= i < |s.conflicts| && s.conflicts[i] == c;
      assert Blocks(s.conflicts[i], op);
    }
    if i :| 0 <= i < |s.conflicts| && Blocks(s.conflicts[i], op) {
      assert s.conflicts[i] in s.conflicts;
    }
  }

  lemma DecisionRules(s: Snapshot, op: Operation)
    requires op.kind.AppendDecision? || op.kind.SupersedeDecision?
    ensures Rule(s, op) <==> Admissible(s, op)
  {
    hide Reaches;
  }

  lemma ObligationRules(s: Snapshot, op: Operation)
    requires op.kind.CloseObligation? || op.kind.TransitionObligation? || op.kind.SetNextBoundary?
    ensures Rule(s, op) <==> Admissible(s, op)
  {
    hide Reaches, ChainClear, SplitRefs;
  }

  lemma ConflictRules(s: Snapshot, op: Operation)
    requires op.kind.OpenConflict? || op.kind.ResolveConflict? || op.kind.UpsertProfile?
    ensures Rule(s, op) <==> Admissible(s, op)
  {
    hide Reaches, ChainClear, SplitRefs;
  }

  lemma ProfileNamed(ps: seq<ProfileRecord>, id: Str)
    ensures NamesProfile(ps, id) <==> FindProfile(ps, id).Some?
  {
  }

  lemma ViewRules(s: Snapshot, op: Operation)
    requires op.kind.AmendViewSpec?
    ensures Rule(s, op) <==> Admissible(s, op)
  {
    hide Reaches, ChainClear, SplitRefs, NamesProfile, FindProfile;
    forall id: Str ensures NamesProfile(s.profiles, id) <==> FindProfile(s.profiles, id).Some? {
      ProfileNamed(s.profiles, id);
    }
    assert Find(op.scope, IsColon).Some? <==> exists i :: 0 <= i < |op.scope| && op.scope[i] == 58;
  }

  lemma RuleIsTheGate(s: Snapshot, op: Operation)
    ensures Rule(s, op) <==> Admissible(s, op)
  {
    hide Reaches, ChainClear, SplitRefs, MaySupersede, MayTransition, MayAmendView, NamesProfile, FirstIsOpen,
      FirstIsAccepted, FirstIsUnresolved;
    match op.kind
    case AppendDecision | SupersedeDecision => DecisionRules(s, op);
    case CloseObligation | TransitionObligation | SetNextBoundary => ObligationRules(s, op);
    case OpenConflict | ResolveConflict | UpsertProfile => ConflictRules(s, op);
    case AmendViewSpec => ViewRules(s, op);
    case _ =>
  }

  lemma BoundaryIsTheGate(s: Snapshot)
    ensures BoundaryHolds(s) <==> Coherent(s)
  {
    hide Decimal;
    if i :| 0 <= i < |s.obligations| && NamesBoundary(s.obligations[i], s.state.nextBoundaryRef) {
      assert Decimal(s.obligations[i].id) == s.state.nextBoundaryRef;
    }
    if i :| && 0 <= i < |s.obligations| && Decimal(s.obligations[i].id) == s.state.nextBoundaryRef
            && s.obligations[i].status == ObligationStatus.Open {
      assert NamesBoundary(s.obligations[i], s.state.nextBoundaryRef);
    }
  }

  // ---- what a transaction is answered ----

  predicate PolicyHolds(w: World, s: Snapshot, t: ContextTransaction, a: Writer, op: Operation) {
    Governed(s, op.kind) && (NeedsReview(s, op.kind) ==> EvidenceValid(w, t, a))
  }

  predicate Permitted(w: World, s: Snapshot, t: ContextTransaction, a: Writer) {
    forall i :: 0 <= i < |t.operations| ==> PolicyHolds(w, s, t, a, t.operations[i])
  }

  predicate Unblocked(s: Snapshot, ops: seq<Operation>) { forall i :: 0 <= i < |ops| ==> !ScopeBlocked(s, ops[i]) }

  predicate RulesHold(s: Snapshot, ops: seq<Operation>) { forall i :: 0 <= i < |ops| ==> Rule(s, ops[i]) }

  /** Operation `k` is the first the policy does not let through, and this is why. */
  predicate FirstDenied(w: World, s: Snapshot, t: ContextTransaction, a: Writer, k: nat, reason: RefusalReason) {
    && k < |t.operations| && !PolicyHolds(w, s, t, a, t.operations[k])
    && (forall j :: 0 <= j < k ==> PolicyHolds(w, s, t, a, t.operations[j]))
    && reason ==
       if !Governed(s, t.operations[k].kind) then GovernanceDenied
       else if EvidenceComplete(t) then HandoffInvalid else HandoffMissing
  }

  lemma {:induction false} FirstRefusalIsFirst(ops: seq<Operation>,
      gate: Operation -> Option<RefusalReason>) returns (k: nat)
    requires exists i :: 0 <= i < |ops| && gate(ops[i]).Some?
    ensures k < |ops| && gate(ops[k]).Some? && (forall j :: 0 <= j < k ==> gate(ops[j]).None?)
    ensures FirstRefusal(ops, gate) == gate(ops[k])
  {
    if gate(ops[0]).Some? {
      k := 0;
    } else {
      k := FirstRefusalIsFirst(ops[1..], gate);
      k := k + 1;
    }
  }

  lemma PolicyVerdict(w: World, s: Snapshot, t: ContextTransaction, a: Writer)
    ensures var r := FirstRefusal(t.operations, (op: Operation) => PolicyGate(w, s, t, a, op));
      && (r.None? <==> Permitted(w, s, t, a))
      && (r.Some? ==> exists k: nat :: FirstDenied(w, s, t, a, k, r.value))
  {
    hide PolicyGate, EvidenceValid, EvidenceComplete, Governed, NeedsReview;
    var gate := (op: Operation) => PolicyGate(w, s, t, a, op);
    forall op: Operation ensures gate(op) ==
      if !Governed(s, op.kind) then Some(GovernanceDenied)
      else if !NeedsReview(s, op.kind) || EvidenceValid(w, t, a) then None
      else if EvidenceComplete(t) then Some(HandoffInvalid) else Some(HandoffMissing)
    {
      PolicyAnswer(w, s, t, a, op);
    }
    if FirstRefusal(t.operations, gate).Some? {
      var k := FirstRefusalIsFirst(t.operations, gate);
      assert FirstDenied(w, s, t, a, k, gate(t.operations[k]).value);
    }
  }

  lemma ConflictVerdict(s: Snapshot, ops: seq<Operation>)
    ensures FirstRefusal(ops, (op: Operation) => ConflictGate(s, op)) ==
      if Unblocked(s, ops) then None else Some(ConflictUnresolved)
  {
    hide ConflictGate, ScopeBlocked;
    var gate := (op: Operation) => ConflictGate(s, op);
    forall op: Operation ensures gate(op) == if ScopeBlocked(s, op) then Some(ConflictUnresolved) else None {
      ConflictAnswer(s, op);
    }
    if FirstRefusal(ops, gate).Some? {
      var k := FirstRefusalIsFirst(ops, gate);
    }
  }

  lemma RecordVerdict(s: Snapshot, ops: seq<Operation>)
    ensures FirstRefusal(ops, (op: Operation) => InvariantGate(s, op)) ==
      if RulesHold(s, ops) then None else Some(InvariantFailed)
  {
    hide Admissible, Rule;
    var gate := (op: Operation) => InvariantGate(s, op);
    forall op: Operation ensures gate(op) == if Rule(s, op) then None else Some(InvariantFailed) {
      RuleIsTheGate(s, op);
    }
    if FirstRefusal(ops, gate).Some? {
      var k := FirstRefusalIsFirst(ops, gate);
    }
  }

  /** Every answer of the gates, and exactly when it is given. The four conditions are looked at in this order, each for
      the whole transaction before the next. */
  lemma AnswersExactly(w: World, s: Snapshot, t: ContextTransaction, a: Writer)
    ensures Admit(w, s, t, a).None? <==>
      Permitted(w, s, t, a) && Unblocked(s, t.operations) && RulesHold(s, t.operations) && BoundaryHolds(Successor(s,
          t))
    ensures Admit(w, s, t, a) == Some(ConflictUnresolved) <==> Permitted(w, s, t, a) && !Unblocked(s, t.operations)
    ensures Admit(w, s, t, a) == Some(InvariantFailed) <==>
      && Permitted(w, s, t, a) && Unblocked(s, t.operations)
      && !(RulesHold(s, t.operations) && BoundaryHolds(Successor(s, t)))
    ensures !Permitted(w, s, t, a) ==>
      Admit(w, s, t, a).Some? && exists k: nat :: FirstDenied(w, s, t, a, k, Admit(w, s, t, a).value)
  {
    hide Permitted, Unblocked, RulesHold, BoundaryHolds, Coherent, PolicyGate, ConflictGate, InvariantGate, ApplyAll,
      PolicyHolds, EvidenceComplete, Governed, FirstRefusal;
    PolicyVerdict(w, s, t, a);
    ConflictVerdict(s, t.operations);
    RecordVerdict(s, t.operations);
    BoundaryIsTheGate(Successor(s, t));
    var policy := FirstRefusal(t.operations, (op: Operation) => PolicyGate(w, s, t, a, op));
    if policy.Some? {
      var k: nat :| FirstDenied(w, s, t, a, k, policy.value);
      assert policy.value != ConflictUnresolved && policy.value != InvariantFailed;
      assert Admit(w, s, t, a) == policy;
    }
  }

  // ---- over histories ----

  /** A conflict of the operation's scope, or of all scopes, and an operation that is not about conflicts. */
  predicate StandsAgainst(c: Conflict, op: Operation) { !AboutConflicts(op) && (c.scope == [] || c.scope == op.scope) }

  /** No stored transaction holds an operation an open conflict of its snapshot stands against. */
  lemma AdmittedKeepsClear(w: World, s: Snapshot, c: Commit, i: nat, n: nat)
    requires Admitted(w, s, c) && n < |c.txn.operations|
    requires i < |s.conflicts| && s.conflicts[i].status == ConflictStatus.Open
    ensures !StandsAgainst(s.conflicts[i], c.txn.operations[n])
  {
    hide Permitted, RulesHold, BoundaryHolds, ApplyAll, Admit;
    AnswersExactly(w, s, c.txn, Writer(s.rootPrincipal, c.author));
    assert !ScopeBlocked(s, c.txn.operations[n]);
    assert s.conflicts[i] in s.conflicts;
  }

  lemma OpenBefore(w: World, log: seq<Commit>, j: nat, k: nat, i: nat)
    requires Sound(w.genesis) && IsLedger(w, log) && j <= k <= |log|
    requires i < |Replay(w.genesis, log[..j]).conflicts| && i < |Replay(w.genesis, log).conflicts|
    requires Replay(w.genesis, log).conflicts[i].status == ConflictStatus.Open
    ensures i < |Replay(w.genesis, log[..k]).conflicts|
    ensures Replay(w.genesis, log[..k]).conflicts[i].status == ConflictStatus.Open
    ensures Replay(w.genesis, log[..k]).conflicts[i].scope == Replay(w.genesis, log).conflicts[i].scope
  {
    hide Sound, Admitted, RecordsGrow, Replay;
    HistoryIsAppendOnly(w, log, k);
    LedgerPrefix(w, log, k);
    HistoryIsAppendOnly(w, log[..k], j);
    assert log[..k][..j] == log[..j];
    assert ConflictGrows(Replay(w.genesis, log[..k]).conflicts[i], Replay(w.genesis, log).conflicts[i]);
  }

  /** From the transaction after a conflict was opened and for as long as it stays open, no operation of its scope is
      stored, and none at all when it has no scope, other than those about conflicts. */
  lemma OpenConflictKeepsOut(w: World, log: seq<Commit>, j: nat, k: nat, i: nat, n: nat)
    requires Sound(w.genesis) && IsLedger(w, log) && j <= k < |log| && n < |log[k].txn.operations|
    requires i < |Replay(w.genesis, log[..j]).conflicts| && i < |Replay(w.genesis, log).conflicts|
    requires Replay(w.genesis, log).conflicts[i].status == ConflictStatus.Open
    ensures !StandsAgainst(Replay(w.genesis, log).conflicts[i], log[k].txn.operations[n])
  {
    hide Sound, Admitted, Replay;
    OpenBefore(w, log, j, k, i);
    assert StepAdmitted(w, log, k);
    AdmittedKeepsClear(w, Replay(w.genesis, log[..k]), log[k], i, n);
  }
}
