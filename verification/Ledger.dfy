/** Histories of admitted transactions: what every history of the canonical snapshot keeps
    (gates 6 to 9 and the application loop of write_to_cognition in src/persistence.cpp). */
module Ledger {
  import opened Prelude
  import opened Cognition
  import opened Text
  import opened Transactions
  import opened Gates

  /** A stored transaction and the binding of the lease holder who wrote it. */
  datatype Commit = Commit(txn: ContextTransaction, author: Str)

  /** The founding snapshot with the transactions applied in order. */
  function Replay(genesis: Snapshot, log: seq<Commit>): Snapshot {
    if log == [] then genesis else Successor(Replay(genesis, log[..|log| - 1]), log[|log| - 1].txn)
  }

  /** Passes every gate against the snapshot it was written to. */
  predicate Admitted(w: World, s: Snapshot, c: Commit) {
    c.txn.operations != [] && Admit(w, s, c.txn, Writer(s.rootPrincipal, c.author)).None?
  }

  predicate StepAdmitted(w: World, log: seq<Commit>, k: nat)
    requires k < |log|
  {
    Admitted(w, Replay(w.genesis, log[..k]), log[k])
  }

  /** Every transaction was admitted by the snapshot the ones before it built. */
  ghost predicate IsLedger(w: World, log: seq<Commit>) { forall k :: 0 <= k < |log| ==> StepAdmitted(w, log, k) }

  lemma StepOfPrefix(w: World, log: seq<Commit>, longer: seq<Commit>, k: nat)
    requires k < |log| && log <= longer
    ensures StepAdmitted(w, log, k) <==> StepAdmitted(w, longer, k)
  {
    hide Admitted, Replay;
    assert log[..k] == longer[..k];
  }

  lemma LedgerPrefix(w: World, log: seq<Commit>, k: nat)
    requires IsLedger(w, log) && k <= |log|
    ensures IsLedger(w, log[..k])
  {
    hide StepAdmitted;
    forall j | 0 <= j < k ensures StepAdmitted(w, log[..k], j) {
      StepOfPrefix(w, log[..k], log, j);
    }
  }

  lemma LedgerLast(w: World, log: seq<Commit>)
    requires IsLedger(w, log) && log != []
    ensures IsLedger(w, log[..|log| - 1]) && Admitted(w, Replay(w.genesis, log[..|log| - 1]), log[|log| - 1])
  {
    hide Admitted, Replay;
    LedgerPrefix(w, log, |log| - 1);
    assert StepAdmitted(w, log, |log| - 1);
  }

  lemma LedgerStep(w: World, log: seq<Commit>, c: Commit)
    ensures Replay(w.genesis, log + [c]) == Successor(Replay(w.genesis, log), c.txn)
    ensures IsLedger(w, log + [c]) <==> IsLedger(w, log) && Admitted(w, Replay(w.genesis, log), c)
  {
    var all := log + [c];
    assert all[..|log|] == log && all[|log|] == c;
    hide Admitted, Successor;
    if IsLedger(w, all) {
      LedgerLast(w, all);
    }
    if IsLedger(w, log) && Admitted(w, Replay(w.genesis, log), c) {
      forall k | 0 <= k < |all| ensures StepAdmitted(w, all, k) {
        if k < |log| {
          StepOfPrefix(w, log, all, k);
        }
      }
    }
  }

  predicate AllAdmissible(s: Snapshot, ops: seq<Operation>) { forall i :: 0 <= i < |ops| ==> Admissible(s, ops[i]) }

  lemma AdmittedOps(w: World, s: Snapshot, c: Commit)
    requires Admitted(w, s, c)
    ensures AllAdmissible(s, c.txn.operations)
    ensures forall i :: 0 <= i < |c.txn.operations| ==> ConflictGate(s, c.txn.operations[i]).None?
    ensures forall i :: 0 <= i < |c.txn.operations| ==>
      PolicyGate(w, s, c.txn, Writer(s.rootPrincipal, c.author), c.txn.operations[i]).None?
    ensures Coherent(Successor(s, c.txn))
  {
    forall i | 0 <= i < |c.txn.operations| ensures Admissible(s, c.txn.operations[i]) {
      assert InvariantGate(s, c.txn.operations[i]).None?;
    }
  }

  // ---- governance never changes ----

  /** The parts no operation writes. */
  predicate SameGovernance(s: Snapshot, u: Snapshot) {
    u.rootPrincipal == s.rootPrincipal && u.articles == s.articles && u.policy == s.policy &&
    u.invocation == s.invocation && u.roles == s.roles
  }

  lemma {:induction false} GovernanceThrough(s: Snapshot, evidenceRef: Str, ops: seq<Operation>)
    ensures SameGovernance(s, ApplyAll(s, evidenceRef, ops))
  {
    if ops != [] {
      hide Mapped, Find, WithoutView, ViewOf, UserSource, Decimal, CloseFirst;
      GovernanceThrough(s, evidenceRef, ops[..|ops| - 1]);
    }
  }

  lemma {:induction false} GovernanceIsConstant(genesis: Snapshot, log: seq<Commit>)
    ensures SameGovernance(genesis, Replay(genesis, log))
  {
    if log != [] {
      GovernanceIsConstant(genesis, log[..|log| - 1]);
      var c := log[|log| - 1];
      GovernanceThrough(Replay(genesis, log[..|log| - 1]), c.txn.handoffEvidenceRef, c.txn.operations);
    }
  }

  /** The policy requires a review for decisions (makeDefaultPolicy). */
  predicate DecisionsReviewed(s: Snapshot) {
    var row := Find(s.policy.handoff, (row: HandoffPolicy) => row.opClass == DecisionAcceptance);
    row.Some? ==> s.policy.handoff[row.value].required == Handoff.Review
  }

  predicate ChangesDecisions(op: Operation) { op.kind.AppendDecision? || op.kind.SupersedeDecision? }

  lemma {:induction false} DecisionsUntouched(s: Snapshot, evidenceRef: Str, ops: seq<Operation>)
    requires forall i :: 0 <= i < |ops| ==> !ChangesDecisions(ops[i])
    ensures ApplyAll(s, evidenceRef, ops).decisions == s.decisions
  {
    if ops != [] {
      hide Mapped, Find, WithoutView, ViewOf, UserSource, Decimal, CloseFirst;
      DecisionsUntouched(s, evidenceRef, ops[..|ops| - 1]);
    }
  }

  /** Review evidence by the founding root principal, under a binding other than the author's, for the digest of this
      operation list. */
  predicate Reviewed(w: World, c: Commit) {
    && c.txn.h2.Some?
    && c.txn.h2.value.reviewer == w.genesis.rootPrincipal && c.txn.h2.value.reviewer != []
    && c.txn.h2.value.reviewerBinding !in {c.author, []}
    && c.txn.h2.value.reviewRef != [] && c.txn.handoffEvidenceRef != []
    && c.txn.h2.value.reviewedDeltaDigest == DigestOperations(w, c.txn.operations)
  }

  /** In every history, a transaction that changed any decision was reviewed. */
  lemma DecisionChangesWereReviewed(w: World, log: seq<Commit>, k: nat)
    requires DecisionsReviewed(w.genesis) && IsLedger(w, log) && k < |log|
    requires Replay(w.genesis, log[..k + 1]).decisions != Replay(w.genesis, log[..k]).decisions
    ensures Reviewed(w, log[k])
  {
    var s, c := Replay(w.genesis, log[..k]), log[k];
    assert StepAdmitted(w, log, k);
    assert log[..k + 1][..k] == log[..k];
    hide Admitted, IsLedger, ApplyAll;
    if forall i :: 0 <= i < |c.txn.operations| ==> !ChangesDecisions(c.txn.operations[i]) {
      DecisionsUntouched(s, c.txn.handoffEvidenceRef, c.txn.operations);
    } else {
      var i :| 0 <= i < |c.txn.operations| && ChangesDecisions(c.txn.operations[i]);
      ReviewEnforced(w, s, c, log[..k], c.txn.operations[i]);
    }
  }

  lemma ReviewEnforced(w: World, s: Snapshot, c: Commit, log: seq<Commit>, op: Operation)
    requires DecisionsReviewed(w.genesis) && s == Replay(w.genesis, log)
    requires Admitted(w, s, c) && op in c.txn.operations && ChangesDecisions(op)
    ensures Reviewed(w, c)
  {
    hide DigestOperations;
    AdmittedOps(w, s, c);
    GovernanceIsConstant(w.genesis, log);
    assert PolicyGate(w, s, c.txn, Writer(s.rootPrincipal, c.author), op).None?;
    assert ClassOf(op.kind) == DecisionAcceptance;
    var p := (row: HandoffPolicy) => row.opClass == DecisionAcceptance;
    FindAgrees(s.policy.handoff, (row: HandoffPolicy) => row.opClass == ClassOf(op.kind), s.policy.handoff, p);
  }

  /** What was reviewed is what was written: no other operation list has the digest the evidence carries. */
  lemma ReviewIsOfTheseOperations(w: World, c: Commit, ops: seq<Operation>)
    requires CollisionFree(w) && Reviewed(w, c) && Hashable(c.txn.operations) && Hashable(ops)
    ensures DigestOperations(w, ops) == c.txn.h2.value.reviewedDeltaDigest <==> ops == c.txn.operations
  {
    hide Hashable, CollisionFree;
    DigestBindsOperations(w, ops, c.txn.operations);
  }
}
