/** The supersession graph of decisions: reciprocal links, cycles, and the reachability search that guards them
    (findDecision, reachesDecision and the decision operations in src/persistence.cpp). */
module Supersession {
  import opened Prelude
  import opened Cognition
  import opened Transactions
  import opened Gates
  import opened Ledger
  import opened History

  // ---- graphs ----

  type Edge = (i64, i64)

  predicate Walk(es: set<Edge>, p: seq<i64>) { p != [] && forall i :: 0 <= i < |p| - 1 ==> (p[i], p[i + 1]) in es }

  /** No walk returns to where it began. */
  ghost predicate Acyclic(es: set<Edge>) {
    forall p: seq<i64> :: Walk(es, p) && |p| > 1 ==> p[0] != p[|p| - 1]
  }

  /** In `es + more`, when no edge of `es` ends where an edge of `more` begins or ends, a closed walk that uses one
      edge of `more` uses no other edges. */
  predicate Fresh(es: set<Edge>, more: set<Edge>) {
    forall e, m :: e in es && m in more ==> e.1 != m.0 && e.1 != m.1
  }

  lemma {:induction false} OnlyNewBefore(es: set<Edge>, more: set<Edge>, p: seq<i64>, i: nat)
    requires Fresh(es, more) && Walk(es + more, p) && i < |p| - 1 && (p[i], p[i + 1]) in more
    ensures forall j :: 0 <= j <= i ==> (p[j], p[j + 1]) in more
  {
    if i > 0 {
      var before, here := (p[i - 1], p[i]), (p[i], p[i + 1]);
      assert before in es + more;
      assert before !in es;
      OnlyNewBefore(es, more, p, i - 1);
    }
  }

  lemma ClosedWalkIsPure(es: set<Edge>, more: set<Edge>, p: seq<i64>)
    requires Fresh(es, more) && Walk(es + more, p) && |p| > 1 && p[0] == p[|p| - 1]
    ensures Walk(es, p) || Walk(more, p)
  {
    if i :| 0 <= i < |p| - 1 && (p[i], p[i + 1]) in more {
      OnlyNewBefore(es, more, p, i);
      var first, last := (p[0], p[1]), (p[|p| - 2], p[|p| - 1]);
      assert first in more && last in es + more;
      assert last !in es;
      OnlyNewBefore(es, more, p, |p| - 2);
    }
  }

  lemma AcyclicUnion(es: set<Edge>, more: set<Edge>)
    requires Fresh(es, more)
    ensures Acyclic(es + more) <==> Acyclic(es) && Acyclic(more)
  {
    assert forall p: seq<i64> :: Walk(es, p) || Walk(more, p) ==> Walk(es + more, p);
    forall p: seq<i64> | Walk(es + more, p) && |p| > 1 && p[0] == p[|p| - 1] ensures Walk(es, p) || Walk(more, p) {
      ClosedWalkIsPure(es, more, p);
    }
  }

  // ---- the two sides of a link ----

  function Edges(ds: seq<Decision>): set<Edge> { set d, a | d in ds && a in d.supersedes :: (d.id, a) }
  function Backlinks(ds: seq<Decision>): set<Edge> { set d, b | d in ds && b in d.supersededBy :: (b, d.id) }

  /** The links one transaction asks for, successor first. */
  function OpEdges(ops: seq<Operation>): set<Edge> {
    set op | op in ops && op.kind.SupersedeDecision? :: (op.successorRecordId, op.recordId)
  }

  predicate HasId(ds: seq<Decision>, id: i64) { exists i :: 0 <= i < |ds| && ds[i].id == id }

  /** Links are recorded on both ends and resolve; a decision is superseded exactly when it names a successor;
      records of one id carry the same links. */
  predicate LinksSound(ds: seq<Decision>) {
    && Edges(ds) == Backlinks(ds)
    && (forall e :: e in Edges(ds) ==> HasId(ds, e.0) && HasId(ds, e.1))
    && StatusesAgree(ds)
  }

  predicate StatusesAgree(ds: seq<Decision>) {
    && (forall i :: 0 <= i < |ds| ==> ds[i].status == if ds[i].supersededBy == [] then Lifecycle.Accepted else Lifecycle.Superseded)
    && (forall i, j :: 0 <= i < |ds| && 0 <= j < |ds| && ds[i].id == ds[j].id ==>
        ds[i].supersededBy == ds[j].supersededBy && ds[i].supersedes == ds[j].supersedes)
  }

  /** Decisions appended by the running transaction have ids new to it and no links in it. */
  predicate AppendedSince(ds: seq<Decision>, es: seq<Decision>) {
    && |ds| <= |es|
    && (forall i :: 0 <= i < |ds| ==> es[i].id == ds[i].id)
    && (forall i :: |ds| <= i < |es| ==> !HasId(ds, es[i].id) && es[i].supersededBy == [] && es[i].supersedes == [])
  }

  lemma SupersedingEdges(ds: seq<Decision>, op: Operation)
    requires HasId(ds, op.successorRecordId) && op.recordId != op.successorRecordId
    ensures Edges(Mapped(ds, (d: Decision) => Superseding(d, op))) == Edges(ds) + {(op.successorRecordId, op.recordId)}
  {
    var es := Mapped(ds, (d: Decision) => Superseding(d, op));
    var link := (op.successorRecordId, op.recordId);
    forall e | e in Edges(ds) + {link} ensures e in Edges(es) {
      var i :| 0 <= i < |ds| && if e == link then ds[i].id == op.successorRecordId else ds[i].id == e.0 && e.1 in ds[i].supersedes;
      assert es[i] in es && e.1 in es[i].supersedes;
    }
    forall e | e in Edges(es) ensures e in Edges(ds) + {link} {
      var i :| 0 <= i < |es| && es[i].id == e.0 && e.1 in es[i].supersedes;
      assert ds[i] in ds;
    }
  }

  lemma SupersedingBacklinks(ds: seq<Decision>, op: Operation)
    requires HasId(ds, op.recordId) && op.recordId != op.successorRecordId
    ensures Backlinks(Mapped(ds, (d: Decision) => Superseding(d, op))) == Backlinks(ds) + {(op.successorRecordId,
      op.recordId)}
  {
    var es := Mapped(ds, (d: Decision) => Superseding(d, op));
    var link := (op.successorRecordId, op.recordId);
    forall e | e in Backlinks(ds) + {link} ensures e in Backlinks(es) {
      var i :| 0 <= i < |ds| && if e == link then ds[i].id == op.recordId else ds[i].id == e.1 && e.0 in ds[i].supersededBy;
      assert es[i] in es && e.0 in es[i].supersededBy;
    }
    forall e | e in Backlinks(es) ensures e in Backlinks(ds) + {link} {
      var i :| 0 <= i < |es| && es[i].id == e.1 && e.0 in es[i].supersededBy;
      assert ds[i] in ds;
    }
  }

  /** What a transaction has done to the decisions after some of its operations. */
  predicate LinkedSince(ds: seq<Decision>, es: seq<Decision>, ops: seq<Operation>) {
    && AppendedSince(ds, es) && StatusesAgree(es)
    && Edges(es) == Edges(ds) + OpEdges(ops) && Backlinks(es) == Backlinks(ds) + OpEdges(ops)
  }

  lemma OpEdgesStep(ops: seq<Operation>)
    requires ops != []
    ensures OpEdges(ops) == OpEdges(ops[..|ops| - 1]) + OpEdges([ops[|ops| - 1]])
  {
    assert ops == ops[..|ops| - 1] + [ops[|ops| - 1]];
  }

  lemma SupersedingStatuses(ds: seq<Decision>, es: seq<Decision>, op: Operation)
    requires AppendedSince(ds, es) && StatusesAgree(es) && HasId(ds, op.recordId) && HasId(ds, op.successorRecordId)
    ensures var fs := Mapped(es, (d: Decision) => Superseding(d, op)); AppendedSince(ds, fs) && StatusesAgree(fs)
  {
  }

  lemma SupersededExist(ds: seq<Decision>, es: seq<Decision>, op: Operation)
    requires MaySupersede(ds, op) && AppendedSince(ds, es)
    ensures HasId(ds, op.recordId) && HasId(ds, op.successorRecordId) && HasId(es, op.recordId) && HasId(es,
      op.successorRecordId) && op.recordId != op.successorRecordId
  {
    hide Reaches;
    var i, j := FindDecision(ds, op.recordId).value, FindDecision(ds, op.successorRecordId).value;
    assert ds[i].id == es[i].id == op.recordId && ds[j].id == es[j].id == op.successorRecordId;
  }

  lemma LinkSupersession(ds: seq<Decision>, es: seq<Decision>, ops: seq<Operation>, op: Operation)
    requires LinkedSince(ds, es, ops) && op.kind.SupersedeDecision? && MaySupersede(ds, op)
    ensures LinkedSince(ds, Mapped(es, (d: Decision) => Superseding(d, op)), ops + [op])
  {
    hide MaySupersede, AppendedSince, StatusesAgree, Edges, Backlinks, HasId, Mapped, Superseding;
    SupersededExist(ds, es, op);
    SupersedingStatuses(ds, es, op);
    SupersedingEdges(es, op);
    SupersedingBacklinks(es, op);
    assert OpEdges(ops + [op]) == OpEdges(ops) + {(op.successorRecordId, op.recordId)} by {
      OpEdgesStep(ops + [op]);
      assert (ops + [op])[..|ops|] == ops && op in [op];
    }
  }

  lemma LinkAppending(ds: seq<Decision>, es: seq<Decision>, ops: seq<Operation>, d: Decision)
    requires LinkedSince(ds, es, ops) && !HasId(ds, d.id)
    requires d.supersedes == d.supersededBy == [] && d.status == Lifecycle.Accepted
    ensures LinkedSince(ds, es + [d], ops)
  {
    assert StatusesAgree(es + [d]) && AppendedSince(ds, es + [d]) by { hide Edges, Backlinks, OpEdges; }
    assert Edges(es + [d]) == Edges(es) && Backlinks(es + [d]) == Backlinks(es);
  }

  lemma LinkOp(s: Snapshot, u: Snapshot, evidenceRef: Str, ops: seq<Operation>)
    requires ops != [] && Admissible(s, ops[|ops| - 1]) && LinkedSince(s.decisions, u.decisions, ops[..|ops| - 1])
    ensures LinkedSince(s.decisions, ApplyOp(u, evidenceRef, ops[|ops| - 1]).decisions, ops)
  {
    hide WithoutView, ViewOf, CloseFirst, MayTransition, MayAmendView, MaySupersede, Mapped, AppendedSince,
        StatusesAgree, Edges, Backlinks;
    var init, op := ops[..|ops| - 1], ops[|ops| - 1];
    assert ops == init + [op];
    OpEdgesStep(ops);
    if op.kind.SupersedeDecision? {
      LinkSupersession(s.decisions, u.decisions, init, op);
    } else {
      assert OpEdges([op]) == {};
      if op.kind.AppendDecision? {
        LinkAppending(s.decisions, u.decisions, init, Decision(op.recordId, Lifecycle.Accepted, op.title, op.payload,
            [], [], UserSource(evidenceRef)));
      }
    }
  }

  lemma {:induction false} LinksThrough(s: Snapshot, evidenceRef: Str, ops: seq<Operation>)
    requires StatusesAgree(s.decisions) && AllAdmissible(s, ops)
    ensures LinkedSince(s.decisions, ApplyAll(s, evidenceRef, ops).decisions, ops)
  {
    if ops != [] {
      hide ApplyOp, Admissible, LinkedSince;
      LinksThrough(s, evidenceRef, ops[..|ops| - 1]);
      LinkOp(s, ApplyAll(s, evidenceRef, ops[..|ops| - 1]), evidenceRef, ops);
    } else {
      assert OpEdges(ops) == {};
    }
  }

  /** The links a transaction adds start and end at decisions that no earlier link ends at. */
  lemma NewLinksAreFresh(s: Snapshot, ops: seq<Operation>)
    requires LinksSound(s.decisions) && AllAdmissible(s, ops)
    ensures Fresh(Edges(s.decisions), OpEdges(ops))
    ensures forall m :: m in OpEdges(ops) ==> HasId(s.decisions, m.0) && HasId(s.decisions, m.1) && m.0 != m.1
  {
    hide Reaches, Edges;
    forall e, m | e in Edges(s.decisions) && m in OpEdges(ops) ensures e.1 != m.0 && e.1 != m.1 {
      var op :| op in ops && op.kind.SupersedeDecision? && m == (op.successorRecordId, op.recordId);
      assert Admissible(s, op);
      assert e in Backlinks(s.decisions);
      var d :| d in s.decisions && d.id == e.1 && e.0 in d.supersededBy;
    }
    forall m | m in OpEdges(ops) ensures HasId(s.decisions, m.0) && HasId(s.decisions, m.1) && m.0 != m.1 {
      var op :| op in ops && op.kind.SupersedeDecision? && m == (op.successorRecordId, op.recordId);
      assert Admissible(s, op);
    }
  }

  lemma StepKeepsLinks(w: World, s: Snapshot, c: Commit)
    requires LinksSound(s.decisions) && Admitted(w, s, c)
    ensures LinksSound(Successor(s, c.txn).decisions)
    ensures Edges(Successor(s, c.txn).decisions) == Edges(s.decisions) + OpEdges(c.txn.operations)
    ensures Fresh(Edges(s.decisions), OpEdges(c.txn.operations))
  {
    AdmittedOps(w, s, c);
    hide Admit, ApplyAll, Admissible, PolicyGate, ConflictGate, Coherent, Edges, Backlinks, StatusesAgree, OpEdges,
        Fresh;
    LinksThrough(s, c.txn.handoffEvidenceRef, c.txn.operations);
    NewLinksAreFresh(s, c.txn.operations);
    var ds, es := s.decisions, Successor(s, c.txn).decisions;
    assert forall id: i64 :: HasId(ds, id) ==> HasId(es, id);
  }

  // ---- the theorems ----

  /** In every reachable snapshot each link is recorded on both of its ends, exactly the superseded decisions name
      a successor, and the links are those the transactions asked for. */
  lemma {:induction false} LinksAreReciprocal(w: World, log: seq<Commit>)
    requires w.genesis.decisions == [] && IsLedger(w, log)
    ensures LinksSound(Replay(w.genesis, log).decisions)
    ensures Edges(Replay(w.genesis, log).decisions) == LoggedLinks(log)
  {
    if log == [] {
      assert Edges([]) == {} && Backlinks([]) == {};
    } else {
      hide LinksSound, Admitted, Edges, OpEdges;
      var init := log[..|log| - 1];
      LedgerLast(w, log);
      LinksAreReciprocal(w, init);
      StepKeepsLinks(w, Replay(w.genesis, init), log[|log| - 1]);
    }
  }

  lemma EmptyIsAcyclic(es: set<Edge>)
    requires es == {}
    ensures Acyclic(es)
  {
    forall p: seq<i64> | |p| > 1 ensures !Walk(es, p) {
      assert (p[0], p[1]) !in es;
    }
  }

  function LoggedLinks(log: seq<Commit>): set<Edge> {
    if log == [] then {} else LoggedLinks(log[..|log| - 1]) + OpEdges(log[|log| - 1].txn.operations)
  }

  ghost predicate EachAcyclic(log: seq<Commit>) { forall k :: 0 <= k < |log| ==> Acyclic(OpEdges(log[k].txn.operations)) }

  lemma EachAcyclicStep(log: seq<Commit>)
    requires log != []
    ensures EachAcyclic(log) <==> EachAcyclic(log[..|log| - 1]) && Acyclic(OpEdges(log[|log| - 1].txn.operations))
  {
    hide Acyclic, OpEdges;
    var init := log[..|log| - 1];
    assert forall k :: 0 <= k < |init| ==> log[k] == init[k];
  }

  lemma AcyclicStep(w: World, log: seq<Commit>, c: Commit)
    requires w.genesis.decisions == [] && IsLedger(w, log) && Admitted(w, Replay(w.genesis, log), c)
    ensures Acyclic(Edges(Successor(Replay(w.genesis, log), c.txn).decisions)) <==>
      Acyclic(Edges(Replay(w.genesis, log).decisions)) && Acyclic(OpEdges(c.txn.operations))
  {
    hide LinksSound, Admitted, Edges, OpEdges, Acyclic, Fresh, Replay, Successor;
    LinksAreReciprocal(w, log);
    StepKeepsLinks(w, Replay(w.genesis, log), c);
    AcyclicUnion(Edges(Replay(w.genesis, log).decisions), OpEdges(c.txn.operations));
  }

  /** Supersession is acyclic exactly when no single transaction closes a cycle on its own: the gate looks at the
      snapshot before the transaction only. */
  lemma {:induction false} AcyclicExactlyPerTransaction(w: World, log: seq<Commit>)
    requires w.genesis.decisions == [] && IsLedger(w, log)
    ensures Acyclic(Edges(Replay(w.genesis, log).decisions)) <==> EachAcyclic(log)
  {
    if log == [] {
      assert Edges([]) == {};
      EmptyIsAcyclic(Edges([]));
    } else {
      hide Admitted, Edges, OpEdges, Acyclic, Successor, EachAcyclic;
      var init, c := log[..|log| - 1], log[|log| - 1];
      LedgerLast(w, log);
      AcyclicExactlyPerTransaction(w, init);
      AcyclicStep(w, init, c);
      EachAcyclicStep(log);
    }
  }
}
