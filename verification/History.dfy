/** History is append-only, and the references kept in the snapshot stay meaningful, over every ledger. */
module History {
  import opened Prelude
  import opened Cognition
  import opened Text
  import opened Transactions
  import opened Gates
  import opened Ledger

  // ---- decisions, obligations and the plain lists, whatever the operation ----

  /** Identity, content and provenance stay, links are only appended, and Superseded is final. */
  predicate DecisionGrows(d: Decision, e: Decision) {
    && e.id == d.id && e.title == d.title && e.content == d.content && e.provenance == d.provenance
    && d.supersedes <= e.supersedes && d.supersededBy <= e.supersededBy
    && (e.status == d.status || e.status == Lifecycle.Superseded)
  }

  predicate ObligationKept(o: Obligation, p: Obligation) {
    p.id == o.id && p.statement == o.statement && p.trigger == o.trigger && p.triggerValue == o.triggerValue
  }

  predicate RecordsGrow(s: Snapshot, u: Snapshot) {
    && s.memory <= u.memory && s.evidence <= u.evidence && s.profiles <= u.profiles
    && |s.decisions| <= |u.decisions| && (forall i :: 0 <= i < |s.decisions| ==> DecisionGrows(s.decisions[i], u.decisions[i]))
    && |s.obligations| <= |u.obligations| && (forall i :: 0 <= i < |s.obligations| ==> ObligationKept(s.obligations[i], u.obligations[i]))
  }

  lemma RecordsGrowTransitive(s: Snapshot, u: Snapshot, v: Snapshot)
    requires RecordsGrow(s, u) && RecordsGrow(u, v)
    ensures RecordsGrow(s, v)
  {
    assert forall i :: 0 <= i < |s.decisions| ==> DecisionGrows(s.decisions[i], u.decisions[i]) && DecisionGrows(u.decisions[i], v.decisions[i]);
    assert forall i :: 0 <= i < |s.obligations| ==> ObligationKept(s.obligations[i], u.obligations[i]) && ObligationKept(u.obligations[i], v.obligations[i]);
  }

  lemma ApplyOpGrows(s: Snapshot, evidenceRef: Str, op: Operation)
    ensures RecordsGrow(s, ApplyOp(s, evidenceRef, op))
  {
    hide WithoutView, ViewOf, UserSource, Decimal;
  }

  lemma {:induction false} ApplyAllGrows(s: Snapshot, evidenceRef: Str, ops: seq<Operation>)
    ensures RecordsGrow(s, ApplyAll(s, evidenceRef, ops))
  {
    if ops != [] {
      hide ApplyOp, RecordsGrow;
      var init := ApplyAll(s, evidenceRef, ops[..|ops| - 1]);
      ApplyAllGrows(s, evidenceRef, ops[..|ops| - 1]);
      ApplyOpGrows(init, evidenceRef, ops[|ops| - 1]);
      RecordsGrowTransitive(s, init, ApplyAll(s, evidenceRef, ops));
    } else {
      RecordsGrowReflexive(s);
    }
  }

  lemma RecordsGrowReflexive(s: Snapshot)
    ensures RecordsGrow(s, s)
  {
  }

  // ---- conflicts ----

  /** Records of one conflict id are open or resolved together. */
  predicate ConflictsAgree(cs: seq<Conflict>) {
    && (forall i, j :: 0 <= i < |cs| && 0 <= j < |cs| && cs[i].id == cs[j].id ==> cs[i].status == cs[j].status)
    && (forall i :: 0 <= i < |cs| && cs[i].status == ConflictStatus.Resolved ==> cs[i].resolution != [])
  }

  /** A resolved conflict is frozen; an open one keeps everything but its resolution. */
  predicate ConflictGrows(c: Conflict, d: Conflict) {
    && d.id == c.id && d.scope == c.scope && d.description == c.description
    && (c.status == ConflictStatus.Resolved ==> d == c)
  }

  predicate ConflictsGrow(cs: seq<Conflict>, ds: seq<Conflict>) {
    |cs| <= |ds| && forall i :: 0 <= i < |cs| ==> ConflictGrows(cs[i], ds[i])
  }

  /** Conflicts opened by the running transaction have ids new to it and stay open in it. */
  predicate OpenedSince(cs: seq<Conflict>, ds: seq<Conflict>) {
    forall i :: |cs| <= i < |ds| ==> ds[i].status == ConflictStatus.Open && forall j :: 0 <= j < |cs| ==> cs[j].id != ds[i].id
  }

  /** Agreement, growth and openings together. */
  predicate ConflictsKept(cs: seq<Conflict>, ds: seq<Conflict>) {
    ConflictsAgree(ds) && ConflictsGrow(cs, ds) && OpenedSince(cs, ds)
  }

  lemma OpensConflict(cs: seq<Conflict>, ds: seq<Conflict>, c: Conflict)
    requires ConflictsKept(cs, ds) && c.status == ConflictStatus.Open && forall j :: 0 <= j < |cs| ==> cs[j].id != c.id
    ensures ConflictsKept(cs, ds + [c])
  {
    assert forall i :: 0 <= i < |cs| ==> ConflictGrows(cs[i], ds[i]);
    assert forall i :: 0 <= i < |ds| && ds[i].id == c.id ==> ds[i].status == ConflictStatus.Open;
  }

  lemma ResolvedAgree(ds: seq<Conflict>, op: Operation)
    requires ConflictsAgree(ds) && op.payload != []
    ensures ConflictsAgree(Mapped(ds, (c: Conflict) => Resolving(c, op)))
  {
  }

  lemma ResolvedGrow(cs: seq<Conflict>, ds: seq<Conflict>, op: Operation)
    requires ConflictsGrow(cs, ds)
    requires forall i :: 0 <= i < |cs| && cs[i].id == op.title ==> cs[i].status == ConflictStatus.Open
    ensures ConflictsGrow(cs, Mapped(ds, (c: Conflict) => Resolving(c, op)))
  {
  }

  lemma ResolvesConflict(cs: seq<Conflict>, ds: seq<Conflict>, op: Operation)
    requires ConflictsAgree(cs) && ConflictsKept(cs, ds) && op.payload != []
    requires FindConflict(cs, op.title).Some? && cs[FindConflict(cs, op.title).value].status == ConflictStatus.Open
    ensures ConflictsKept(cs, Mapped(ds, (c: Conflict) => Resolving(c, op)))
  {
    var at := FindConflict(cs, op.title).value;
    assert cs[at].id == op.title;
    assert forall i :: 0 <= i < |cs| && cs[i].id == op.title ==> cs[i].status == ConflictStatus.Open;
    hide ConflictsAgree, ConflictsGrow, FindConflict;
    ResolvedAgree(ds, op);
    ResolvedGrow(cs, ds, op);
  }

  lemma ConflictOp(s: Snapshot, u: Snapshot, evidenceRef: Str, op: Operation)
    requires ConflictsAgree(s.conflicts) && Admissible(s, op) && ConflictsKept(s.conflicts, u.conflicts)
    ensures ConflictsKept(s.conflicts, ApplyOp(u, evidenceRef, op).conflicts)
  {
    hide WithoutView, ViewOf, UserSource, Decimal, MaySupersede, MayTransition, MayAmendView, CloseFirst, ConflictsKept,
      ConflictsAgree, Mapped;
    match op.kind
    case OpenConflict =>
      OpensConflict(s.conflicts, u.conflicts, Conflict(op.title, ConflictStatus.Open, op.scope, op.payload, []));
    case ResolveConflict => ResolvesConflict(s.conflicts, u.conflicts, op);
    case _ => assert ApplyOp(u, evidenceRef, op).conflicts == u.conflicts;
  }

  lemma {:induction false} ConflictsThrough(s: Snapshot, evidenceRef: Str, ops: seq<Operation>)
    requires ConflictsAgree(s.conflicts) && AllAdmissible(s, ops)
    ensures ConflictsKept(s.conflicts, ApplyAll(s, evidenceRef, ops).conflicts)
  {
    if ops != [] {
      hide ApplyOp, Admissible, ConflictsKept;
      ConflictsThrough(s, evidenceRef, ops[..|ops| - 1]);
      ConflictOp(s, ApplyAll(s, evidenceRef, ops[..|ops| - 1]), evidenceRef, ops[|ops| - 1]);
    }
  }

  // ---- obligations are never blocked ----

  predicate NoneBlocked(os: seq<Obligation>) { forall i :: 0 <= i < |os| ==> os[i].status != Blocked }

  lemma UnblockedOp(s: Snapshot, u: Snapshot, evidenceRef: Str, op: Operation)
    requires NoneBlocked(u.obligations) && Admissible(s, op)
    ensures NoneBlocked(ApplyOp(u, evidenceRef, op).obligations)
  {
    hide WithoutView, ViewOf, UserSource, Decimal, MaySupersede, MayAmendView;
  }

  lemma {:induction false} UnblockedThrough(s: Snapshot, evidenceRef: Str, ops: seq<Operation>)
    requires NoneBlocked(s.obligations) && AllAdmissible(s, ops)
    ensures NoneBlocked(ApplyAll(s, evidenceRef, ops).obligations)
  {
    if ops != [] {
      hide ApplyOp, Admissible;
      UnblockedThrough(s, evidenceRef, ops[..|ops| - 1]);
      UnblockedOp(s, ApplyAll(s, evidenceRef, ops[..|ops| - 1]), evidenceRef, ops[|ops| - 1]);
    }
  }

  // ---- views ----

  predicate ViewResolves(ps: seq<ProfileRecord>, v: ViewSpec) {
    v.profileRefs != [] && Distinct(v.profileRefs) && RefsResolve(ps, v.profileRefs)
  }

  predicate ViewsResolve(s: Snapshot) { forall i :: 0 <= i < |s.views| ==> ViewResolves(s.profiles, s.views[i]) }

  lemma StillResolves(ps: seq<ProfileRecord>, qs: seq<ProfileRecord>, v: ViewSpec)
    requires ps <= qs && ViewResolves(ps, v)
    ensures ViewResolves(qs, v)
  {
    forall i | 0 <= i < |v.profileRefs| ensures FindProfile(qs, v.profileRefs[i]).Some? {
      var at := FindProfile(ps, v.profileRefs[i]).value;
      assert qs[at] == ps[at];
    }
  }

  lemma {:induction false} WithoutViewKeeps(views: seq<ViewSpec>, id: Str)
    ensures forall v :: v in WithoutView(views, id) <==> v in views && v.id != id
  {
    if views != [] {
      WithoutViewKeeps(views[1..], id);
      assert views == [views[0]] + views[1..];
    }
  }

  lemma ViewOp(s: Snapshot, u: Snapshot, evidenceRef: Str, op: Operation)
    requires Admissible(s, op) && s.profiles <= u.profiles && ViewsResolve(u)
    ensures ViewsResolve(ApplyOp(u, evidenceRef, op))
  {
    hide Mapped, Find, UserSource, Decimal, MaySupersede, MayTransition, CloseFirst, WithoutView, SplitRefs;
    var v := ApplyOp(u, evidenceRef, op);
    WithoutViewKeeps(u.views, op.title);
    forall i | 0 <= i < |v.views| ensures ViewResolves(v.profiles, v.views[i]) {
      if op.kind.AmendViewSpec? && v.views[i] == ViewOf(op) {
        StillResolves(s.profiles, v.profiles, ViewOf(op));
      } else {
        assert v.views[i] in u.views;
        StillResolves(u.profiles, v.profiles, v.views[i]);
      }
    }
  }

  lemma {:induction false} ViewsThrough(s: Snapshot, evidenceRef: Str, ops: seq<Operation>)
    requires ViewsResolve(s) && AllAdmissible(s, ops)
    ensures ViewsResolve(ApplyAll(s, evidenceRef, ops))
  {
    if ops != [] {
      hide ApplyOp, Admissible, ViewsResolve;
      ViewsThrough(s, evidenceRef, ops[..|ops| - 1]);
      ApplyAllGrows(s, evidenceRef, ops[..|ops| - 1]);
      ViewOp(s, ApplyAll(s, evidenceRef, ops[..|ops| - 1]), evidenceRef, ops[|ops| - 1]);
    }
  }

  // ---- the theorems ----

  /** What every reachable snapshot satisfies: views resolve, the next boundary names open work, conflicts agree
      and nothing is blocked. */
  predicate Sound(s: Snapshot) {
    ConflictsAgree(s.conflicts) && NoneBlocked(s.obligations) && ViewsResolve(s) && Coherent(s)
  }

  predicate Grows(s: Snapshot, u: Snapshot) { RecordsGrow(s, u) && ConflictsGrow(s.conflicts, u.conflicts) }

  lemma StepKeepsSound(w: World, s: Snapshot, c: Commit)
    requires Sound(s) && Admitted(w, s, c)
    ensures Sound(Successor(s, c.txn)) && Grows(s, Successor(s, c.txn))
  {
    AdmittedOps(w, s, c);
    hide Admit, ApplyAll, Admissible, PolicyGate, ConflictGate, Coherent, ViewsResolve, NoneBlocked, ConflictsAgree,
        RecordsGrow, ConflictsGrow;
    ConflictsThrough(s, c.txn.handoffEvidenceRef, c.txn.operations);
    UnblockedThrough(s, c.txn.handoffEvidenceRef, c.txn.operations);
    ViewsThrough(s, c.txn.handoffEvidenceRef, c.txn.operations);
    ApplyAllGrows(s, c.txn.handoffEvidenceRef, c.txn.operations);
  }

  lemma GrowsTransitive(s: Snapshot, u: Snapshot, v: Snapshot)
    requires Grows(s, u) && Grows(u, v)
    ensures Grows(s, v)
  {
    RecordsGrowTransitive(s, u, v);
    assert forall i :: 0 <= i < |s.conflicts| ==> ConflictGrows(s.conflicts[i], u.conflicts[i]) && ConflictGrows(u.conflicts[i], v.conflicts[i]);
  }

  /** Every reachable snapshot is sound. */
  lemma {:induction false} LedgerIsSound(w: World, log: seq<Commit>)
    requires Sound(w.genesis) && IsLedger(w, log)
    ensures Sound(Replay(w.genesis, log))
  {
    if log != [] {
      hide Sound, Admitted;
      var init := log[..|log| - 1];
      LedgerLast(w, log);
      LedgerIsSound(w, init);
      StepKeepsSound(w, Replay(w.genesis, init), log[|log| - 1]);
    }
  }

  /** Between any two points of a history, records only grow: memory, evidence and profiles are prefixes,
      decisions keep their content and links and stay superseded, resolved conflicts stay as they are. */
  lemma {:induction false} HistoryIsAppendOnly(w: World, log: seq<Commit>, j: nat)
    requires Sound(w.genesis) && IsLedger(w, log) && j <= |log|
    ensures Grows(Replay(w.genesis, log[..j]), Replay(w.genesis, log))
  {
    hide Sound, Admitted, RecordsGrow, ConflictGrows;
    var here := Replay(w.genesis, log);
    if j == |log| {
      assert log[..j] == log;
      RecordsGrowReflexive(here);
      ConflictsGrowReflexive(here.conflicts);
    } else {
      var init := log[..|log| - 1];
      LedgerLast(w, log);
      assert init[..j] == log[..j];
      HistoryIsAppendOnly(w, init, j);
      LedgerIsSound(w, init);
      StepKeepsSound(w, Replay(w.genesis, init), log[|log| - 1]);
      GrowsTransitive(Replay(w.genesis, log[..j]), Replay(w.genesis, init), here);
    }
  }

  lemma ConflictsGrowReflexive(cs: seq<Conflict>)
    ensures ConflictsGrow(cs, cs)
  {
  }

  // ---- a global conflict freezes everything but conflicts ----

  predicate GloballyBlocked(s: Snapshot) {
    exists i :: 0 <= i < |s.conflicts| && s.conflicts[i].status == ConflictStatus.Open && s.conflicts[i].scope == []
  }

  lemma {:induction false} OnlyConflictsThrough(s: Snapshot, evidenceRef: Str, ops: seq<Operation>)
    requires forall i :: 0 <= i < |ops| ==> ops[i].kind.OpenConflict? || ops[i].kind.ResolveConflict?
    ensures ApplyAll(s, evidenceRef, ops) == s.(conflicts := ApplyAll(s, evidenceRef, ops).conflicts)
  {
    if ops != [] {
      hide Mapped, WithoutView, ViewOf, UserSource, Decimal, CloseFirst;
      OnlyConflictsThrough(s, evidenceRef, ops[..|ops| - 1]);
    }
  }

  lemma GlobalConflictFreezes(w: World, s: Snapshot, c: Commit)
    requires Admitted(w, s, c) && GloballyBlocked(s)
    ensures Successor(s, c.txn) == s.(conflicts := Successor(s, c.txn).conflicts)
  {
    AdmittedOps(w, s, c);
    hide Admit, ApplyAll, Admissible, PolicyGate, Coherent;
    var i :| 0 <= i < |s.conflicts| && s.conflicts[i].status == ConflictStatus.Open && s.conflicts[i].scope == [];
    forall k | 0 <= k < |c.txn.operations|
      ensures c.txn.operations[k].kind.OpenConflict? || c.txn.operations[k].kind.ResolveConflict?
    {
      assert Blocks(s.conflicts[i], c.txn.operations[k]);
      assert ConflictGate(s, c.txn.operations[k]).None?;
    }
    OnlyConflictsThrough(s, c.txn.handoffEvidenceRef, c.txn.operations);
  }

  /** As long as some conflict without scope is open, history changes nothing but conflicts. */
  lemma {:induction false} FrozenWhileBlocked(w: World, log: seq<Commit>, j: nat)
    requires IsLedger(w, log) && j <= |log|
    requires forall k :: j <= k < |log| ==> GloballyBlocked(Replay(w.genesis, log[..k]))
    ensures Replay(w.genesis, log) == Replay(w.genesis, log[..j]).(conflicts := Replay(w.genesis, log).conflicts)
  {
    if j == |log| {
      assert log[..j] == log;
    } else {
      hide Admitted, GloballyBlocked, Successor;
      var init := log[..|log| - 1];
      LedgerLast(w, log);
      assert forall k :: 0 <= k <= |init| ==> init[..k] == log[..k];
      FrozenWhileBlocked(w, init, j);
      GlobalConflictFreezes(w, Replay(w.genesis, init), log[|log| - 1]);
    }
  }

  // ---- closing an obligation ----

  predicate OpenRecord(o: Obligation, id: i64) { o.id == id && o.status == ObligationStatus.Open }

  /** How many records of the id are open. */
  function OpenRecords(os: seq<Obligation>, id: i64): nat {
    if os == [] then 0 else (if OpenRecord(os[0], id) then 1 else 0) + OpenRecords(os[1..], id)
  }

  lemma {:induction false} OpenAfterUpdate(os: seq<Obligation>, id: i64, i: nat, o: Obligation)
    requires i < |os|
    ensures OpenRecords(os[i := o], id) ==
      OpenRecords(os, id) - (if OpenRecord(os[i], id) then 1 else 0) + (if OpenRecord(o, id) then 1 else 0)
  {
    if i == 0 {
      assert os[0 := o][1..] == os[1..];
    } else {
      assert os[i := o][1..] == os[1..][i - 1 := o];
      OpenAfterUpdate(os[1..], id, i - 1, o);
    }
  }

  lemma {:induction false} OpenWhereFound(os: seq<Obligation>, id: i64)
    ensures OpenRecords(os, id) > 0 <==> exists i :: 0 <= i < |os| && OpenRecord(os[i], id)
  {
    if os != [] {
      OpenWhereFound(os[1..], id);
      if i :| 0 <= i < |os[1..]| && OpenRecord(os[1..][i], id) {
        assert OpenRecord(os[i + 1], id);
      }
      if i :| 0 <= i < |os| && OpenRecord(os[i], id) {
        assert i > 0 ==> OpenRecord(os[1..][i - 1], id);
      }
    }
  }

  /** The gate looks for any open record of the id, the application closes the first record of the id: an admitted
      closing closes one open record when the first is open, and changes no open record otherwise. So it leaves none
      open exactly when the first record of the id is the only open one. */
  lemma ClosingClosesExactlyTheFirst(s: Snapshot, op: Operation)
    requires op.kind.CloseObligation? && Admissible(s, op)
    ensures var os, left, first := s.obligations, OpenRecords(CloseFirst(s.obligations, op.recordId), op.recordId),
        FindObligation(s.obligations, op.recordId);
      && first.Some? && OpenRecords(os, op.recordId) > 0
      && left == OpenRecords(os, op.recordId) - (if OpenRecord(os[first.value], op.recordId) then 1 else 0)
      && (left == 0 <==> OpenRecord(os[first.value], op.recordId) && OpenRecords(os, op.recordId) == 1)
  {
    var os := s.obligations;
    OpenWhereFound(os, op.recordId);
    var i :| 0 <= i < |os| && os[i].id == op.recordId && os[i].status == ObligationStatus.Open;
    assert OpenRecord(os[i], op.recordId);
    var first := FindObligation(os, op.recordId);
    OpenAfterUpdate(os, op.recordId, first.value, os[first.value].(status := Done));
  }

  /** There are records of the id, and the first of them is not open. */
  predicate Shut(os: seq<Obligation>, id: i64) {
    var first := FindObligation(os, id);
    first.Some? && os[first.value].status != ObligationStatus.Open
  }

  /** Every record of the id but the first keeps its status. */
  predicate KeptBehind(os: seq<Obligation>, ps: seq<Obligation>, id: i64) {
    && FindObligation(ps, id) == FindObligation(os, id) && |os| <= |ps|
    && forall i :: 0 <= i < |os| && os[i].id == id && FindObligation(os, id) != Some(i) ==>
      ps[i].id == id && ps[i].status == os[i].status
  }

  lemma FoundFirst(os: seq<Obligation>, id: i64, i: nat)
    requires i < |os| && os[i].id == id && forall j :: 0 <= j < i ==> os[j].id != id
    ensures FindObligation(os, id) == Some(i)
  {
  }

  lemma ShutOp(s: Snapshot, u: Snapshot, evidenceRef: Str, op: Operation, id: i64)
    requires Admissible(s, op) && Shut(s.obligations, id) && Shut(u.obligations, id)
    ensures var v := ApplyOp(u, evidenceRef, op);
      Shut(v.obligations, id) && KeptBehind(u.obligations, v.obligations, id)
  {
    hide WithoutView, ViewOf, UserSource, Decimal, MaySupersede, MayAmendView;
    var first := FindObligation(u.obligations, id).value;
    var v := ApplyOp(u, evidenceRef, op);
    FoundFirst(v.obligations, id, first);
  }

  lemma KeptTransitive(os: seq<Obligation>, ps: seq<Obligation>, qs: seq<Obligation>, id: i64)
    requires KeptBehind(os, ps, id) && KeptBehind(ps, qs, id)
    ensures KeptBehind(os, qs, id)
  {
    hide FindObligation;
    forall i | 0 <= i < |os| && os[i].id == id && FindObligation(os, id) != Some(i)
      ensures qs[i].id == id && qs[i].status == os[i].status
    {
      assert ps[i].id == id && ps[i].status == os[i].status;
    }
  }

  lemma {:induction false} ShutThrough(s: Snapshot, evidenceRef: Str, ops: seq<Operation>, id: i64)
    requires Shut(s.obligations, id) && AllAdmissible(s, ops)
    ensures var u := ApplyAll(s, evidenceRef, ops);
      Shut(u.obligations, id) && KeptBehind(s.obligations, u.obligations, id)
  {
    if ops != [] {
      hide ApplyOp, Admissible, Shut, KeptBehind;
      var init := ApplyAll(s, evidenceRef, ops[..|ops| - 1]);
      ShutThrough(s, evidenceRef, ops[..|ops| - 1], id);
      ShutOp(s, init, evidenceRef, ops[|ops| - 1], id);
      KeptTransitive(s.obligations, init.obligations, ApplyAll(s, evidenceRef, ops).obligations, id);
    }
  }

  lemma {:induction false} OpenRecordsGrow(os: seq<Obligation>, ps: seq<Obligation>, id: i64)
    requires |os| <= |ps| && forall i :: 0 <= i < |os| && OpenRecord(os[i], id) ==> OpenRecord(ps[i], id)
    ensures OpenRecords(os, id) <= OpenRecords(ps, id)
  {
    if os != [] {
      forall i | 0 <= i < |os[1..]| && OpenRecord(os[1..][i], id) ensures OpenRecord(ps[1..][i], id) {
        assert OpenRecord(os[i + 1], id) && ps[1..][i] == ps[i + 1];
      }
      OpenRecordsGrow(os[1..], ps[1..], id);
    }
  }

  lemma KeptOpen(os: seq<Obligation>, ps: seq<Obligation>, id: i64)
    requires Shut(os, id) && KeptBehind(os, ps, id)
    ensures OpenRecords(os, id) <= OpenRecords(ps, id)
  {
    OpenRecordsGrow(os, ps, id);
  }

  lemma {:induction false} ShutStays(w: World, log: seq<Commit>, j: nat, id: i64)
    requires IsLedger(w, log) && j <= |log| && Shut(Replay(w.genesis, log[..j]).obligations, id)
    ensures var here, now := Replay(w.genesis, log[..j]).obligations, Replay(w.genesis, log).obligations;
      Shut(now, id) && KeptBehind(here, now, id)
  {
    hide Shut, KeptBehind, Admitted, AllAdmissible, ConflictGate, PolicyGate, Coherent, ApplyAll;
    var here := Replay(w.genesis, log[..j]).obligations;
    if j == |log| {
      assert log[..j] == log;
      KeptReflexive(here, id);
    } else {
      var init, c := log[..|log| - 1], log[|log| - 1];
      LedgerLast(w, log);
      assert init[..j] == log[..j];
      ShutStays(w, init, j, id);
      var s := Replay(w.genesis, init);
      AdmittedOps(w, s, c);
      ShutThrough(s, c.txn.handoffEvidenceRef, c.txn.operations, id);
      KeptTransitive(here, s.obligations, Replay(w.genesis, log).obligations, id);
    }
  }

  lemma KeptReflexive(os: seq<Obligation>, id: i64)
    ensures KeptBehind(os, os, id)
  {
  }

  /** Once the first record of an id is not open, it never is again, every other record of the id keeps its status over
      all later history, and the open ones never become fewer: open work behind it can never be closed. */
  lemma OpenWorkBehindIsStuck(w: World, log: seq<Commit>, j: nat, id: i64)
    requires IsLedger(w, log) && j <= |log| && Shut(Replay(w.genesis, log[..j]).obligations, id)
    ensures var here, now := Replay(w.genesis, log[..j]).obligations, Replay(w.genesis, log).obligations;
      Shut(now, id) && KeptBehind(here, now, id) && OpenRecords(here, id) <= OpenRecords(now, id)
  {
    hide Shut, KeptBehind, IsLedger, Replay, OpenRecords;
    ShutStays(w, log, j, id);
    KeptOpen(Replay(w.genesis, log[..j]).obligations, Replay(w.genesis, log).obligations, id);
  }
}
