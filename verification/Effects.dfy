/** What a history leaves behind, record by record: every field of the head from the operations of the history alone
    (the application loop of write_to_cognition in src/persistence.cpp). */
module Effects {
  import opened Prelude
  import opened Cognition
  import opened Text
  import opened Transactions
  import opened Gates
  import opened Ledger
  import opened Genesis
  import opened Identifiers

  // ---- histories as one list of operations ----

  /** An operation and the evidence pointer of its transaction. */
  datatype Act = Act(op: Operation, evidenceRef: Str)

  function WithEvidence(ops: seq<Operation>, evidenceRef: Str): seq<Act> {
    seq(|ops|, i requires 0 <= i < |ops| => Act(ops[i], evidenceRef))
  }

  function ActsOf(t: ContextTransaction): seq<Act> { WithEvidence(t.operations, t.handoffEvidenceRef) }

  /** All operations of a history in order. */
  function Acts(log: seq<Commit>): seq<Act> {
    if log == [] then [] else Acts(log[..|log| - 1]) + ActsOf(log[|log| - 1].txn)
  }

  function Performed(s: Snapshot, acts: seq<Act>): Snapshot {
    if acts == [] then s
    else ApplyOp(Performed(s, acts[..|acts| - 1]), acts[|acts| - 1].evidenceRef, acts[|acts| - 1].op)
  }

  lemma {:induction false} PerformedConcat(s: Snapshot, a: seq<Act>, b: seq<Act>)
    ensures Performed(s, a + b) == Performed(Performed(s, a), b)
  {
    if b == [] {
      assert a + b == a;
    } else {
      hide ApplyOp;
      assert (a + b)[..|a + b| - 1] == a + b[..|b| - 1];
      PerformedConcat(s, a, b[..|b| - 1]);
    }
  }

  lemma {:induction false} PerformedIsApplied(s: Snapshot, evidenceRef: Str, ops: seq<Operation>)
    ensures Performed(s, WithEvidence(ops, evidenceRef)) == ApplyAll(s, evidenceRef, ops)
  {
    var acts := WithEvidence(ops, evidenceRef);
    if ops != [] {
      hide ApplyOp;
      var init := ops[..|ops| - 1];
      assert acts[..|acts| - 1] == WithEvidence(init, evidenceRef);
      PerformedIsApplied(s, evidenceRef, init);
    }
  }

  lemma {:induction false} ReplayIsPerformed(genesis: Snapshot, log: seq<Commit>)
    ensures Replay(genesis, log) == Performed(genesis, Acts(log))
  {
    if log != [] {
      hide ApplyOp;
      var init, t := log[..|log| - 1], log[|log| - 1].txn;
      ReplayIsPerformed(genesis, init);
      hide Performed, Acts, ApplyAll;
      PerformedIsApplied(Performed(genesis, Acts(init)), t.handoffEvidenceRef, t.operations);
      AppendedActs(genesis, log);
    } else {
      assert Acts([]) == [];
    }
  }

  lemma AppendedActs(genesis: Snapshot, log: seq<Commit>)
    requires log != []
    ensures Performed(genesis, Acts(log)) ==
      Performed(Performed(genesis, Acts(log[..|log| - 1])), ActsOf(log[|log| - 1].txn))
  {
    hide ApplyOp;
    PerformedConcat(genesis, Acts(log[..|log| - 1]), ActsOf(log[|log| - 1].txn));
  }

  lemma PerformedStep(s: Snapshot, acts: seq<Act>, a: Act)
    ensures Performed(s, acts + [a]) == ApplyOp(Performed(s, acts), a.evidenceRef, a.op)
  {
    hide ApplyOp;
    assert (acts + [a])[..|acts|] == acts;
  }

  // ---- where the operations of a kind stand ----

  predicate Increasing(places: seq<nat>) { forall i, j :: 0 <= i < j < |places| ==> places[i] < places[j] }

  /** The places of the operations of a kind, in order. */
  function PlacesOf(acts: seq<Act>, kind: OperationKind): seq<nat> {
    if acts == [] then []
    else PlacesOf(acts[..|acts| - 1], kind) + if acts[|acts| - 1].op.kind == kind then [|acts| - 1] else []
  }

  /** They are exactly the places of the kind, each once and in order. */
  lemma {:induction false} PlacesAreThose(acts: seq<Act>, kind: OperationKind)
    ensures forall p :: p in PlacesOf(acts, kind) <==> 0 <= p < |acts| && acts[p].op.kind == kind
    ensures Increasing(PlacesOf(acts, kind))
  {
    if acts != [] {
      var init := acts[..|acts| - 1];
      PlacesAreThose(init, kind);
      assert forall p :: 0 <= p < |init| ==> init[p] == acts[p];
      var places := PlacesOf(init, kind);
      forall i | 0 <= i < |places| ensures places[i] < |init| {
        assert places[i] in places;
      }
    }
  }

  lemma PlacesStep(acts: seq<Act>, a: Act, kind: OperationKind)
    ensures PlacesOf(acts + [a], kind) == PlacesOf(acts, kind) + if a.op.kind == kind then [|acts|] else []
    ensures forall i :: 0 <= i < |PlacesOf(acts, kind)| ==> PlacesOf(acts, kind)[i] < |acts|
  {
    assert (acts + [a])[..|acts|] == acts;
    PlacesAreThose(acts, kind);
    forall i | 0 <= i < |PlacesOf(acts, kind)| ensures PlacesOf(acts, kind)[i] < |acts| {
      assert PlacesOf(acts, kind)[i] in PlacesOf(acts, kind);
    }
  }

  // ---- the state ----

  /** The last operation of a kind. */
  function LastOf(acts: seq<Act>, kind: OperationKind): Option<Operation> {
    var places := PlacesOf(acts, kind);
    PlacesAreThose(acts, kind);
    if places == [] then None else (assert places[|places| - 1] in places; Some(acts[places[|places| - 1]].op))
  }

  /** The state view: current is the text of the last update, the next boundary the id of the last one set, and the rest
      is as founded. */
  predicate StateFollows(s: Snapshot, genesis: Snapshot, acts: seq<Act>) {
    var update, boundary := LastOf(acts, UpdateState), LastOf(acts, SetNextBoundary);
    && s.state.current == (if update.Some? then update.value.payload else genesis.state.current)
    && s.state.nextBoundaryRef == (if boundary.Some? then Decimal(boundary.value.recordId) else genesis.state.nextBoundaryRef)
    && s.state.objective == genesis.state.objective && s.state.checkpointRef == genesis.state.checkpointRef
    && s.state.candidateRef == genesis.state.candidateRef && s.state.repositories == genesis.state.repositories
    && s.state.roadmap == genesis.state.roadmap
  }

  lemma LastStep(acts: seq<Act>, a: Act, kind: OperationKind)
    ensures LastOf(acts + [a], kind) == if a.op.kind == kind then Some(a.op) else LastOf(acts, kind)
  {
    hide PlacesOf;
    PlacesStep(acts, a, kind);
  }

  lemma StateStep(s: Snapshot, a: Act)
    ensures ApplyOp(s, a.evidenceRef, a.op).state ==
      match a.op.kind
      case UpdateState => s.state.(current := a.op.payload)
      case SetNextBoundary => s.state.(nextBoundaryRef := Decimal(a.op.recordId))
      case _ => s.state
  {
    hide Mapped, Find, WithoutView, ViewOf, UserSource, Decimal, CloseFirst;
  }

  lemma {:induction false} StateThrough(genesis: Snapshot, acts: seq<Act>)
    ensures StateFollows(Performed(genesis, acts), genesis, acts)
  {
    hide ApplyOp, Decimal;
    if acts != [] {
      hide LastOf, Performed;
      var init, a := acts[..|acts| - 1], acts[|acts| - 1];
      assert acts == init + [a];
      StateThrough(genesis, init);
      PerformedStep(genesis, init, a);
      StateStep(Performed(genesis, init), a);
      LastStep(init, a, UpdateState);
      LastStep(init, a, SetNextBoundary);
    }
  }

  // ---- records that are only added ----

  predicate Said(provenance: seq<Source>, reference: Str) {
    |provenance| == 1 && provenance[0].kind == UserStatement && provenance[0].reference == reference && provenance[0].note == []
  }

  predicate MemoryFrom(m: MemoryRecord, op: Operation) {
    && m.kind.Code() == op.aux && m.status == Active && m.epistemic == EpistemicType.Verified
    && m.title == op.title && m.statement == op.payload && Said(m.provenance, op.provenanceRef)
  }

  predicate EvidenceFrom(e: EvidenceRecord, op: Operation) { e.boundTo == op.title && e.content == op.payload }

  predicate ProfileFrom(p: ProfileRecord, op: Operation) {
    p.id == op.title && p.kind == op.scope && p.summary == op.payload && p.layer == EnvironmentErgonomics
  }

  /** One record per operation of the kind, in order. */
  predicate MemoryFollows(ms: seq<MemoryRecord>, acts: seq<Act>) {
    var places := PlacesOf(acts, AddMemory);
    PlacesAreThose(acts, AddMemory);
    |ms| == |places| && forall i :: 0 <= i < |ms| ==> places[i] in places && MemoryFrom(ms[i], acts[places[i]].op)
  }

  predicate EvidenceFollows(es: seq<EvidenceRecord>, acts: seq<Act>) {
    var places := PlacesOf(acts, AddEvidence);
    PlacesAreThose(acts, AddEvidence);
    |es| == |places| && forall i :: 0 <= i < |es| ==> places[i] in places && EvidenceFrom(es[i], acts[places[i]].op)
  }

  predicate ProfilesFollow(ps: seq<ProfileRecord>, acts: seq<Act>) {
    var places := PlacesOf(acts, UpsertProfile);
    PlacesAreThose(acts, UpsertProfile);
    |ps| == |places| && forall i :: 0 <= i < |ps| ==> places[i] in places && ProfileFrom(ps[i], acts[places[i]].op)
  }

  /** Kind codes are those of the enumeration (gate 8 checks it). */
  predicate KindsFit(acts: seq<Act>) { forall i :: 0 <= i < |acts| && acts[i].op.kind.AddMemory? ==> acts[i].op.aux <= 5 }

  lemma MemoryStep(s: Snapshot, a: Act)
    requires a.op.kind.AddMemory? ==> a.op.aux <= 5
    ensures var u := ApplyOp(s, a.evidenceRef, a.op).memory;
      if a.op.kind.AddMemory? then |u| == |s.memory| + 1 && u[..|s.memory|] == s.memory && MemoryFrom(u[|s.memory|],
          a.op)
      else u == s.memory
  {
    hide Mapped, Find, WithoutView, ViewOf, Decimal, CloseFirst;
  }

  lemma EvidenceStep(s: Snapshot, a: Act)
    ensures var u := ApplyOp(s, a.evidenceRef, a.op).evidence;
      if a.op.kind.AddEvidence? then
        |u| == |s.evidence| + 1 && u[..|s.evidence|] == s.evidence && EvidenceFrom(u[|s.evidence|], a.op)
      else u == s.evidence
  {
    hide Mapped, Find, WithoutView, ViewOf, Decimal, CloseFirst;
  }

  lemma ProfileStep(s: Snapshot, a: Act)
    ensures var u := ApplyOp(s, a.evidenceRef, a.op).profiles;
      if a.op.kind.UpsertProfile? then
        |u| == |s.profiles| + 1 && u[..|s.profiles|] == s.profiles && ProfileFrom(u[|s.profiles|], a.op)
      else u == s.profiles
  {
    hide Mapped, Find, WithoutView, ViewOf, Decimal, CloseFirst;
  }

  lemma MemoryExtends(ms: seq<MemoryRecord>, ns: seq<MemoryRecord>, acts: seq<Act>, a: Act)
    requires MemoryFollows(ms, acts)
    requires if a.op.kind.AddMemory? then |ns| == |ms| + 1 && ns[..|ms|] == ms && MemoryFrom(ns[|ms|],
      a.op) else ns == ms
    ensures MemoryFollows(ns, acts + [a])
  {
    hide MemoryFrom, PlacesOf;
    PlacesStep(acts, a, AddMemory);
    PlacesAreThose(acts + [a], AddMemory);
    assert forall i :: 0 <= i < |ms| ==> ns[i] == ms[i];
  }

  lemma EvidenceExtends(xs: seq<EvidenceRecord>, ys: seq<EvidenceRecord>, acts: seq<Act>, a: Act)
    requires EvidenceFollows(xs, acts)
    requires if a.op.kind.AddEvidence? then |ys| == |xs| + 1 && ys[..|xs|] == xs && EvidenceFrom(ys[|xs|],
      a.op) else ys == xs
    ensures EvidenceFollows(ys, acts + [a])
  {
    hide EvidenceFrom, PlacesOf;
    PlacesStep(acts, a, AddEvidence);
    PlacesAreThose(acts + [a], AddEvidence);
    assert forall i :: 0 <= i < |xs| ==> ys[i] == xs[i];
  }

  lemma ProfilesExtend(xs: seq<ProfileRecord>, ys: seq<ProfileRecord>, acts: seq<Act>, a: Act)
    requires ProfilesFollow(xs, acts)
    requires if a.op.kind.UpsertProfile? then |ys| == |xs| + 1 && ys[..|xs|] == xs && ProfileFrom(ys[|xs|],
      a.op) else ys == xs
    ensures ProfilesFollow(ys, acts + [a])
  {
    hide ProfileFrom, PlacesOf;
    PlacesStep(acts, a, UpsertProfile);
    PlacesAreThose(acts + [a], UpsertProfile);
    assert forall i :: 0 <= i < |xs| ==> ys[i] == xs[i];
  }

  lemma {:induction false} AdditionsThrough(genesis: Snapshot, acts: seq<Act>)
    requires genesis.memory == [] && genesis.evidence == [] && genesis.profiles == [] && KindsFit(acts)
    ensures var s := Performed(genesis, acts);
      MemoryFollows(s.memory, acts) && EvidenceFollows(s.evidence, acts) && ProfilesFollow(s.profiles, acts)
  {
    if acts == [] {
      hide *;
      NothingFollows(genesis);
    } else {
      hide ApplyOp, MemoryFrom, EvidenceFrom, ProfileFrom, Performed, PlacesOf, MemoryFollows, EvidenceFollows,
        ProfilesFollow;
      var init, a := acts[..|acts| - 1], acts[|acts| - 1];
      assert acts == init + [a];
      var s := Performed(genesis, init);
      AdditionsThrough(genesis, init);
      PerformedStep(genesis, init, a);
      MemoryStep(s, a);
      EvidenceStep(s, a);
      ProfileStep(s, a);
      var u := Performed(genesis, acts);
      MemoryExtends(s.memory, u.memory, init, a);
      EvidenceExtends(s.evidence, u.evidence, init, a);
      ProfilesExtend(s.profiles, u.profiles, init, a);
    }
  }

  lemma NothingFollows(genesis: Snapshot)
    requires genesis.memory == [] && genesis.evidence == [] && genesis.profiles == []
    ensures var s := Performed(genesis, []);
      MemoryFollows(s.memory, []) && EvidenceFollows(s.evidence, []) && ProfilesFollow(s.profiles, [])
  {
  }

  // ---- decisions and their links ----

  predicate Supersedes(op: Operation) { op.kind.SupersedeDecision? }

  /** What operations after place `p` have the decision supersede, in order. */
  function SupersedesAfter(acts: seq<Act>, p: nat, id: i64): seq<i64> {
    if |acts| <= p + 1 then []
    else
      var op := acts[|acts| - 1].op;
      SupersedesAfter(acts[..|acts| - 1], p,
          id) + if Supersedes(op) && op.successorRecordId == id then [op.recordId] else []
  }

  /** What operations after place `p` have supersede the decision, in order. */
  function SupersededAfter(acts: seq<Act>, p: nat, id: i64): seq<i64> {
    if |acts| <= p + 1 then []
    else
      var op := acts[|acts| - 1].op;
      SupersededAfter(acts[..|acts| - 1], p,
          id) + if Supersedes(op) && op.recordId == id then [op.successorRecordId] else []
  }

  predicate DecisionFrom(d: Decision, acts: seq<Act>, p: nat) {
    && p < |acts| && d.id == acts[p].op.recordId && d.title == acts[p].op.title && d.content == acts[p].op.payload
    && Said(d.provenance, acts[p].evidenceRef)
    && d.supersedes == SupersedesAfter(acts, p, d.id) && d.supersededBy == SupersededAfter(acts, p, d.id)
    && d.status == if d.supersededBy == [] then Lifecycle.Accepted else Lifecycle.Superseded
  }

  predicate DecisionsFollow(ds: seq<Decision>, acts: seq<Act>) {
    var places := PlacesOf(acts, AppendDecision);
    |ds| == |places| && forall i :: 0 <= i < |ds| ==> DecisionFrom(ds[i], acts, places[i])
  }

  /** What one operation does to one decision. */
  predicate DecisionMoves(d: Decision, e: Decision, op: Operation) {
    && e.id == d.id && e.title == d.title && e.content == d.content && e.provenance == d.provenance
    && e.supersedes == d.supersedes + (if Supersedes(op) && op.successorRecordId == d.id then [op.recordId] else [])
    && e.supersededBy == d.supersededBy + (if Supersedes(op) && op.recordId == d.id then [op.successorRecordId] else [])
    && e.status == if Supersedes(op) && op.recordId == d.id then Lifecycle.Superseded else d.status
  }

  predicate DecisionStarts(d: Decision, a: Act) {
    && d.id == a.op.recordId && d.title == a.op.title && d.content == a.op.payload && Said(d.provenance, a.evidenceRef)
    && d.supersedes == d.supersededBy == [] && d.status == Lifecycle.Accepted
  }

  predicate DecisionsMove(ds: seq<Decision>, es: seq<Decision>, a: Act) {
    && |es| == |ds| + (if a.op.kind.AppendDecision? then 1 else 0)
    && (forall i :: 0 <= i < |ds| ==> DecisionMoves(ds[i], es[i], a.op))
    && (a.op.kind.AppendDecision? ==> DecisionStarts(es[|ds|], a))
  }

  lemma DecisionsStep(s: Snapshot, a: Act)
    ensures DecisionsMove(s.decisions, ApplyOp(s, a.evidenceRef, a.op).decisions, a)
  {
    hide Find, WithoutView, ViewOf, Decimal, CloseFirst;
  }

  lemma DecisionKeeps(d: Decision, e: Decision, acts: seq<Act>, a: Act, p: nat)
    requires DecisionFrom(d, acts, p) && DecisionMoves(d, e, a.op)
    ensures DecisionFrom(e, acts + [a], p)
  {
    assert (acts + [a])[..|acts|] == acts && (acts + [a])[p] == acts[p];
  }

  lemma DecisionsExtend(ds: seq<Decision>, es: seq<Decision>, acts: seq<Act>, a: Act)
    requires DecisionsFollow(ds, acts) && DecisionsMove(ds, es, a)
    ensures DecisionsFollow(es, acts + [a])
  {
    hide DecisionMoves, PlacesOf;
    PlacesStep(acts, a, AppendDecision);
    var places := PlacesOf(acts, AppendDecision);
    forall i | 0 <= i < |ds| ensures DecisionFrom(es[i], acts + [a], places[i]) {
      DecisionKeeps(ds[i], es[i], acts, a, places[i]);
    }
  }

  lemma {:induction false} DecisionsThrough(genesis: Snapshot, acts: seq<Act>)
    requires genesis.decisions == []
    ensures DecisionsFollow(Performed(genesis, acts).decisions, acts)
  {
    hide ApplyOp;
    if acts != [] {
      hide DecisionsFollow, DecisionsMove, Performed;
      var init, a := acts[..|acts| - 1], acts[|acts| - 1];
      assert acts == init + [a];
      DecisionsThrough(genesis, init);
      PerformedStep(genesis, init, a);
      DecisionsStep(Performed(genesis, init), a);
      DecisionsExtend(Performed(genesis, init).decisions, Performed(genesis, acts).decisions, init, a);
    }
  }

  // ---- conflicts and their resolutions ----

  /** The last resolution of the id after place `p`. */
  function ResolutionAfter(acts: seq<Act>, p: nat, id: Str): Option<Str> {
    if |acts| <= p + 1 then None
    else
      var op := acts[|acts| - 1].op;
      if op.kind.ResolveConflict? && op.title == id then Some(op.payload) else ResolutionAfter(acts[..|acts| - 1], p,
          id)
  }

  predicate ConflictFrom(c: Conflict, acts: seq<Act>, p: nat) {
    && p < |acts| && c.id == acts[p].op.title && c.scope == acts[p].op.scope && c.description == acts[p].op.payload
    && match ResolutionAfter(acts, p, c.id)
       case None => c.status == ConflictStatus.Open && c.resolution == []
       case Some(text) => c.status == ConflictStatus.Resolved && c.resolution == text
  }

  predicate ConflictsFollow(cs: seq<Conflict>, acts: seq<Act>) {
    var places := PlacesOf(acts, OpenConflict);
    |cs| == |places| && forall i :: 0 <= i < |cs| ==> ConflictFrom(cs[i], acts, places[i])
  }

  predicate ConflictMoves(c: Conflict, d: Conflict, op: Operation) {
    && d.id == c.id && d.scope == c.scope && d.description == c.description
    && if op.kind.ResolveConflict? && op.title == c.id then d.status == ConflictStatus.Resolved && d.resolution == op.payload
       else d.status == c.status && d.resolution == c.resolution
  }

  predicate ConflictStarts(c: Conflict, op: Operation) {
    && c.id == op.title && c.scope == op.scope && c.description == op.payload
    && c.status == ConflictStatus.Open && c.resolution == []
  }

  predicate ConflictsMove(cs: seq<Conflict>, ds: seq<Conflict>, a: Act) {
    && |ds| == |cs| + (if a.op.kind.OpenConflict? then 1 else 0)
    && (forall i :: 0 <= i < |cs| ==> ConflictMoves(cs[i], ds[i], a.op))
    && (a.op.kind.OpenConflict? ==> ConflictStarts(ds[|cs|], a.op))
  }

  lemma ConflictsStep(s: Snapshot, a: Act)
    ensures ConflictsMove(s.conflicts, ApplyOp(s, a.evidenceRef, a.op).conflicts, a)
  {
    hide Find, WithoutView, ViewOf, Decimal, CloseFirst, UserSource;
  }

  lemma ConflictKeeps(c: Conflict, d: Conflict, acts: seq<Act>, a: Act, p: nat)
    requires ConflictFrom(c, acts, p) && ConflictMoves(c, d, a.op)
    ensures ConflictFrom(d, acts + [a], p)
  {
    assert (acts + [a])[..|acts|] == acts && (acts + [a])[p] == acts[p];
  }

  lemma ConflictsExtend(cs: seq<Conflict>, ds: seq<Conflict>, acts: seq<Act>, a: Act)
    requires ConflictsFollow(cs, acts) && ConflictsMove(cs, ds, a)
    ensures ConflictsFollow(ds, acts + [a])
  {
    hide ConflictMoves, PlacesOf;
    PlacesStep(acts, a, OpenConflict);
    var places := PlacesOf(acts, OpenConflict);
    forall i | 0 <= i < |cs| ensures ConflictFrom(ds[i], acts + [a], places[i]) {
      ConflictKeeps(cs[i], ds[i], acts, a, places[i]);
    }
  }

  lemma {:induction false} ConflictsThrough(genesis: Snapshot, acts: seq<Act>)
    requires genesis.conflicts == []
    ensures ConflictsFollow(Performed(genesis, acts).conflicts, acts)
  {
    hide ApplyOp;
    if acts != [] {
      hide ConflictsFollow, ConflictsMove, Performed;
      var init, a := acts[..|acts| - 1], acts[|acts| - 1];
      assert acts == init + [a];
      ConflictsThrough(genesis, init);
      PerformedStep(genesis, init, a);
      ConflictsStep(Performed(genesis, init), a);
      ConflictsExtend(Performed(genesis, init).conflicts, Performed(genesis, acts).conflicts, init, a);
    }
  }

  // ---- obligations and what became of them ----

  predicate ClosesIt(op: Operation, id: i64, first: bool) { op.kind.CloseObligation? && op.recordId == id && first }
  predicate TransitsIt(op: Operation, id: i64) { op.kind.TransitionObligation? && op.recordId == id }

  /** The code of the status the last operation after place `p` gave the record; closing reaches the first of an id. */
  function StatusAfter(acts: seq<Act>, p: nat, id: i64, first: bool): int {
    if |acts| <= p + 1 then 0
    else
      var op := acts[|acts| - 1].op;
      if ClosesIt(op, id, first) then 3
      else if TransitsIt(op, id) then op.aux
      else StatusAfter(acts[..|acts| - 1], p, id, first)
  }

  /** The criteria the last transition after place `p` gave the record. */
  function CriteriaAfter(acts: seq<Act>, p: nat, id: i64): Str {
    if |acts| <= p + 1 then []
    else
      var op := acts[|acts| - 1].op;
      if TransitsIt(op, id) then op.payload else CriteriaAfter(acts[..|acts| - 1], p, id)
  }

  predicate IsFirst(os: seq<Obligation>, i: nat)
    requires i < |os|
  {
    forall j :: 0 <= j < i ==> os[j].id != os[i].id
  }

  predicate ObligationFrom(o: Obligation, first: bool, acts: seq<Act>, p: nat) {
    && p < |acts| && o.id == acts[p].op.recordId && o.statement == acts[p].op.payload
    && o.trigger == Manual && o.triggerValue == []
    && o.status.Code() == StatusAfter(acts, p, o.id, first) && o.completionCriteria == CriteriaAfter(acts, p, o.id)
  }

  predicate ObligationsFollow(os: seq<Obligation>, acts: seq<Act>) {
    var places := PlacesOf(acts, UpsertObligation);
    |os| == |places| && forall i :: 0 <= i < |os| ==> ObligationFrom(os[i], IsFirst(os, i), acts, places[i])
  }

  predicate ObligationMoves(o: Obligation, q: Obligation, first: bool, op: Operation) {
    && q.id == o.id && q.statement == o.statement && q.trigger == o.trigger && q.triggerValue == o.triggerValue
    && q.status.Code() == (if ClosesIt(op, o.id, first) then 3 else if TransitsIt(op,
        o.id) then op.aux else o.status.Code())
    && q.completionCriteria == if TransitsIt(op, o.id) then op.payload else o.completionCriteria
  }

  predicate ObligationStarts(o: Obligation, op: Operation) {
    && o.id == op.recordId && o.statement == op.payload && o.trigger == Manual && o.triggerValue == []
    && o.status == ObligationStatus.Open && o.completionCriteria == []
  }

  predicate ObligationsMove(os: seq<Obligation>, qs: seq<Obligation>, a: Act) {
    && |qs| == |os| + (if a.op.kind.UpsertObligation? then 1 else 0)
    && (forall i :: 0 <= i < |os| ==> ObligationMoves(os[i], qs[i], IsFirst(os, i), a.op))
    && (a.op.kind.UpsertObligation? ==> ObligationStarts(qs[|os|], a.op))
  }

  lemma ClosedFirst(os: seq<Obligation>, id: i64, i: nat)
    requires i < |os|
    ensures CloseFirst(os, id)[i] == if os[i].id == id && IsFirst(os, i) then os[i].(status := Done) else os[i]
  {
  }

  lemma ObligationsStep(s: Snapshot, a: Act)
    requires a.op.kind.TransitionObligation? ==> a.op.aux <= 5
    ensures ObligationsMove(s.obligations, ApplyOp(s, a.evidenceRef, a.op).obligations, a)
  {
    hide Find, WithoutView, ViewOf, Decimal, CloseFirst, UserSource;
    if a.op.kind.CloseObligation? {
      forall i | 0 <= i < |s.obligations| ensures CloseFirst(s.obligations, a.op.recordId)[i] ==
        if s.obligations[i].id == a.op.recordId && IsFirst(s.obligations, i) then s.obligations[i].(status := Done)
        else s.obligations[i]
      {
        ClosedFirst(s.obligations, a.op.recordId, i);
      }
    }
  }

  lemma ObligationKeeps(o: Obligation, q: Obligation, first: bool, acts: seq<Act>, a: Act, p: nat)
    requires ObligationFrom(o, first, acts, p) && ObligationMoves(o, q, first, a.op)
    ensures ObligationFrom(q, first, acts + [a], p)
  {
    assert (acts + [a])[..|acts|] == acts && (acts + [a])[p] == acts[p];
  }

  lemma ObligationsExtend(os: seq<Obligation>, qs: seq<Obligation>, acts: seq<Act>, a: Act)
    requires ObligationsFollow(os, acts) && ObligationsMove(os, qs, a)
    ensures ObligationsFollow(qs, acts + [a])
  {
    hide PlacesOf, IsFirst;
    PlacesStep(acts, a, UpsertObligation);
    var places := PlacesOf(acts, UpsertObligation);
    forall i | 0 <= i < |os| ensures ObligationFrom(qs[i], IsFirst(qs, i), acts + [a], places[i]) {
      ObligationKeeps(os[i], qs[i], IsFirst(os, i), acts, a, places[i]);
      FirstStays(os, qs, i);
    }
  }

  lemma FirstStays(os: seq<Obligation>, qs: seq<Obligation>, i: nat)
    requires i < |os| <= |qs| && forall j :: 0 <= j < |os| ==> qs[j].id == os[j].id
    ensures IsFirst(qs, i) == IsFirst(os, i)
  {
  }

  predicate StatusesFit(acts: seq<Act>) {
    forall i :: 0 <= i < |acts| && acts[i].op.kind.TransitionObligation? ==> acts[i].op.aux <= 5
  }

  lemma {:induction false} ObligationsThrough(genesis: Snapshot, acts: seq<Act>)
    requires genesis.obligations == [] && StatusesFit(acts)
    ensures ObligationsFollow(Performed(genesis, acts).obligations, acts)
  {
    hide ApplyOp;
    if acts != [] {
      hide ObligationsFollow, ObligationsMove, Performed;
      var init, a := acts[..|acts| - 1], acts[|acts| - 1];
      assert acts == init + [a];
      ObligationsThrough(genesis, init);
      PerformedStep(genesis, init, a);
      ObligationsStep(Performed(genesis, init), a);
      ObligationsExtend(Performed(genesis, init).obligations, Performed(genesis, acts).obligations, init, a);
    }
  }

  // ---- views that stand ----

  /** The places of the amendments whose view stands: added, and its id not retired since. */
  function StandingPlaces(acts: seq<Act>): seq<nat> {
    if acts == [] then []
    else
      var op := acts[|acts| - 1].op;
      var before := StandingPlaces(acts[..|acts| - 1]);
      if RetiresView(op, op.title) then Unretired(before, acts, op.title)
      else before + if AddsView(op, op.title) then [|acts| - 1] else []
  }

  function Unretired(places: seq<nat>, acts: seq<Act>, id: Str): seq<nat> {
    if places == [] then []
    else
      var p := places[|places| - 1];
      Unretired(places[..|places| - 1], acts, id) + if p < |acts| && acts[p].op.title == id then [] else [p]
  }

  predicate StandsAt(acts: seq<Act>, p: int) {
    && 0 <= p < |acts| && AddsView(acts[p].op, acts[p].op.title)
    && forall q :: p < q < |acts| ==> !RetiresView(acts[q].op, acts[p].op.title)
  }

  lemma {:induction false} UnretiredAre(places: seq<nat>, acts: seq<Act>, id: Str)
    requires Increasing(places)
    ensures forall p :: p in Unretired(places, acts, id) <==> p in places && !(p < |acts| && acts[p].op.title == id)
    ensures Increasing(Unretired(places, acts, id))
  {
    if places != [] {
      var init := places[..|places| - 1];
      UnretiredAre(init, acts, id);
      var kept := Unretired(init, acts, id);
      forall i | 0 <= i < |kept| ensures kept[i] < places[|places| - 1] {
        assert kept[i] in init;
      }
      assert forall p :: p in places <==> p in init || p == places[|places| - 1];
    }
  }

  lemma StandsAtStep(acts: seq<Act>, a: Act, p: int)
    ensures StandsAt(acts + [a], p) <==>
      if p == |acts| then AddsView(a.op, a.op.title)
      else StandsAt(acts, p) && !RetiresView(a.op, acts[p].op.title)
  {
    var all := acts + [a];
    assert all[|acts|] == a && forall q :: 0 <= q < |acts| ==> all[q] == acts[q];
  }

  predicate ExactlyStanding(places: seq<nat>, acts: seq<Act>) {
    && (forall i :: 0 <= i < |places| ==> StandsAt(acts, places[i]))
    && (forall p :: 0 <= p < |acts| && StandsAt(acts, p) ==> p in places)
  }

  lemma StandingRetired(places: seq<nat>, acts: seq<Act>, a: Act)
    requires ExactlyStanding(places, acts) && Increasing(places) && RetiresView(a.op, a.op.title)
    ensures var kept := Unretired(places, acts + [a], a.op.title); ExactlyStanding(kept, acts + [a]) && Increasing(kept)
  {
    var all := acts + [a];
    var kept := Unretired(places, all, a.op.title);
    UnretiredAre(places, all, a.op.title);
    hide Increasing, Unretired;
    forall i | 0 <= i < |kept| ensures StandsAt(all, kept[i]) {
      assert kept[i] in kept && kept[i] in places;
      StandsAtStep(acts, a, kept[i]);
    }
    forall p: nat | p < |all| && StandsAt(all, p) ensures p in kept {
      StandsAtStep(acts, a, p);
    }
  }

  lemma StandingAdded(places: seq<nat>, acts: seq<Act>, a: Act)
    requires ExactlyStanding(places, acts) && Increasing(places) && !RetiresView(a.op, a.op.title)
    ensures var more := places + if AddsView(a.op, a.op.title) then [|acts|] else [];
      ExactlyStanding(more, acts + [a]) && Increasing(more)
  {
    var all := acts + [a];
    forall i | 0 <= i < |places| ensures StandsAt(all, places[i]) {
      StandsAtStep(acts, a, places[i]);
      NotRetired(a.op, acts[places[i]].op.title);
    }
    StandsAtStep(acts, a, |acts|);
    hide StandsAt;
    forall p: nat | p < |acts| && StandsAt(all, p) ensures p in places {
      StandsAtStep(acts, a, p);
    }
  }

  lemma NotRetired(op: Operation, id: Str)
    requires !RetiresView(op, op.title)
    ensures !RetiresView(op, id)
  {
  }

  /** They are exactly the places that stand, each once and in order. */
  lemma {:induction false} StandingAreThose(acts: seq<Act>)
    ensures ExactlyStanding(StandingPlaces(acts), acts) && Increasing(StandingPlaces(acts))
  {
    if acts != [] {
      hide ExactlyStanding, Increasing, RetiresView, AddsView;
      var init, a := acts[..|acts| - 1], acts[|acts| - 1];
      assert acts == init + [a];
      StandingAreThose(init);
      if RetiresView(a.op, a.op.title) {
        StandingRetired(StandingPlaces(init), init, a);
      } else {
        StandingAdded(StandingPlaces(init), init, a);
      }
    }
  }

  /** `agent:human`, split at the first colon; text without one, which no gate lets pass, is both. */
  predicate SplitAtColon(scope: Str, agent: Str, human: Str) {
    if exists i :: 0 <= i < |scope| && scope[i] == 58 then
      scope == agent + [58] + human && forall i :: 0 <= i < |agent| ==> agent[i] != 58
    else agent == human == scope
  }

  predicate ViewFrom(v: ViewSpec, op: Operation) {
    && v.id == op.title && v.summary == op.payload && SplitAtColon(op.scope, v.agent, v.human)
    && v.profileRefs == SplitRefs(op.provenanceRef)
  }

  predicate ViewsFollow(vs: seq<ViewSpec>, acts: seq<Act>) {
    var places := StandingPlaces(acts);
    |vs| == |places| && forall i :: 0 <= i < |vs| ==> places[i] < |acts| && ViewFrom(vs[i], acts[places[i]].op)
  }

  lemma ViewOfFrom(op: Operation)
    ensures ViewFrom(ViewOf(op), op)
  {
    var at := Find(op.scope, IsColon);
    if at.Some? {
      assert op.scope[at.value] == 58;
      assert op.scope == op.scope[..at.value] + [58] + op.scope[at.value + 1..];
    }
  }

  lemma ViewsStep(s: Snapshot, a: Act)
    ensures var u := ApplyOp(s, a.evidenceRef, a.op).views;
      if RetiresView(a.op, a.op.title) then u == WithoutView(s.views, a.op.title)
      else if AddsView(a.op, a.op.title) then u == s.views + [ViewOf(a.op)]
      else u == s.views
  {
    hide Find, WithoutView, ViewOf, Decimal, CloseFirst, UserSource, Mapped;
  }

  lemma {:induction false} WithoutSnoc(vs: seq<ViewSpec>, v: ViewSpec, id: Str)
    ensures WithoutView(vs + [v], id) == WithoutView(vs, id) + if v.id == id then [] else [v]
  {
    if vs == [] {
      assert [v][1..] == [] && [] + [v] == [v];
    } else {
      assert (vs + [v])[1..] == vs[1..] + [v] && (vs + [v])[0] == vs[0];
      WithoutSnoc(vs[1..], v, id);
    }
  }

  predicate Aligned(vs: seq<ViewSpec>, places: seq<nat>, acts: seq<Act>) {
    |vs| == |places| && forall i :: 0 <= i < |vs| ==> places[i] < |acts| && ViewFrom(vs[i], acts[places[i]].op)
  }

  lemma {:induction false} UnretiredAlign(vs: seq<ViewSpec>, places: seq<nat>, acts: seq<Act>, id: Str)
    requires Aligned(vs, places, acts)
    ensures Aligned(WithoutView(vs, id), Unretired(places, acts, id), acts)
  {
    hide ViewFrom;
    if vs != [] {
      var init, v := vs[..|vs| - 1], vs[|vs| - 1];
      assert vs == init + [v];
      UnretiredAlign(init, places[..|places| - 1], acts, id);
      WithoutSnoc(init, v, id);
      SameId(v, acts[places[|places| - 1]].op);
    }
  }

  lemma SameId(v: ViewSpec, op: Operation)
    requires ViewFrom(v, op)
    ensures v.id == op.title
  {
  }

  lemma ViewsExtend(vs: seq<ViewSpec>, us: seq<ViewSpec>, acts: seq<Act>, a: Act)
    requires ViewsFollow(vs, acts)
    requires if RetiresView(a.op, a.op.title) then us == WithoutView(vs, a.op.title)
      else if AddsView(a.op, a.op.title) then us == vs + [ViewOf(a.op)] else us == vs
    ensures ViewsFollow(us, acts + [a])
  {
    hide ViewFrom, ViewOf, RetiresView, AddsView;
    var all, places := acts + [a], StandingPlaces(acts);
    assert all[..|acts|] == acts && all[|acts|] == a;
    assert Aligned(vs, places, all) by {
      assert forall i :: 0 <= i < |vs| ==> all[places[i]] == acts[places[i]];
    }
    UnretiredAlign(vs, places, all, a.op.title);
    ViewOfFrom(a.op);
  }

  lemma {:induction false} ViewsThrough(genesis: Snapshot, acts: seq<Act>)
    requires genesis.views == []
    ensures ViewsFollow(Performed(genesis, acts).views, acts)
  {
    hide ApplyOp;
    if acts != [] {
      hide ViewsFollow, Performed, RetiresView, AddsView, WithoutView, ViewOf;
      var init, a := acts[..|acts| - 1], acts[|acts| - 1];
      assert acts == init + [a];
      ViewsThrough(genesis, init);
      PerformedStep(genesis, init, a);
      ViewsStep(Performed(genesis, init), a);
      ViewsExtend(Performed(genesis, init).views, Performed(genesis, acts).views, init, a);
    }
  }

  // ---- the whole head ----

  /** Every field of the snapshot, from the operations alone. */
  predicate HeadFollows(s: Snapshot, genesis: Snapshot, acts: seq<Act>) {
    && StateFollows(s, genesis, acts) && MemoryFollows(s.memory, acts) && EvidenceFollows(s.evidence, acts)
    && ProfilesFollow(s.profiles, acts) && DecisionsFollow(s.decisions, acts) && ConflictsFollow(s.conflicts, acts)
    && ObligationsFollow(s.obligations, acts) && ViewsFollow(s.views, acts) && SameGovernance(genesis, s)
  }

  predicate CodesFit(ops: seq<Operation>) {
    forall i :: 0 <= i < |ops| && (ops[i].kind.AddMemory? || ops[i].kind.TransitionObligation?) ==> ops[i].aux <= 5
  }

  lemma AdmittedCodes(w: World, s: Snapshot, c: Commit)
    requires Admitted(w, s, c)
    ensures CodesFit(c.txn.operations)
  {
    AdmittedOps(w, s, c);
    hide Admitted, MaySupersede, MayAmendView;
    forall i | 0 <= i < |c.txn.operations| &&
      (c.txn.operations[i].kind.AddMemory? || c.txn.operations[i].kind.TransitionObligation?)
      ensures c.txn.operations[i].aux <= 5
    {
      assert Admissible(s, c.txn.operations[i]);
    }
  }

  lemma {:induction false} LoggedCodes(w: World, log: seq<Commit>)
    requires IsLedger(w, log)
    ensures KindsFit(Acts(log)) && StatusesFit(Acts(log))
  {
    if log != [] {
      hide Admitted, Replay;
      LedgerLast(w, log);
      LoggedCodes(w, log[..|log| - 1]);
      AdmittedCodes(w, Replay(w.genesis, log[..|log| - 1]), log[|log| - 1]);
    }
  }

  /** In every history the head is, field by field, what its operations say: one record per operation of the kind and in
      order, each with the text, the provenance, the links, the status and the resolution that its own operation and the
      ones after it gave it. */
  lemma HeadFollowsHistory(w: World, log: seq<Commit>)
    requires Founding(w.genesis) && IsLedger(w, log)
    ensures HeadFollows(Replay(w.genesis, log), w.genesis, Acts(log))
  {
    hide IsLedger, Performed, Acts, Replay, StateFollows, MemoryFollows, EvidenceFollows, ProfilesFollow,
        DecisionsFollow,
      ConflictsFollow, ObligationsFollow, ViewsFollow, SameGovernance, KindsFit, StatusesFit;
    ReplayIsPerformed(w.genesis, log);
    LoggedCodes(w, log);
    StateThrough(w.genesis, Acts(log));
    AdditionsThrough(w.genesis, Acts(log));
    DecisionsThrough(w.genesis, Acts(log));
    ConflictsThrough(w.genesis, Acts(log));
    ObligationsThrough(w.genesis, Acts(log));
    ViewsThrough(w.genesis, Acts(log));
    GovernanceIsConstant(w.genesis, log);
  }
}
