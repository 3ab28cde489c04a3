/** The gates of a write and the successor snapshot it builds, as functions of the snapshot written to
    (write_to_cognition, gates 6 to 9, in src/persistence.cpp). */
module Gates {
  import opened Prelude
  import opened Cognition
  import opened Text
  import opened Transactions

  /** The first element satisfying `p`, as the linear searches find it. */
  function Find<T>(xs: seq<T>, p: T -> bool): (r: Option<nat>)
    ensures r.Some? ==> r.value < |xs| && p(xs[r.value]) && forall j :: 0 <= j < r.value ==> !p(xs[j])
    ensures r.None? ==> forall j :: 0 <= j < |xs| ==> !p(xs[j])
  {
    if xs == [] then None
    else if p(xs[0]) then Some(0)
    else match Find(xs[1..], p) case None => None case Some(i) => Some(i + 1)
  }

  function FindDecision(ds: seq<Decision>, id: i64): Option<nat> { Find(ds, (d: Decision) => d.id == id) }
  function FindObligation(os: seq<Obligation>, id: i64): Option<nat> { Find(os, (o: Obligation) => o.id == id) }
  function FindConflict(cs: seq<Conflict>, id: Str): Option<nat> { Find(cs, (c: Conflict) => c.id == id) }
  function FindProfile(ps: seq<ProfileRecord>, id: Str): Option<nat> { Find(ps, (p: ProfileRecord) => p.id == id) }

  // ---- gate 6-7: policy table and review evidence ----

  function ClassOf(kind: OperationKind): OperationClass {
    match kind
    case AppendDecision | SupersedeDecision => DecisionAcceptance
    case AddMemory => MemoryWrite
    case UpsertObligation | CloseObligation | TransitionObligation => ObligationWrite
    case UpdateState | SetNextBoundary => StateUpdate
    case OpenConflict | ResolveConflict => ConflictWrite
    case AddEvidence | UpsertProfile | AmendViewSpec => EvidenceWrite
  }

  /** Who writes: the root principal of the canonical head and the binding of the lease holder. */
  datatype Writer = Writer(rootPrincipal: Str, leaseBinding: Str)

  function PolicyGate(w: World, s: Snapshot, t: ContextTransaction, a: Writer, op: Operation): Option<RefusalReason> {
    match Find(s.policy.handoff, (row: HandoffPolicy) => row.opClass == ClassOf(op.kind))
    case None => Some(GovernanceDenied)
    case Some(i) =>
      if s.policy.handoff[i].required != Handoff.Review then None
      else
        match t.h2
        case None => Some(HandoffMissing)
        case Some(h2) =>
          if h2.reviewer == [] || h2.reviewerBinding == [] || h2.reviewRef == [] || t.handoffEvidenceRef == [] then Some(HandoffMissing)
          else if h2.reviewerBinding == a.leaseBinding then Some(HandoffInvalid)
          else if h2.reviewer != a.rootPrincipal then Some(HandoffInvalid)
          else if h2.reviewedDeltaDigest != DigestOperations(w, t.operations) then Some(HandoffInvalid)
          else None
  }

  // ---- gate 7.5: open conflicts ----

  predicate Blocks(c: Conflict,
      op: Operation) { c.status == ConflictStatus.Open && (c.scope == [] || c.scope == op.scope) }

  function ConflictGate(s: Snapshot, op: Operation): Option<RefusalReason> {
    if op.kind.OpenConflict? || op.kind.ResolveConflict? then None
    else if exists i :: 0 <= i < |s.conflicts| && Blocks(s.conflicts[i], op) then Some(ConflictUnresolved)
    else None
  }

  // ---- gate 8: record invariants ----

  /** Does the chain of superseded decisions from `d` reach `target`? None: not settled within `depth` links. The
      recursion of the program has no depth: it returns an answer exactly when some depth settles. */
  function Reaches(ds: seq<Decision>, d: Decision, target: i64, depth: nat): Option<bool>
    decreases depth, 0
  {
    if d.id == target then Some(true)
    else if depth == 0 then None
    else ReachesAny(ds, d.supersedes, target, depth - 1)
  }

  function ReachesAny(ds: seq<Decision>, ids: seq<i64>, target: i64, depth: nat): Option<bool>
    decreases depth, |ids| + 1
  {
    if ids == [] then Some(false)
    else
      match FindDecision(ds, ids[0])
      case None => ReachesAny(ds, ids[1..], target, depth)
      case Some(i) =>
        var prior := Reaches(ds, ds[i], target, depth);
        if prior == Some(false) then ReachesAny(ds, ids[1..], target, depth) else prior
  }

  predicate IsComma(c: byte) { c == ',' as int }
  predicate IsColon(c: byte) { c == ':' as int }

  /** Profile references are listed with commas between them. */
  function SplitRefs(text: Str): seq<Str> { Words(text, IsComma) }

  predicate Distinct<T(==)>(xs: seq<T>) { forall i, j :: 0 <= i < j < |xs| ==> xs[i] != xs[j] }

  predicate RefsResolve(ps: seq<ProfileRecord>, refs: seq<Str>) {
    forall i :: 0 <= i < |refs| ==> FindProfile(ps, refs[i]).Some?
  }

  /** The record-level conditions of one operation, judged against the snapshot before the transaction. */
  predicate Admissible(s: Snapshot, op: Operation) {
    match op.kind
    case AppendDecision =>
      op.recordId > 0 && op.title != [] && op.payload != [] && FindDecision(s.decisions, op.recordId).None?
    case SupersedeDecision => MaySupersede(s.decisions, op)
    case AddMemory => op.payload != [] && op.provenanceRef != [] && op.aux <= 5
    case UpsertObligation => op.recordId > 0 && op.payload != []
    case CloseObligation =>
      exists i :: 0 <= i < |s.obligations| && s.obligations[i].id == op.recordId && s.obligations[i].status == ObligationStatus.Open
    case TransitionObligation => MayTransition(s.obligations, op)
    case UpdateState => op.payload != []
    case AddEvidence => op.title != [] && op.payload != []
    case UpsertProfile => op.title != [] && op.scope != [] && op.payload != [] && FindProfile(s.profiles,
        op.title).None?
    case OpenConflict => op.title != [] && op.payload != [] && FindConflict(s.conflicts, op.title).None?
    case ResolveConflict =>
      var c := FindConflict(s.conflicts, op.title);
      c.Some? && s.conflicts[c.value].status == ConflictStatus.Open && op.payload != []
    case AmendViewSpec => MayAmendView(s, op)
    case SetNextBoundary =>
      var o := FindObligation(s.obligations, op.recordId);
      o.Some? && s.obligations[o.value].status == ObligationStatus.Open
  }

  /** Both decisions exist, are different records and accepted. */
  predicate BothAccepted(ds: seq<Decision>, op: Operation) {
    var superseded, successor := FindDecision(ds, op.recordId), FindDecision(ds, op.successorRecordId);
    && superseded.Some? && successor.Some? && superseded.value != successor.value
    && ds[superseded.value].status == Lifecycle.Accepted && ds[successor.value].status == Lifecycle.Accepted
  }

  predicate MaySupersede(ds: seq<Decision>, op: Operation) {
    && BothAccepted(ds, op)
    && Reaches(ds, ds[FindDecision(ds, op.successorRecordId).value], op.recordId, |ds|) == Some(false)
    && op.payload != []
  }

  predicate MayTransition(os: seq<Obligation>, op: Operation) {
    var o := FindObligation(os, op.recordId);
    && o.Some? && os[o.value].status == ObligationStatus.Open && op.payload != [] && op.aux <= 5
    && op.aux != 0 && op.aux != 2
    && (op.aux == 5 ==> FindObligation(os, op.successorRecordId).Some?)
  }

  predicate MayAmendView(s: Snapshot, op: Operation) {
    var refs := SplitRefs(op.provenanceRef);
    && op.title != [] && op.scope != [] && Find(op.scope, IsColon).Some?
    && (op.aux == 0 ==> forall i :: 0 <= i < |s.views| ==> s.views[i].id != op.title)
    && refs != [] && RefsResolve(s.profiles, refs) && Distinct(refs)
  }

  function InvariantGate(s: Snapshot, op: Operation): Option<RefusalReason> {
    if Admissible(s, op) then None else Some(InvariantFailed)
  }

  // ---- application ----

  function Superseding(d: Decision, op: Operation): Decision {
    var closed := if d.id == op.recordId
      then d.(status := Lifecycle.Superseded, supersededBy := d.supersededBy + [op.successorRecordId]) else d;
    if closed.id == op.successorRecordId then closed.(supersedes := closed.supersedes + [op.recordId]) else closed
  }

  function Transitioned(o: Obligation, op: Operation): Obligation {
    if o.id == op.recordId && op.aux < |OBLIGATION_STATUSES|
    then o.(status := OBLIGATION_STATUSES[op.aux], completionCriteria := op.payload) else o
  }

  function Resolving(c: Conflict, op: Operation): Conflict {
    if c.id == op.title then c.(status := ConflictStatus.Resolved, resolution := op.payload) else c
  }

  function CloseFirst(os: seq<Obligation>, id: i64): (closed: seq<Obligation>)
    ensures |closed| == |os|
  {
    match FindObligation(os, id) case None => os case Some(i) => os[i := os[i].(status := Done)]
  }

  function WithoutView(views: seq<ViewSpec>, id: Str): seq<ViewSpec> {
    if views == [] then [] else (if views[0].id == id then [] else [views[0]]) + WithoutView(views[1..], id)
  }

  /** `agent:human`, split at the first colon. */
  function ViewOf(op: Operation): ViewSpec {
    var at := Find(op.scope, IsColon);
    ViewSpec(op.title,
      if at.Some? then op.scope[..at.value] else op.scope,
      if at.Some? then op.scope[at.value + 1..] else op.scope,
      op.payload, SplitRefs(op.provenanceRef))
  }

  function UserSource(reference: Str): seq<Source> { [Source(UserStatement, reference, [])] }

  /** One operation applied; out-of-range codes, which no admitted operation carries, change nothing. */
  function ApplyOp(s: Snapshot, evidenceRef: Str, op: Operation): Snapshot {
    match op.kind
    case AppendDecision =>
      s.(decisions := s.decisions + [Decision(op.recordId, Lifecycle.Accepted, op.title, op.payload, [], [],
          UserSource(evidenceRef))])
    case SupersedeDecision => s.(decisions := Mapped(s.decisions, (d: Decision) => Superseding(d, op)))
    case AddMemory =>
      if op.aux < |MEMORY_KINDS| then
        s.(memory := s.memory + [MemoryRecord(MEMORY_KINDS[op.aux], EpistemicType.Verified, Active, op.title,
            op.payload, UserSource(op.provenanceRef))])
      else s
    case UpsertObligation =>
      s.(obligations := s.obligations + [Obligation(ObligationStatus.Open, Manual, [], op.recordId, op.payload, [])])
    case CloseObligation => s.(obligations := CloseFirst(s.obligations, op.recordId))
    case TransitionObligation => s.(obligations := Mapped(s.obligations, (o: Obligation) => Transitioned(o, op)))
    case UpdateState => s.(state := s.state.(current := op.payload))
    case AddEvidence => s.(evidence := s.evidence + [EvidenceRecord(op.title, op.payload)])
    case UpsertProfile => s.(profiles := s.profiles + [ProfileRecord(op.title, op.scope, op.payload,
        EnvironmentErgonomics)])
    case OpenConflict =>
      s.(conflicts := s.conflicts + [Conflict(op.title, ConflictStatus.Open, op.scope, op.payload, [])])
    case ResolveConflict => s.(conflicts := Mapped(s.conflicts, (c: Conflict) => Resolving(c, op)))
    case AmendViewSpec =>
      if op.aux == 1 then s.(views := WithoutView(s.views, op.title)) else s.(views := s.views + [ViewOf(op)])
    case SetNextBoundary => s.(state := s.state.(nextBoundaryRef := Decimal(op.recordId)))
  }

  function ApplyAll(s: Snapshot, evidenceRef: Str, ops: seq<Operation>): Snapshot {
    if ops == [] then s else ApplyOp(ApplyAll(s, evidenceRef, ops[..|ops| - 1]), evidenceRef, ops[|ops| - 1])
  }

  function Successor(s: Snapshot, t: ContextTransaction): Snapshot { ApplyAll(s, t.handoffEvidenceRef, t.operations) }

  // ---- gate 9 and the whole judgement ----

  predicate NamesBoundary(o: Obligation, ref: Str) { Decimal(o.id) == ref && o.status == ObligationStatus.Open }

  /** The next boundary, when set, names open work. */
  predicate Coherent(s: Snapshot) {
    s.state.nextBoundaryRef == [] ||
    exists i :: 0 <= i < |s.obligations| && NamesBoundary(s.obligations[i], s.state.nextBoundaryRef)
  }

  function FirstRefusal(ops: seq<Operation>, gate: Operation -> Option<RefusalReason>): (r: Option<RefusalReason>)
    ensures r.None? <==> forall i :: 0 <= i < |ops| ==> gate(ops[i]).None?
  {
    if ops == [] then None else if gate(ops[0]).Some? then gate(ops[0]) else FirstRefusal(ops[1..], gate)
  }

  /** Gates 6 to 9 in order: the first refusal, or None when the transaction may be stored. */
  function Admit(w: World, s: Snapshot, t: ContextTransaction, a: Writer): Option<RefusalReason> {
    var policy := FirstRefusal(t.operations, (op: Operation) => PolicyGate(w, s, t, a, op));
    var conflict := FirstRefusal(t.operations, (op: Operation) => ConflictGate(s, op));
    var record := FirstRefusal(t.operations, (op: Operation) => InvariantGate(s, op));
    if policy.Some? then policy
    else if conflict.Some? then conflict
    else if record.Some? then record
    else if Coherent(Successor(s, t)) then None
    else Some(InvariantFailed)
  }

  // ---- the two fields the format drops decide nothing ----

  lemma FindAgrees<T, U>(xs: seq<T>, p: T -> bool, ys: seq<U>, q: U -> bool)
    requires |xs| == |ys| && forall i :: 0 <= i < |xs| ==> p(xs[i]) == q(ys[i])
    ensures Find(xs, p) == Find(ys, q)
  {
  }

  lemma CanonFinds(s: Snapshot, id: i64)
    ensures FindObligation(Canon(s).obligations, id) == FindObligation(s.obligations, id)
  {
    FindAgrees(Canon(s).obligations, (o: Obligation) => o.id == id, s.obligations, (o: Obligation) => o.id == id);
  }

  lemma CanonAdmissible(s: Snapshot, op: Operation)
    ensures Admissible(Canon(s), op) == Admissible(s, op)
  {
    CanonFinds(s, op.recordId);
    CanonFinds(s, op.successorRecordId);
    if op.kind.CloseObligation? {
      assert forall i :: 0 <= i < |s.obligations| ==> Canon(s).obligations[i] == CanonObligation(s.obligations[i]);
    }
  }

  lemma CanonObligationOps(s: Snapshot, op: Operation)
    ensures Mapped(CloseFirst(Canon(s).obligations, op.recordId), CanonObligation) == Mapped(CloseFirst(s.obligations,
      op.recordId), CanonObligation)
    ensures Mapped(Mapped(Canon(s).obligations, (o: Obligation) => Transitioned(o, op)), CanonObligation)
      == Mapped(Mapped(s.obligations, (o: Obligation) => Transitioned(o, op)), CanonObligation)
  {
    CanonFinds(s, op.recordId);
  }

  predicate TouchesDropped(kind: OperationKind) {
    kind.AddMemory? || kind.UpsertObligation? || kind.CloseObligation? || kind.TransitionObligation?
  }

  lemma CanonApplyElsewhere(s: Snapshot, evidenceRef: Str, op: Operation)
    requires !TouchesDropped(op.kind)
    ensures ApplyOp(Canon(s), evidenceRef, op) == Canon(ApplyOp(s, evidenceRef, op))
  {
    hide Mapped, Find, WithoutView, ViewOf, UserSource, Decimal;
  }

  lemma CanonApplyOp(s: Snapshot, evidenceRef: Str, op: Operation)
    ensures Canon(ApplyOp(Canon(s), evidenceRef, op)) == Canon(ApplyOp(s, evidenceRef, op))
  {
    CanonIdempotent(s);
    CanonIdempotent(ApplyOp(s, evidenceRef, op));
    if !TouchesDropped(op.kind) {
      CanonApplyElsewhere(s, evidenceRef, op);
    } else {
      var c, d := ApplyOp(Canon(s), evidenceRef, op), ApplyOp(s, evidenceRef, op);
      CanonObligationOps(s, op);
      assert Mapped(c.memory, CanonMemory) == Mapped(d.memory, CanonMemory);
      assert Mapped(c.obligations, CanonObligation) == Mapped(d.obligations, CanonObligation);
    }
  }

  lemma {:induction false} CanonApplyAll(s: Snapshot, evidenceRef: Str, ops: seq<Operation>)
    ensures Canon(ApplyAll(Canon(s), evidenceRef, ops)) == Canon(ApplyAll(s, evidenceRef, ops))
  {
    if ops == [] {
      assert Canon(Canon(s)) == Canon(s);
    } else {
      var init, last := ops[..|ops| - 1], ops[|ops| - 1];
      CanonApplyAll(s, evidenceRef, init);
      CanonApplyOp(ApplyAll(Canon(s), evidenceRef, init), evidenceRef, last);
      CanonApplyOp(ApplyAll(s, evidenceRef, init), evidenceRef, last);
    }
  }

  lemma CanonCoherent(s: Snapshot)
    ensures Coherent(Canon(s)) == Coherent(s)
  {
    assert forall i :: 0 <= i < |s.obligations| ==> Canon(s).obligations[i] == CanonObligation(s.obligations[i]);
  }

  /** A snapshot and its restored form get the same judgement and build the same successor up to restoring. */
  lemma RestoredJudgedAlike(w: World, s: Snapshot, u: Snapshot, t: ContextTransaction, a: Writer)
    requires Canon(s) == Canon(u)
    ensures Admit(w, s, t, a) == Admit(w, u, t, a)
    ensures Canon(Successor(s, t)) == Canon(Successor(u, t))
  {
    CanonJudgedAlike(w, s, t, a);
    CanonJudgedAlike(w, u, t, a);
  }

  lemma {:induction false} RefusalsAgree(ops: seq<Operation>, g: Operation -> Option<RefusalReason>,
      h: Operation -> Option<RefusalReason>)
    requires forall op :: g(op) == h(op)
    ensures FirstRefusal(ops, g) == FirstRefusal(ops, h)
  {
    if ops != [] {
      RefusalsAgree(ops[1..], g, h);
    }
  }

  lemma CanonJudgedAlike(w: World, s: Snapshot, t: ContextTransaction, a: Writer)
    ensures Admit(w, s, t, a) == Admit(w, Canon(s), t, a)
    ensures Canon(Successor(s, t)) == Canon(Successor(Canon(s), t))
  {
    CanonApplyAll(s, t.handoffEvidenceRef, t.operations);
    CanonCoherent(Successor(s, t));
    CanonCoherent(Successor(Canon(s), t));
    forall op: Operation ensures InvariantGate(s, op) == InvariantGate(Canon(s), op) {
      CanonAdmissible(s, op);
    }
    RefusalsAgree(t.operations, (op: Operation) => PolicyGate(w, s, t, a, op), (op: Operation) => PolicyGate(w,
        Canon(s), t, a, op));
    RefusalsAgree(t.operations, (op: Operation) => ConflictGate(s, op), (op: Operation) => ConflictGate(Canon(s), op));
    RefusalsAgree(t.operations, (op: Operation) => InvariantGate(s, op), (op: Operation) => InvariantGate(Canon(s),
        op));
  }
}
