/** The gates and the application of a transaction in the form the program has them: searches, loops over the
    operations and loops over the records (gates 6 to 9 of write_to_cognition in src/persistence.cpp). */
module GateChecks {
  import opened Prelude
  import opened Cognition
  import opened Text
  import opened Transactions
  import opened Gates
  import opened DigestWriter

  /** The linear search behind every find. */
  method Search<T>(xs: seq<T>, p: T -> bool) returns (r: Option<nat>)
    ensures r == Find(xs, p)
  {
    var i := 0;
    while i < |xs|
      invariant i <= |xs|
      invariant Find(xs, p) == match Find(xs[i..], p) case None => None case Some(k) => Some(i + k)
    {
      if p(xs[i]) {
        return Some(i);
      }
      assert xs[i..][1..] == xs[i + 1..];
      i := i + 1;
    }
    return None;
  }

  /** Splits a list of references at its commas, as the getline loop does. */
  method ParseRefs(text: Str) returns (refs: seq<Str>)
    ensures refs == SplitRefs(text)
  {
    refs := [];
    var word: Str := [];
    var i := 0;
    while i < |text|
      invariant i <= |text|
      invariant SplitRefs(text) == refs + WordsFrom(text[i..], IsComma, word)
    {
      ghost var rest := text[i..];
      assert rest[1..] == text[i + 1..];
      if IsComma(text[i]) {
        if word != [] {
          refs := refs + [word];
        }
        word := [];
      } else {
        word := word + [text[i]];
      }
      i := i + 1;
    }
    if word != [] {
      refs := refs + [word];
    }
  }

  // ---- gate 8 ----

  method ResolveAll(ps: seq<ProfileRecord>, refs: seq<Str>) returns (ok: bool)
    ensures ok == RefsResolve(ps, refs)
  {
    for i := 0 to |refs|
      invariant forall j :: 0 <= j < i ==> FindProfile(ps, refs[j]).Some?
    {
      var found := Search(ps, (p: ProfileRecord) => p.id == refs[i]);
      if found.None? {
        return false;
      }
    }
    return true;
  }

  method AllDistinct(refs: seq<Str>) returns (ok: bool)
    ensures ok == Distinct(refs)
  {
    for i := 0 to |refs|
      invariant forall j, k :: 0 <= j < i && j < k < |refs| ==> refs[j] != refs[k]
    {
      for k := i + 1 to |refs|
        invariant forall l :: i < l < k ==> refs[i] != refs[l]
      {
        if refs[i] == refs[k] {
          return false;
        }
      }
    }
    return true;
  }

  /** The recursion of reachesDecision, followed for `depth` links. As many links as there are decisions tell whether it
      ends (`Reachability.DepthSuffices`). */
  method ReachesDecision(ds: seq<Decision>, d: Decision, target: i64, depth: nat) returns (r: Option<bool>)
    ensures r == Reaches(ds, d, target, depth)
    decreases depth
  {
    if d.id == target {
      return Some(true);
    }
    if depth == 0 {
      return None;
    }
    var i := 0;
    while i < |d.supersedes|
      invariant i <= |d.supersedes|
      invariant ReachesAny(ds, d.supersedes, target, depth - 1) == ReachesAny(ds, d.supersedes[i..], target, depth - 1)
    {
      var id := d.supersedes[i];
      assert d.supersedes[i..][1..] == d.supersedes[i + 1..];
      var prior := Search(ds, (e: Decision) => e.id == id);
      if prior.Some? {
        var found := ReachesDecision(ds, ds[prior.value], target, depth - 1);
        if found.None? || found.value {
          return found;
        }
      }
      i := i + 1;
    }
    return Some(false);
  }

  /** Refuses where the recursion does not end; of all that pass the other checks it is refused only there
      (`Reachability.GateEndsExactlyOffLoops`). */
  method CheckSupersede(ds: seq<Decision>, op: Operation) returns (ok: bool)
    ensures ok == MaySupersede(ds, op)
  {
    var superseded := Search(ds, (d: Decision) => d.id == op.recordId);
    var successor := Search(ds, (d: Decision) => d.id == op.successorRecordId);
    if superseded.None? || successor.None? || superseded == successor
      || ds[superseded.value].status != Lifecycle.Accepted || ds[successor.value].status != Lifecycle.Accepted
    {
      return false;
    }
    var reaches := ReachesDecision(ds, ds[successor.value], op.recordId, |ds|);
    if reaches != Some(false) {
      return false;
    }
    return op.payload != [];
  }

  method CheckTransition(os: seq<Obligation>, op: Operation) returns (ok: bool)
    ensures ok == MayTransition(os, op)
  {
    var o := Search(os, (o: Obligation) => o.id == op.recordId);
    if o.None? || os[o.value].status != ObligationStatus.Open || op.payload == [] || op.aux > 5 {
      return false;
    }
    if op.aux == 0 || op.aux == 2 {
      return false;
    }
    var successor := Search(os, (o: Obligation) => o.id == op.successorRecordId);
    return !(op.aux == 5 && successor.None?);
  }

  method CheckView(s: Snapshot, op: Operation) returns (ok: bool)
    ensures ok == MayAmendView(s, op)
  {
    var colon := Search(op.scope, IsColon);
    if op.title == [] || op.scope == [] || colon.None? {
      return false;
    }
    for i := 0 to |s.views|
      invariant forall j :: 0 <= j < i ==> op.aux == 0 ==> s.views[j].id != op.title
    {
      if s.views[i].id == op.title && op.aux == 0 {
        return false;
      }
    }
    var refs := ParseRefs(op.provenanceRef);
    if refs == [] {
      return false;
    }
    var resolved := ResolveAll(s.profiles, refs);
    if !resolved {
      return false;
    }
    ok := AllDistinct(refs);
  }

  method CheckRecord(s: Snapshot, op: Operation) returns (ok: bool)
    ensures ok == Admissible(s, op)
  {
    match op.kind
    case AppendDecision =>
      var existing := Search(s.decisions, (d: Decision) => d.id == op.recordId);
      ok := op.recordId > 0 && op.title != [] && op.payload != [] && existing.None?;
    case SupersedeDecision => ok := CheckSupersede(s.decisions, op);
    case AddMemory => ok := op.payload != [] && op.provenanceRef != [] && op.aux <= 5;
    case UpsertObligation => ok := op.recordId > 0 && op.payload != [];
    case CloseObligation =>
      var open := Search(s.obligations, (o: Obligation) => o.id == op.recordId && o.status == ObligationStatus.Open);
      ok := open.Some?;
    case TransitionObligation => ok := CheckTransition(s.obligations, op);
    case UpdateState => ok := op.payload != [];
    case AddEvidence => ok := op.title != [] && op.payload != [];
    case UpsertProfile =>
      var existing := Search(s.profiles, (p: ProfileRecord) => p.id == op.title);
      ok := op.title != [] && op.scope != [] && op.payload != [] && existing.None?;
    case OpenConflict =>
      var existing := Search(s.conflicts, (c: Conflict) => c.id == op.title);
      ok := op.title != [] && op.payload != [] && existing.None?;
    case ResolveConflict =>
      var existing := Search(s.conflicts, (c: Conflict) => c.id == op.title);
      ok := existing.Some? && s.conflicts[existing.value].status == ConflictStatus.Open && op.payload != [];
    case AmendViewSpec => ok := CheckView(s, op);
    case SetNextBoundary =>
      var boundary := Search(s.obligations, (o: Obligation) => o.id == op.recordId);
      ok := boundary.Some? && s.obligations[boundary.value].status == ObligationStatus.Open;
  }

  // ---- the loops over the operations ----

  lemma RefusalAt(ops: seq<Operation>, i: nat, gate: Operation -> Option<RefusalReason>)
    requires i < |ops|
    ensures FirstRefusal(ops[i..], gate) == if gate(ops[i]).Some? then gate(ops[i]) else FirstRefusal(ops[i + 1..],
      gate)
  {
    assert ops[i..][1..] == ops[i + 1..];
  }

  method CheckPolicy(w: World, s: Snapshot, t: ContextTransaction, a: Writer) returns (refusal: Option<RefusalReason>)
    ensures refusal == FirstRefusal(t.operations, (op: Operation) => PolicyGate(w, s, t, a, op))
  {
    ghost var gate := (op: Operation) => PolicyGate(w, s, t, a, op);
    assert t.operations[0..] == t.operations;
    for i := 0 to |t.operations|
      invariant FirstRefusal(t.operations, gate) == FirstRefusal(t.operations[i..], gate)
    {
      var op := t.operations[i];
      RefusalAt(t.operations, i, gate);
      var row := Search(s.policy.handoff, (row: HandoffPolicy) => row.opClass == ClassOf(op.kind));
      if row.None? {
        return Some(GovernanceDenied);
      }
      if s.policy.handoff[row.value].required == Handoff.Review {
        if t.h2.None? {
          return Some(HandoffMissing);
        }
        var h2 := t.h2.value;
        if h2.reviewer == [] || h2.reviewerBinding == [] || h2.reviewRef == [] || t.handoffEvidenceRef == [] {
          return Some(HandoffMissing);
        }
        if h2.reviewerBinding == a.leaseBinding {
          return Some(HandoffInvalid);
        }
        if h2.reviewer != a.rootPrincipal {
          return Some(HandoffInvalid);
        }
        var operations := ImageOfOperations(t.operations);
        if h2.reviewedDeltaDigest != ContentId(w, operations) {
          return Some(HandoffInvalid);
        }
      }
    }
    return None;
  }

  method CheckConflicts(s: Snapshot, ops: seq<Operation>) returns (refusal: Option<RefusalReason>)
    ensures refusal == FirstRefusal(ops, (op: Operation) => ConflictGate(s, op))
  {
    ghost var gate := (op: Operation) => ConflictGate(s, op);
    assert ops[0..] == ops;
    for i := 0 to |ops|
      invariant FirstRefusal(ops, gate) == FirstRefusal(ops[i..], gate)
    {
      var op := ops[i];
      RefusalAt(ops, i, gate);
      if !op.kind.OpenConflict? && !op.kind.ResolveConflict? {
        for k := 0 to |s.conflicts|
          invariant forall j :: 0 <= j < k ==> !Blocks(s.conflicts[j], op)
        {
          if s.conflicts[k].status == ConflictStatus.Open && (s.conflicts[k].scope == [] || s.conflicts[k].scope == op.scope) {
            assert Blocks(s.conflicts[k], op);
            return Some(ConflictUnresolved);
          }
        }
      }
    }
    return None;
  }

  method CheckRecords(s: Snapshot, ops: seq<Operation>) returns (refusal: Option<RefusalReason>)
    ensures refusal == FirstRefusal(ops, (op: Operation) => InvariantGate(s, op))
  {
    hide Admissible;
    ghost var gate := (op: Operation) => InvariantGate(s, op);
    assert ops[0..] == ops;
    for i := 0 to |ops|
      invariant FirstRefusal(ops, gate) == FirstRefusal(ops[i..], gate)
    {
      RefusalAt(ops, i, gate);
      var ok := CheckRecord(s, ops[i]);
      if !ok {
        return Some(InvariantFailed);
      }
    }
    return None;
  }

  // ---- application ----

  /** Rewrites a list of records in place, element by element. */
  method Rewrite<T>(xs: seq<T>, f: T -> T) returns (ys: seq<T>)
    ensures ys == Mapped(xs, f)
  {
    ys := xs;
    for i := 0 to |xs|
      invariant |ys| == |xs|
      invariant forall j :: 0 <= j < |xs| ==> ys[j] == if j < i then f(xs[j]) else xs[j]
    {
      ys := ys[i := f(ys[i])];
    }
  }

  method EraseView(views: seq<ViewSpec>, id: Str) returns (kept: seq<ViewSpec>)
    ensures kept == WithoutView(views, id)
  {
    kept := [];
    assert views[0..] == views;
    for i := 0 to |views|
      invariant WithoutView(views, id) == kept + WithoutView(views[i..], id)
    {
      assert views[i..][1..] == views[i + 1..];
      if views[i].id != id {
        kept := kept + [views[i]];
      }
    }
  }

  method ApplyOne(s: Snapshot, evidenceRef: Str, op: Operation) returns (next: Snapshot)
    ensures next == ApplyOp(s, evidenceRef, op)
  {
    next := s;
    match op.kind
    case AppendDecision =>
      next := s.(decisions := s.decisions + [Decision(op.recordId, Lifecycle.Accepted, op.title, op.payload, [], [],
          UserSource(evidenceRef))]);
    case SupersedeDecision =>
      var decisions := Rewrite(s.decisions, (d: Decision) => Superseding(d, op));
      next := s.(decisions := decisions);
    case AddMemory =>
      if op.aux < |MEMORY_KINDS| {
        next := s.(memory := s.memory + [MemoryRecord(MEMORY_KINDS[op.aux], EpistemicType.Verified, Active, op.title,
            op.payload, UserSource(op.provenanceRef))]);
      }
    case UpsertObligation =>
      next := s.(obligations := s.obligations + [Obligation(ObligationStatus.Open, Manual, [], op.recordId, op.payload,
          [])]);
    case CloseObligation =>
      var first := Search(s.obligations, (o: Obligation) => o.id == op.recordId);
      if first.Some? {
        next := s.(obligations := s.obligations[first.value := s.obligations[first.value].(status := Done)]);
      }
    case TransitionObligation =>
      var obligations := Rewrite(s.obligations, (o: Obligation) => Transitioned(o, op));
      next := s.(obligations := obligations);
    case UpdateState => next := s.(state := s.state.(current := op.payload));
    case AddEvidence => next := s.(evidence := s.evidence + [EvidenceRecord(op.title, op.payload)]);
    case UpsertProfile => next := s.(profiles := s.profiles + [ProfileRecord(op.title, op.scope, op.payload,
        EnvironmentErgonomics)]);
    case OpenConflict =>
      next := s.(conflicts := s.conflicts + [Conflict(op.title, ConflictStatus.Open, op.scope, op.payload, [])]);
    case ResolveConflict =>
      var conflicts := Rewrite(s.conflicts, (c: Conflict) => Resolving(c, op));
      next := s.(conflicts := conflicts);
    case AmendViewSpec =>
      if op.aux == 1 {
        var views := EraseView(s.views, op.title);
        next := s.(views := views);
      } else {
        var colon := Search(op.scope, IsColon);
        var refs := ParseRefs(op.provenanceRef);
        var agent := if colon.Some? then op.scope[..colon.value] else op.scope;
        var human := if colon.Some? then op.scope[colon.value + 1..] else op.scope;
        next := s.(views := s.views + [ViewSpec(op.title, agent, human, op.payload, refs)]);
      }
    case SetNextBoundary => next := s.(state := s.state.(nextBoundaryRef := Decimal(op.recordId)));
  }

  method ApplyOperations(s: Snapshot, t: ContextTransaction) returns (next: Snapshot)
    ensures next == Successor(s, t)
  {
    hide ApplyOp;
    next := s;
    for i := 0 to |t.operations|
      invariant next == ApplyAll(s, t.handoffEvidenceRef, t.operations[..i])
    {
      assert t.operations[..i + 1][..i] == t.operations[..i];
      next := ApplyOne(next, t.handoffEvidenceRef, t.operations[i]);
    }
    assert t.operations[..|t.operations|] == t.operations;
  }

  // ---- gate 9 and the whole judgement ----

  method CheckBoundary(s: Snapshot) returns (ok: bool)
    ensures ok == Coherent(s)
  {
    if s.state.nextBoundaryRef == [] {
      return true;
    }
    for i := 0 to |s.obligations|
      invariant forall j :: 0 <= j < i ==> !NamesBoundary(s.obligations[j], s.state.nextBoundaryRef)
    {
      if Decimal(s.obligations[i].id) == s.state.nextBoundaryRef && s.obligations[i].status == ObligationStatus.Open {
        assert NamesBoundary(s.obligations[i], s.state.nextBoundaryRef);
        return true;
      }
    }
    return false;
  }

  /** Gates 6 to 9 in order; the successor is what would be stored. */
  method CheckAll(w: World, s: Snapshot, t: ContextTransaction, a: Writer) returns (refusal: Option<RefusalReason>,
      next: Snapshot)
    ensures refusal == Admit(w, s, t, a) && (refusal.None? ==> next == Successor(s, t))
  {
    hide PolicyGate, ConflictGate, InvariantGate, ApplyAll, Coherent;
    next := s;
    refusal := CheckPolicy(w, s, t, a);
    if refusal.Some? {
      return;
    }
    refusal := CheckConflicts(s, t.operations);
    if refusal.Some? {
      return;
    }
    refusal := CheckRecords(s, t.operations);
    if refusal.Some? {
      return;
    }
    next := ApplyOperations(s, t);
    var coherent := CheckBoundary(next);
    refusal := if coherent then None else Some(InvariantFailed);
  }
}
