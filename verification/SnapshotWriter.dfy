/** Serialization in the form the program has it: a byte buffer that is appended to, field by field and loop
    by loop, proved to produce the image the layout prescribes (serializeImpl in src/persistence.cpp). */
module SnapshotWriter {
  import opened Prelude
  import opened Wire
  import opened Cognition
  import opened SnapshotLayout
  import opened SnapshotCodecLaws

  /** `after` is `before` with the image of `x` appended. */
  ghost predicate Appended<T(!new)>(before: Bytes, after: Bytes, f: Format<T>, x: T) {
    forall r: Bytes :: after + r == before + f.put(x, r)
  }

  lemma AppendedPair<A(!new), B(!new)>(f: LawfulFormat<A>, g: LawfulFormat<B>, before: Bytes, between: Bytes,
      after: Bytes, x: A, y: B)
    requires Appended(before, between, f, x) && Appended(between, after, g, y)
    ensures Appended(before, after, Pair(f, g), (x, y))
  {
  }

  /** All but the elements of `xs` from `i` on have been appended to `start`. */
  ghost predicate Remaining<T(!new)>(start: Bytes, now: Bytes, f: LawfulFormat<T>, xs: seq<T>, i: nat)
    requires i <= |xs|
  {
    forall r: Bytes :: now + PutAll(f.put, xs[i..], r) == start + PutList(f.put, xs, r)
  }

  lemma RemainingStep<T(!new)>(start: Bytes, before: Bytes, after: Bytes, f: LawfulFormat<T>, xs: seq<T>, i: nat)
    requires i < |xs| && Remaining(start, before, f, xs, i) && Appended(before, after, f, xs[i])
    ensures Remaining(start, after, f, xs, i + 1)
  {
    forall r: Bytes ensures after + PutAll(f.put, xs[i + 1..], r) == start + PutList(f.put, xs, r) {
      assert xs[i..][0] == xs[i] && xs[i..][1..] == xs[i + 1..];
      assert before + PutAll(f.put, xs[i..], r) == start + PutList(f.put, xs, r);
    }
  }

  lemma RemainingDone<T(!new)>(start: Bytes, now: Bytes, f: LawfulFormat<T>, xs: seq<T>)
    requires Remaining(start, now, f, xs, |xs|)
    ensures Appended(start, now, ListFormat(f), xs)
  {
    forall r: Bytes ensures now + r == start + ListFormat(f).put(xs, r) {
      assert xs[|xs|..] == [];
      assert now + PutAll(f.put, xs[|xs|..], r) == start + PutList(f.put, xs, r);
    }
  }

  /** Appending the three parts one after the other is appending the snapshot. */
  lemma Assembled(front: LawfulFormat<Front>, middle: LawfulFormat<Middle>, back: LawfulFormat<Back>, s: Snapshot,
      b0: Bytes, b1: Bytes, b2: Bytes, b3: Bytes)
    requires Appended(b0, b1, front, Fields(s).0) && Appended(b1, b2, middle, Fields(s).1.0) && Appended(b2, b3, back,
      Fields(s).1.1)
    ensures Appended(b0, b3, Assemble(front, middle, back), s)
  {
    forall r: Bytes ensures b3 + r == b0 + Assemble(front, middle, back).put(s, r) {
      AssemblePut(front, middle, back, s, r);
      assert b3 + r == b2 + back.put(Fields(s).1.1, r);
      assert b2 + back.put(Fields(s).1.1, r) == b1 + middle.put(Fields(s).1.0, back.put(Fields(s).1.1, r));
    }
  }

  class ByteBuffer {
    var bytes: Bytes

    constructor ()
      ensures bytes == []
    {
      bytes := [];
    }

    method PutU8(n: byte)
      modifies this
      ensures bytes == old(bytes) + [n]
      ensures forall r: Bytes :: bytes + r == old(bytes) + Wire.PutU8(n, r)
    {
      bytes := bytes + [n];
    }

    method PutFlag(v: bool)
      modifies this
      ensures Appended(old(bytes), bytes, FlagFormat(), v)
    {
      PutU8(if v then 1 else 0);
    }

    /** The numeric code of an enumerator. */
    method PutCode<T(!new)>(code: byte, ghost f: LawfulFormat<T>, ghost x: T)
      requires forall r: Bytes :: f.put(x, r) == Wire.PutU8(code, r)
      modifies this
      ensures Appended(old(bytes), bytes, f, x)
    {
      PutU8(code);
    }

    /** The low `width` bytes of `n`, least significant first. */
    method PutLittleEndian(width: nat, n: nat)
      modifies this
      ensures forall r: Bytes :: bytes + r == old(bytes) + PutLE(width, n, r)
    {
      var i, left := 0, n;
      while i < width
        invariant i <= width
        invariant forall r: Bytes :: bytes + PutLE(width - i, left, r) == old(bytes) + PutLE(width, n, r)
      {
        ghost var before := bytes;
        PutU8(left % 256);
        forall r: Bytes ensures bytes + PutLE(width - i - 1, left / 256, r) == old(bytes) + PutLE(width, n, r) {
          assert before + PutLE(width - i, left, r) == old(bytes) + PutLE(width, n, r);
        }
        i, left := i + 1, left / 256;
      }
      forall r: Bytes ensures bytes + r == old(bytes) + PutLE(width, n, r) {
        assert bytes + PutLE(width - i, left, r) == old(bytes) + PutLE(width, n, r);
      }
    }

    method PutU32(n: nat)
      modifies this
      ensures forall r: Bytes :: bytes + r == old(bytes) + Wire.PutU32(n, r)
    {
      PutLittleEndian(4, n);
    }

    method PutI64(n: i64)
      modifies this
      ensures Appended(old(bytes), bytes, I64Format(), n)
    {
      PutLittleEndian(8, Bits(n));
    }

    method PutStr(s: Str)
      modifies this
      ensures Appended(old(bytes), bytes, StrFormat(), s)
    {
      ghost var start := bytes;
      PutU32(|s|);
      var i := 0;
      while i < |s|
        invariant i <= |s|
        invariant forall r: Bytes :: bytes + (s[i..] + r) == start + Wire.PutStr(s, r)
      {
        ghost var before := bytes;
        PutU8(s[i]);
        forall r: Bytes ensures bytes + (s[i + 1..] + r) == start + Wire.PutStr(s, r) {
          assert before + (s[i..] + r) == start + Wire.PutStr(s, r);
          assert s[i..] == [s[i]] + s[i + 1..];
          assert bytes + (s[i + 1..] + r) == before + (s[i..] + r);
        }
        i := i + 1;
      }
      forall r: Bytes ensures bytes + r == start + Wire.PutStr(s, r) {
        assert bytes + (s[i..] + r) == start + Wire.PutStr(s, r);
        assert s[i..] + r == r;
      }
    }

    method PutStrings(xs: seq<Str>)
      modifies this
      ensures Appended(old(bytes), bytes, ListFormat(StrFormat()), xs)
    {
      ghost var start := bytes;
      PutU32(|xs|);
      var i := 0;
      while i < |xs|
        invariant i <= |xs|
        invariant Remaining(start, bytes, StrFormat(), xs, i)
      {
        ghost var before := bytes;
        PutStr(xs[i]);
        RemainingStep(start, before, bytes, StrFormat(), xs, i);
        i := i + 1;
      }
      RemainingDone(start, bytes, StrFormat(), xs);
    }

    method PutIds(xs: seq<i64>)
      modifies this
      ensures Appended(old(bytes), bytes, ListFormat(I64Format()), xs)
    {
      ghost var start := bytes;
      PutU32(|xs|);
      var i := 0;
      while i < |xs|
        invariant i <= |xs|
        invariant Remaining(start, bytes, I64Format(), xs, i)
      {
        ghost var before := bytes;
        PutI64(xs[i]);
        RemainingStep(start, before, bytes, I64Format(), xs, i);
        i := i + 1;
      }
      RemainingDone(start, bytes, I64Format(), xs);
    }

    method PutAuthorities(xs: seq<OperationClass>)
      modifies this
      ensures Appended(old(bytes), bytes, ListFormat(OperationClassFormat()), xs)
    {
      ghost var start := bytes;
      PutU32(|xs|);
      var i := 0;
      while i < |xs|
        invariant i <= |xs|
        invariant Remaining(start, bytes, OperationClassFormat(), xs, i)
      {
        ghost var before := bytes;
        PutU8(xs[i].Code());
        RemainingStep(start, before, bytes, OperationClassFormat(), xs, i);
        i := i + 1;
      }
      RemainingDone(start, bytes, OperationClassFormat(), xs);
    }

    method PutSource(x: Source)
      modifies this
      ensures Appended(old(bytes), bytes, SourceFormat(), x)
    {
      ghost var v0 := bytes;
      PutCode(x.kind.Code(), SourceKindFormat(), x.kind); ghost var v1 := bytes;
      PutStr(x.reference); ghost var v2 := bytes;
      PutStr(x.note);
      AppendedPair(StrFormat(), StrFormat(), v1, v2, bytes, x.reference, x.note);
      AppendedPair(SourceKindFormat(), Pair(StrFormat(), StrFormat()), v0, v1, bytes, x.kind, (x.reference, x.note));
    }

    method PutSources(xs: seq<Source>)
      modifies this
      ensures Appended(old(bytes), bytes, ListFormat(SourceFormat()), xs)
    {
      ghost var start := bytes;
      PutU32(|xs|);
      var i := 0;
      while i < |xs|
        invariant i <= |xs|
        invariant Remaining(start, bytes, SourceFormat(), xs, i)
      {
        ghost var before := bytes;
        PutSource(xs[i]);
        RemainingStep(start, before, bytes, SourceFormat(), xs, i);
        i := i + 1;
      }
      RemainingDone(start, bytes, SourceFormat(), xs);
    }

    method PutHandoffRow(x: HandoffPolicy)
      modifies this
      ensures Appended(old(bytes), bytes, HandoffRowFormat(), x)
    {
      ghost var v0 := bytes;
      PutCode(x.opClass.Code(), OperationClassFormat(), x.opClass); ghost var v1 := bytes;
      PutCode(x.required.Code(), HandoffFormat(), x.required); ghost var v2 := bytes;
      PutFlag(x.rootPrincipalOnly);
      AppendedPair(HandoffFormat(), FlagFormat(), v1, v2, bytes, x.required, x.rootPrincipalOnly);
      AppendedPair(OperationClassFormat(), Pair(HandoffFormat(), FlagFormat()), v0, v1, bytes, x.opClass, (x.required,
          x.rootPrincipalOnly));
    }

    method PutHandoffRows(xs: seq<HandoffPolicy>)
      modifies this
      ensures Appended(old(bytes), bytes, ListFormat(HandoffRowFormat()), xs)
    {
      ghost var start := bytes;
      PutU32(|xs|);
      var i := 0;
      while i < |xs|
        invariant i <= |xs|
        invariant Remaining(start, bytes, HandoffRowFormat(), xs, i)
      {
        ghost var before := bytes;
        PutHandoffRow(xs[i]);
        RemainingStep(start, before, bytes, HandoffRowFormat(), xs, i);
        i := i + 1;
      }
      RemainingDone(start, bytes, HandoffRowFormat(), xs);
    }

    method PutRecoveryRow(x: RecoveryRule)
      modifies this
      ensures Appended(old(bytes), bytes, RecoveryRowFormat(), x)
    {
      ghost var v0 := bytes;
      PutCode(x.reason.Code(), RefusalReasonFormat(), x.reason); ghost var v1 := bytes;
      PutCode(x.action.Code(), RecoveryActionFormat(), x.action);
      AppendedPair(RefusalReasonFormat(), RecoveryActionFormat(), v0, v1, bytes, x.reason, x.action);
    }

    method PutRecoveryRows(xs: seq<RecoveryRule>)
      modifies this
      ensures Appended(old(bytes), bytes, ListFormat(RecoveryRowFormat()), xs)
    {
      ghost var start := bytes;
      PutU32(|xs|);
      var i := 0;
      while i < |xs|
        invariant i <= |xs|
        invariant Remaining(start, bytes, RecoveryRowFormat(), xs, i)
      {
        ghost var before := bytes;
        PutRecoveryRow(xs[i]);
        RemainingStep(start, before, bytes, RecoveryRowFormat(), xs, i);
        i := i + 1;
      }
      RemainingDone(start, bytes, RecoveryRowFormat(), xs);
    }

    method PutDecision(x: Decision)
      modifies this
      ensures Appended(old(bytes), bytes, DecisionFormat(), x)
    {
      ghost var v0 := bytes;
      PutI64(x.id); ghost var v1 := bytes;
      PutCode(x.status.Code(), LifecycleFormat(), x.status); ghost var v2 := bytes;
      PutStr(x.title); ghost var v3 := bytes;
      PutStr(x.content); ghost var v4 := bytes;
      PutIds(x.supersedes); ghost var v5 := bytes;
      PutIds(x.supersededBy); ghost var v6 := bytes;
      PutSources(x.provenance);
      AppendedPair(ListFormat(I64Format()), ListFormat(SourceFormat()), v5, v6, bytes, x.supersededBy, x.provenance);
      AppendedPair(ListFormat(I64Format()), Pair(ListFormat(I64Format()), ListFormat(SourceFormat())), v4, v5, bytes,
          x.supersedes, (x.supersededBy, x.provenance));
      AppendedPair(StrFormat(), Pair(ListFormat(I64Format()), Pair(ListFormat(I64Format()),
          ListFormat(SourceFormat()))), v3, v4, bytes, x.content, (x.supersedes, (x.supersededBy, x.provenance)));
      AppendedPair(StrFormat(), Pair(StrFormat(), Pair(ListFormat(I64Format()), Pair(ListFormat(I64Format()),
          ListFormat(SourceFormat())))), v2, v3, bytes, x.title, (x.content, (x.supersedes, (x.supersededBy,
          x.provenance))));
      AppendedPair(LifecycleFormat(), Pair(StrFormat(), Pair(StrFormat(), Pair(ListFormat(I64Format()),
          Pair(ListFormat(I64Format()), ListFormat(SourceFormat()))))), v1, v2, bytes, x.status, (x.title, (x.content,
          (x.supersedes, (x.supersededBy, x.provenance)))));
      AppendedPair(I64Format(), Pair(LifecycleFormat(), Pair(StrFormat(), Pair(StrFormat(),
          Pair(ListFormat(I64Format()), Pair(ListFormat(I64Format()), ListFormat(SourceFormat())))))), v0, v1, bytes,
          x.id, (x.status, (x.title, (x.content, (x.supersedes, (x.supersededBy, x.provenance))))));
    }

    method PutDecisions(xs: seq<Decision>)
      modifies this
      ensures Appended(old(bytes), bytes, ListFormat(DecisionFormat()), xs)
    {
      ghost var start := bytes;
      PutU32(|xs|);
      var i := 0;
      while i < |xs|
        invariant i <= |xs|
        invariant Remaining(start, bytes, DecisionFormat(), xs, i)
      {
        ghost var before := bytes;
        PutDecision(xs[i]);
        RemainingStep(start, before, bytes, DecisionFormat(), xs, i);
        i := i + 1;
      }
      RemainingDone(start, bytes, DecisionFormat(), xs);
    }

    method PutMemory(x: MemoryRecord)
      modifies this
      ensures Appended(old(bytes), bytes, MemoryFormat(), x)
    {
      ghost var v0 := bytes;
      PutCode(x.kind.Code(), MemoryKindFormat(), x.kind); ghost var v1 := bytes;
      PutCode(x.status.Code(), MemoryStatusFormat(), x.status); ghost var v2 := bytes;
      PutStr(x.title); ghost var v3 := bytes;
      PutStr(x.statement); ghost var v4 := bytes;
      PutSources(x.provenance);
      AppendedPair(StrFormat(), ListFormat(SourceFormat()), v3, v4, bytes, x.statement, x.provenance);
      AppendedPair(StrFormat(), Pair(StrFormat(), ListFormat(SourceFormat())), v2, v3, bytes, x.title, (x.statement,
          x.provenance));
      AppendedPair(MemoryStatusFormat(), Pair(StrFormat(), Pair(StrFormat(), ListFormat(SourceFormat()))), v1, v2,
          bytes, x.status, (x.title, (x.statement, x.provenance)));
      AppendedPair(MemoryKindFormat(), Pair(MemoryStatusFormat(), Pair(StrFormat(), Pair(StrFormat(),
          ListFormat(SourceFormat())))), v0, v1, bytes, x.kind, (x.status, (x.title, (x.statement, x.provenance))));
    }

    method PutMemoryRecords(xs: seq<MemoryRecord>)
      modifies this
      ensures Appended(old(bytes), bytes, ListFormat(MemoryFormat()), xs)
    {
      ghost var start := bytes;
      PutU32(|xs|);
      var i := 0;
      while i < |xs|
        invariant i <= |xs|
        invariant Remaining(start, bytes, MemoryFormat(), xs, i)
      {
        ghost var before := bytes;
        PutMemory(xs[i]);
        RemainingStep(start, before, bytes, MemoryFormat(), xs, i);
        i := i + 1;
      }
      RemainingDone(start, bytes, MemoryFormat(), xs);
    }

    method PutObligation(x: Obligation)
      modifies this
      ensures Appended(old(bytes), bytes, ObligationFormat(), x)
    {
      ghost var v0 := bytes;
      PutCode(x.status.Code(), ObligationStatusFormat(), x.status); ghost var v1 := bytes;
      PutCode(x.trigger.Code(), TriggerKindFormat(), x.trigger); ghost var v2 := bytes;
      PutI64(x.id); ghost var v3 := bytes;
      PutStr(x.statement); ghost var v4 := bytes;
      PutStr(x.completionCriteria);
      AppendedPair(StrFormat(), StrFormat(), v3, v4, bytes, x.statement, x.completionCriteria);
      AppendedPair(I64Format(), Pair(StrFormat(), StrFormat()), v2, v3, bytes, x.id, (x.statement,
          x.completionCriteria));
      AppendedPair(TriggerKindFormat(), Pair(I64Format(), Pair(StrFormat(), StrFormat())), v1, v2, bytes, x.trigger,
          (x.id, (x.statement, x.completionCriteria)));
      AppendedPair(ObligationStatusFormat(), Pair(TriggerKindFormat(), Pair(I64Format(), Pair(StrFormat(),
          StrFormat()))), v0, v1, bytes, x.status, (x.trigger, (x.id, (x.statement, x.completionCriteria))));
    }

    method PutObligations(xs: seq<Obligation>)
      modifies this
      ensures Appended(old(bytes), bytes, ListFormat(ObligationFormat()), xs)
    {
      ghost var start := bytes;
      PutU32(|xs|);
      var i := 0;
      while i < |xs|
        invariant i <= |xs|
        invariant Remaining(start, bytes, ObligationFormat(), xs, i)
      {
        ghost var before := bytes;
        PutObligation(xs[i]);
        RemainingStep(start, before, bytes, ObligationFormat(), xs, i);
        i := i + 1;
      }
      RemainingDone(start, bytes, ObligationFormat(), xs);
    }

    method PutEvidence(x: EvidenceRecord)
      modifies this
      ensures Appended(old(bytes), bytes, EvidenceFormat(), x)
    {
      ghost var v0 := bytes;
      PutStr(x.boundTo); ghost var v1 := bytes;
      PutStr(x.content);
      AppendedPair(StrFormat(), StrFormat(), v0, v1, bytes, x.boundTo, x.content);
    }

    method PutEvidenceRecords(xs: seq<EvidenceRecord>)
      modifies this
      ensures Appended(old(bytes), bytes, ListFormat(EvidenceFormat()), xs)
    {
      ghost var start := bytes;
      PutU32(|xs|);
      var i := 0;
      while i < |xs|
        invariant i <= |xs|
        invariant Remaining(start, bytes, EvidenceFormat(), xs, i)
      {
        ghost var before := bytes;
        PutEvidence(xs[i]);
        RemainingStep(start, before, bytes, EvidenceFormat(), xs, i);
        i := i + 1;
      }
      RemainingDone(start, bytes, EvidenceFormat(), xs);
    }

    method PutConflict(x: Conflict)
      modifies this
      ensures Appended(old(bytes), bytes, ConflictFormat(), x)
    {
      ghost var v0 := bytes;
      PutStr(x.id); ghost var v1 := bytes;
      PutCode(x.status.Code(), ConflictStatusFormat(), x.status); ghost var v2 := bytes;
      PutStr(x.scope); ghost var v3 := bytes;
      PutStr(x.description); ghost var v4 := bytes;
      PutStr(x.resolution);
      AppendedPair(StrFormat(), StrFormat(), v3, v4, bytes, x.description, x.resolution);
      AppendedPair(StrFormat(), Pair(StrFormat(), StrFormat()), v2, v3, bytes, x.scope, (x.description, x.resolution));
      AppendedPair(ConflictStatusFormat(), Pair(StrFormat(), Pair(StrFormat(), StrFormat())), v1, v2, bytes, x.status,
          (x.scope, (x.description, x.resolution)));
      AppendedPair(StrFormat(), Pair(ConflictStatusFormat(), Pair(StrFormat(), Pair(StrFormat(), StrFormat()))), v0,
          v1, bytes, x.id, (x.status, (x.scope, (x.description, x.resolution))));
    }

    method PutConflicts(xs: seq<Conflict>)
      modifies this
      ensures Appended(old(bytes), bytes, ListFormat(ConflictFormat()), xs)
    {
      ghost var start := bytes;
      PutU32(|xs|);
      var i := 0;
      while i < |xs|
        invariant i <= |xs|
        invariant Remaining(start, bytes, ConflictFormat(), xs, i)
      {
        ghost var before := bytes;
        PutConflict(xs[i]);
        RemainingStep(start, before, bytes, ConflictFormat(), xs, i);
        i := i + 1;
      }
      RemainingDone(start, bytes, ConflictFormat(), xs);
    }

    method PutProfile(x: ProfileRecord)
      modifies this
      ensures Appended(old(bytes), bytes, ProfileFormat(), x)
    {
      ghost var v0 := bytes;
      PutStr(x.id); ghost var v1 := bytes;
      PutStr(x.kind); ghost var v2 := bytes;
      PutStr(x.summary); ghost var v3 := bytes;
      PutCode(x.layer.Code(), WorkflowLayerFormat(), x.layer);
      AppendedPair(StrFormat(), WorkflowLayerFormat(), v2, v3, bytes, x.summary, x.layer);
      AppendedPair(StrFormat(), Pair(StrFormat(), WorkflowLayerFormat()), v1, v2, bytes, x.kind, (x.summary, x.layer));
      AppendedPair(StrFormat(), Pair(StrFormat(), Pair(StrFormat(), WorkflowLayerFormat())), v0, v1, bytes, x.id,
          (x.kind, (x.summary, x.layer)));
    }

    method PutProfiles(xs: seq<ProfileRecord>)
      modifies this
      ensures Appended(old(bytes), bytes, ListFormat(ProfileFormat()), xs)
    {
      ghost var start := bytes;
      PutU32(|xs|);
      var i := 0;
      while i < |xs|
        invariant i <= |xs|
        invariant Remaining(start, bytes, ProfileFormat(), xs, i)
      {
        ghost var before := bytes;
        PutProfile(xs[i]);
        RemainingStep(start, before, bytes, ProfileFormat(), xs, i);
        i := i + 1;
      }
      RemainingDone(start, bytes, ProfileFormat(), xs);
    }

    method PutView(x: ViewSpec)
      modifies this
      ensures Appended(old(bytes), bytes, ViewFormat(), x)
    {
      ghost var v0 := bytes;
      PutStr(x.id); ghost var v1 := bytes;
      PutStr(x.agent); ghost var v2 := bytes;
      PutStr(x.human); ghost var v3 := bytes;
      PutStr(x.summary); ghost var v4 := bytes;
      PutStrings(x.profileRefs);
      AppendedPair(StrFormat(), ListFormat(StrFormat()), v3, v4, bytes, x.summary, x.profileRefs);
      AppendedPair(StrFormat(), Pair(StrFormat(), ListFormat(StrFormat())), v2, v3, bytes, x.human, (x.summary,
          x.profileRefs));
      AppendedPair(StrFormat(), Pair(StrFormat(), Pair(StrFormat(), ListFormat(StrFormat()))), v1, v2, bytes, x.agent,
          (x.human, (x.summary, x.profileRefs)));
      AppendedPair(StrFormat(), Pair(StrFormat(), Pair(StrFormat(), Pair(StrFormat(), ListFormat(StrFormat())))), v0,
          v1, bytes, x.id, (x.agent, (x.human, (x.summary, x.profileRefs))));
    }

    method PutViews(xs: seq<ViewSpec>)
      modifies this
      ensures Appended(old(bytes), bytes, ListFormat(ViewFormat()), xs)
    {
      ghost var start := bytes;
      PutU32(|xs|);
      var i := 0;
      while i < |xs|
        invariant i <= |xs|
        invariant Remaining(start, bytes, ViewFormat(), xs, i)
      {
        ghost var before := bytes;
        PutView(xs[i]);
        RemainingStep(start, before, bytes, ViewFormat(), xs, i);
        i := i + 1;
      }
      RemainingDone(start, bytes, ViewFormat(), xs);
    }

    method PutClaim(x: Option<ClaimClass>)
      modifies this
      ensures Appended(old(bytes), bytes, Since(8, ClaimFormat(), None), x)
    {
      PutFlag(x.Some?);
      if x.Some? {
        PutU8(x.value.Code());
      }
    }

    method PutRule(x: InvocationRule)
      modifies this
      ensures Appended(old(bytes), bytes, RuleFormat(), x)
    {
      ghost var v0 := bytes;
      PutCode(x.action.Code(), ActionKindFormat(), x.action); ghost var v1 := bytes;
      PutClaim(x.claimClass); ghost var v2 := bytes;
      PutCode(x.requirement.Code(), RequirementKindFormat(), x.requirement); ghost var v3 := bytes;
      PutCode(x.boundary.Code(), Since(8, RequirementBoundaryFormat(), BeforeJudgment),
          x.boundary); ghost var v4 := bytes;
      PutStr(x.subject); ghost var v5 := bytes;
      PutFlag(x.blocking);
      AppendedPair(StrFormat(), FlagFormat(), v4, v5, bytes, x.subject, x.blocking);
      AppendedPair(Since(8, RequirementBoundaryFormat(), BeforeJudgment), Pair(StrFormat(), FlagFormat()), v3, v4,
          bytes, x.boundary, (x.subject, x.blocking));
      AppendedPair(RequirementKindFormat(), Pair(Since(8, RequirementBoundaryFormat(), BeforeJudgment),
          Pair(StrFormat(), FlagFormat())), v2, v3, bytes, x.requirement, (x.boundary, (x.subject, x.blocking)));
      AppendedPair(Since(8, ClaimFormat(), None), Pair(RequirementKindFormat(), Pair(Since(8,
          RequirementBoundaryFormat(), BeforeJudgment), Pair(StrFormat(), FlagFormat()))), v1, v2, bytes, x.claimClass,
          (x.requirement, (x.boundary, (x.subject, x.blocking))));
      AppendedPair(ActionKindFormat(), Pair(Since(8, ClaimFormat(), None), Pair(RequirementKindFormat(), Pair(Since(8,
          RequirementBoundaryFormat(), BeforeJudgment), Pair(StrFormat(), FlagFormat())))), v0, v1, bytes, x.action,
          (x.claimClass, (x.requirement, (x.boundary, (x.subject, x.blocking)))));
    }

    method PutRules(xs: seq<InvocationRule>)
      modifies this
      ensures Appended(old(bytes), bytes, ListFormat(RuleFormat()), xs)
    {
      ghost var start := bytes;
      PutU32(|xs|);
      var i := 0;
      while i < |xs|
        invariant i <= |xs|
        invariant Remaining(start, bytes, RuleFormat(), xs, i)
      {
        ghost var before := bytes;
        PutRule(xs[i]);
        RemainingStep(start, before, bytes, RuleFormat(), xs, i);
        i := i + 1;
      }
      RemainingDone(start, bytes, RuleFormat(), xs);
    }

    method PutInvocation(x: InvocationPolicy)
      modifies this
      ensures Appended(old(bytes), bytes, InvocationFormat(), x)
    {
      ghost var v0 := bytes;
      PutFlag(x.present); ghost var v1 := bytes;
      PutRules(x.rules);
      assert Appended(v0, v1, Since(8, FlagFormat(), false), x.present);
      assert Appended(v1, bytes, Since(7, ListFormat(RuleFormat()), []), x.rules);
      AppendedPair(Since(8, FlagFormat(), false), Since(7, ListFormat(RuleFormat()), []), v0, v1, bytes, x.present,
          x.rules);
    }

    method PutFloor(x: Floor)
      modifies this
      ensures Appended(old(bytes), bytes, FloorFormat(), x)
    {
      ghost var v0 := bytes;
      PutFlag(x.reviewGradeReasoning); ghost var v1 := bytes;
      PutCode(x.execution.Code(), CapabilityClassFormat(), x.execution); ghost var v2 := bytes;
      PutFlag(x.identityPortVerified);
      AppendedPair(CapabilityClassFormat(), FlagFormat(), v1, v2, bytes, x.execution, x.identityPortVerified);
      AppendedPair(FlagFormat(), Pair(CapabilityClassFormat(), FlagFormat()), v0, v1, bytes, x.reviewGradeReasoning,
          (x.execution, x.identityPortVerified));
    }

    method PutRole(x: RoleSpec)
      modifies this
      ensures Appended(old(bytes), bytes, RoleSpecFormat(), x)
    {
      ghost var v0 := bytes;
      PutCode(x.id.Code(), RoleFormat(), x.id); ghost var v1 := bytes;
      PutAuthorities(x.authorities); ghost var v2 := bytes;
      PutStrings(x.duties); ghost var v3 := bytes;
      PutFloor(x.floor); ghost var v4 := bytes;
      PutSources(x.provenance);
      AppendedPair(FloorFormat(), ListFormat(SourceFormat()), v3, v4, bytes, x.floor, x.provenance);
      AppendedPair(ListFormat(StrFormat()), Pair(FloorFormat(), ListFormat(SourceFormat())), v2, v3, bytes, x.duties,
          (x.floor, x.provenance));
      AppendedPair(ListFormat(OperationClassFormat()), Pair(ListFormat(StrFormat()), Pair(FloorFormat(),
          ListFormat(SourceFormat()))), v1, v2, bytes, x.authorities, (x.duties, (x.floor, x.provenance)));
      AppendedPair(RoleFormat(), Pair(ListFormat(OperationClassFormat()), Pair(ListFormat(StrFormat()),
          Pair(FloorFormat(), ListFormat(SourceFormat())))), v0, v1, bytes, x.id, (x.authorities, (x.duties, (x.floor,
          x.provenance))));
    }

    method PutRoles(xs: seq<RoleSpec>)
      modifies this
      ensures Appended(old(bytes), bytes, ListFormat(RoleSpecFormat()), xs)
    {
      ghost var start := bytes;
      PutU32(|xs|);
      var i := 0;
      while i < |xs|
        invariant i <= |xs|
        invariant Remaining(start, bytes, RoleSpecFormat(), xs, i)
      {
        ghost var before := bytes;
        PutRole(xs[i]);
        RemainingStep(start, before, bytes, RoleSpecFormat(), xs, i);
        i := i + 1;
      }
      RemainingDone(start, bytes, RoleSpecFormat(), xs);
    }

    method PutState(x: StateView)
      modifies this
      ensures Appended(old(bytes), bytes, StateFormat(), x)
    {
      ghost var v0 := bytes;
      PutStr(x.objective); ghost var v1 := bytes;
      PutStr(x.current); ghost var v2 := bytes;
      PutStr(x.checkpointRef); ghost var v3 := bytes;
      PutStr(x.candidateRef); ghost var v4 := bytes;
      PutStr(x.nextBoundaryRef); ghost var v5 := bytes;
      PutStr(x.repositories); ghost var v6 := bytes;
      PutStr(x.roadmap);
      AppendedPair(StrFormat(), StrFormat(), v5, v6, bytes, x.repositories, x.roadmap);
      AppendedPair(StrFormat(), Pair(StrFormat(), StrFormat()), v4, v5, bytes, x.nextBoundaryRef, (x.repositories,
          x.roadmap));
      AppendedPair(StrFormat(), Pair(StrFormat(), Pair(StrFormat(), StrFormat())), v3, v4, bytes, x.candidateRef,
          (x.nextBoundaryRef, (x.repositories, x.roadmap)));
      AppendedPair(StrFormat(), Pair(StrFormat(), Pair(StrFormat(), Pair(StrFormat(), StrFormat()))), v2, v3, bytes,
          x.checkpointRef, (x.candidateRef, (x.nextBoundaryRef, (x.repositories, x.roadmap))));
      AppendedPair(StrFormat(), Pair(StrFormat(), Pair(StrFormat(), Pair(StrFormat(), Pair(StrFormat(),
          StrFormat())))), v1, v2, bytes, x.current, (x.checkpointRef, (x.candidateRef, (x.nextBoundaryRef,
          (x.repositories, x.roadmap)))));
      AppendedPair(StrFormat(), Pair(StrFormat(), Pair(StrFormat(), Pair(StrFormat(), Pair(StrFormat(),
          Pair(StrFormat(), StrFormat()))))), v0, v1, bytes, x.objective, (x.current, (x.checkpointRef,
          (x.candidateRef, (x.nextBoundaryRef, (x.repositories, x.roadmap))))));
    }

    method PutFront(x: Front)
      modifies this
      ensures Appended(old(bytes), bytes, FrontFormat(), x)
    {
      ghost var v0 := bytes;
      PutStr(x.0); ghost var v1 := bytes;
      PutStrings(x.1.0); ghost var v2 := bytes;
      PutHandoffRows(x.1.1.0); ghost var v3 := bytes;
      PutRecoveryRows(x.1.1.1.0); ghost var v4 := bytes;
      PutState(x.1.1.1.1.0); ghost var v5 := bytes;
      PutDecisions(x.1.1.1.1.1);
      AppendedPair(StateFormat(), ListFormat(DecisionFormat()), v4, v5, bytes, x.1.1.1.1.0, x.1.1.1.1.1);
      AppendedPair(ListFormat(RecoveryRowFormat()), Pair(StateFormat(), ListFormat(DecisionFormat())), v3, v4, bytes,
          x.1.1.1.0, (x.1.1.1.1.0, x.1.1.1.1.1));
      AppendedPair(ListFormat(HandoffRowFormat()), Pair(ListFormat(RecoveryRowFormat()), Pair(StateFormat(),
          ListFormat(DecisionFormat()))), v2, v3, bytes, x.1.1.0, (x.1.1.1.0, (x.1.1.1.1.0, x.1.1.1.1.1)));
      AppendedPair(ListFormat(StrFormat()), Pair(ListFormat(HandoffRowFormat()), Pair(ListFormat(RecoveryRowFormat()),
          Pair(StateFormat(), ListFormat(DecisionFormat())))), v1, v2, bytes, x.1.0, (x.1.1.0, (x.1.1.1.0,
          (x.1.1.1.1.0, x.1.1.1.1.1))));
      AppendedPair(StrFormat(), Pair(ListFormat(StrFormat()), Pair(ListFormat(HandoffRowFormat()),
          Pair(ListFormat(RecoveryRowFormat()), Pair(StateFormat(), ListFormat(DecisionFormat()))))), v0, v1, bytes,
          x.0, (x.1.0, (x.1.1.0, (x.1.1.1.0, (x.1.1.1.1.0, x.1.1.1.1.1)))));
    }

    method PutMiddle(x: Middle)
      modifies this
      ensures Appended(old(bytes), bytes, MiddleFormat(), x)
    {
      ghost var v0 := bytes;
      PutMemoryRecords(x.0); ghost var v1 := bytes;
      PutObligations(x.1);
      AppendedPair(ListFormat(MemoryFormat()), ListFormat(ObligationFormat()), v0, v1, bytes, x.0, x.1);
    }

    method PutBack(x: Back)
      modifies this
      ensures Appended(old(bytes), bytes, BackFormat(), x)
    {
      ghost var v0 := bytes;
      PutEvidenceRecords(x.0); ghost var v1 := bytes;
      PutConflicts(x.1.0); ghost var v2 := bytes;
      PutProfiles(x.1.1.0); ghost var v3 := bytes;
      PutViews(x.1.1.1.0); ghost var v4 := bytes;
      PutInvocation(x.1.1.1.1.0); ghost var v5 := bytes;
      PutRoles(x.1.1.1.1.1);
      AppendedPair(InvocationFormat(), ListFormat(RoleSpecFormat()), v4, v5, bytes, x.1.1.1.1.0, x.1.1.1.1.1);
      AppendedPair(ListFormat(ViewFormat()), Pair(InvocationFormat(), ListFormat(RoleSpecFormat())), v3, v4, bytes,
          x.1.1.1.0, (x.1.1.1.1.0, x.1.1.1.1.1));
      AppendedPair(ListFormat(ProfileFormat()), Pair(ListFormat(ViewFormat()), Pair(InvocationFormat(),
          ListFormat(RoleSpecFormat()))), v2, v3, bytes, x.1.1.0, (x.1.1.1.0, (x.1.1.1.1.0, x.1.1.1.1.1)));
      AppendedPair(ListFormat(ConflictFormat()), Pair(ListFormat(ProfileFormat()), Pair(ListFormat(ViewFormat()),
          Pair(InvocationFormat(), ListFormat(RoleSpecFormat())))), v1, v2, bytes, x.1.0, (x.1.1.0, (x.1.1.1.0,
          (x.1.1.1.1.0, x.1.1.1.1.1))));
      AppendedPair(ListFormat(EvidenceFormat()), Pair(ListFormat(ConflictFormat()), Pair(ListFormat(ProfileFormat()),
          Pair(ListFormat(ViewFormat()), Pair(InvocationFormat(), ListFormat(RoleSpecFormat()))))), v0, v1, bytes, x.0,
          (x.1.0, (x.1.1.0, (x.1.1.1.0, (x.1.1.1.1.0, x.1.1.1.1.1)))));
    }

    method PutSnapshot(x: Snapshot)
      modifies this
      ensures Appended(old(bytes), bytes, WholeFormat(), x)
    {
      hide FrontFormat, MiddleFormat, BackFormat, Appended;
      ghost var b0 := bytes;
      PutFront(Fields(x).0); ghost var b1 := bytes;
      PutMiddle(Fields(x).1.0); ghost var b2 := bytes;
      PutBack(Fields(x).1.1);
      Assembled(FrontFormat(), MiddleFormat(), BackFormat(), x, b0, b1, b2, bytes);
    }
  }

  method SerializeImpl(s: Snapshot) returns (bytes: Bytes)
    ensures bytes == Serialize(SnapshotFormat(), s)
  {
    hide WholeFormat;
    var buffer := new ByteBuffer();
    buffer.PutU8(CURRENT_VERSION);
    buffer.PutSnapshot(s);
    bytes := buffer.bytes;
    assert bytes + [] == [CURRENT_VERSION] + SnapshotFormat().put(s, []);
  }
}
