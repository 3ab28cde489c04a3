/** The small print of the format: what each primitive read answers on any input, the numeric codes of the enumerations,
    and the bytes that the identities of operations and requests are taken over (src/persistence.cpp and
    include/qiven/context/cognition.hpp). */
module WireLaws {
  import opened Prelude
  import opened Wire
  import opened Cognition
  import opened SnapshotLayout
  import opened SnapshotCodecLaws
  import opened Limits
  import opened Transactions
  import opened WireImages

  // ---- primitive reads ----

  /** The number in the first four bytes. */
  function Low32(b: Bytes): nat
    requires |b| >= 4
  {
    var first: int, second: int, third: int, fourth: int := b[0], b[1], b[2], b[3];
    first + 256 * second + 65536 * third + 16777216 * fourth
  }

  lemma U32Answer(m: Mode, b: Bytes)
    ensures GetU32(m, b) == if |b| < 4 then Err(Truncated) else Ok(Low32(b), b[4..])
  {
    if |b| >= 4 {
      var second: int, third: int, fourth: int := b[1], b[2], b[3];
      assert b[1..][1..] == b[2..] && b[2..][1..] == b[3..] && b[3..][1..] == b[4..];
      assert GetLE(1, b[3..]) == Ok(fourth, b[4..]);
      assert GetLE(2, b[2..]) == Ok(third + 256 * fourth, b[4..]);
      assert GetLE(3, b[1..]) == Ok(second + 256 * third + 65536 * fourth, b[4..]);
    }
  }

  /** The first eight bytes as a two's complement number. */
  function Signed64(b: Bytes): int
    requires |b| >= 8
  {
    var bits := Low32(b) + 0x1_0000_0000 * Low32(b[4..]);
    if b[7] < 128 then bits else bits - 0x1_0000_0000_0000_0000
  }

  lemma Distribute(p: int, x: int, y: int)
    ensures 256 * (x + p * y) == 256 * x + (256 * p) * y
  {
  }

  lemma LESplitsNowhere(high: nat, b: Bytes)
    requires |b| >= high
    ensures GetLE(0, b) == Ok(0, b) && GetLE(high, b[0..]).Ok? && Pow256(0) == 1
    ensures GetLE(0 + high, b) == Ok(GetLE(high, b[0..]).value, b[0 + high..])
  {
    assert b[0..] == b;
    LEDecodes(high, b);
  }

  lemma {:induction false} LESplits(low: nat, high: nat, b: Bytes)
    requires |b| >= low + high
    ensures GetLE(low, b).Ok? && GetLE(high, b[low..]).Ok?
    ensures GetLE(low + high, b) == Ok(GetLE(low, b).value + Pow256(low) * GetLE(high, b[low..]).value, b[low + high..])
  {
    hide GetLE, PutLE, Pow256;
    if low == 0 {
      LESplitsNowhere(high, b);
    } else {
      LEDecodes(low, b);
      LEDecodes(high, b[low..]);
      LESplits(low - 1, high, b[1..]);
      assert b[1..][low - 1..] == b[low..] && b[1..][low - 1 + high..] == b[low + high..];
      LESplitStep(low, high, b);
    }
  }

  lemma LESplitStep(low: nat, high: nat, b: Bytes)
    requires 0 < low && |b| >= low + high && GetLE(low - 1, b[1..]).Ok? && GetLE(high, b[low..]).Ok?
    requires GetLE(low - 1 + high, b[1..]) ==
      Ok(GetLE(low - 1, b[1..]).value + Pow256(low - 1) * GetLE(high, b[low..]).value, b[low + high..])
    ensures GetLE(low + high, b) == Ok(GetLE(low, b).value + Pow256(low) * GetLE(high, b[low..]).value, b[low + high..])
  {
    var first: int := b[0];
    var p, x, y := Pow256(low - 1), GetLE(low - 1, b[1..]).value, GetLE(high, b[low..]).value;
    assert GetLE(low + high, b) == Ok(first + 256 * (x + p * y), b[low + high..]);
    assert GetLE(low, b).value == first + 256 * x && Pow256(low) == 256 * p;
    hide *;
    Distribute(p, x, y);
  }

  lemma HighBit(low: nat, h0: byte, h1: byte, h2: byte, h3: byte)
    requires low < 0x1_0000_0000
    ensures var h: int, i: int, j: int, k: int := h0, h1, h2, h3;
      low + 0x1_0000_0000 * (h + 256 * i + 65536 * j + 16777216 * k) < 0x8000_0000_0000_0000 <==> k < 128
  {
  }

  lemma I64Answer(m: Mode, b: Bytes)
    ensures if |b| < 8 then GetI64(m, b) == Err(Truncated)
      else GetI64(m, b).Ok? && GetI64(m, b).value == Signed64(b) && GetI64(m, b).rest == b[8..]
  {
    hide GetLE, Pow256, PutLE;
    if |b| >= 8 {
      LESplits(4, 4, b);
      U32Answer(m, b);
      U32Answer(m, b[4..]);
      Pow256Values();
      LEDecodes(4, b);
      LEDecodes(8, b);
      HighBit(Low32(b), b[4], b[5], b[6], b[7]);
    }
  }

  /** A length, and that many bytes. */
  lemma StrAnswer(m: Mode, b: Bytes)
    ensures GetStr(m, b) ==
      if |b| < 4 || |b| - 4 < Low32(b) then Err(Truncated) else Ok(b[4..4 + Low32(b)], b[4 + Low32(b)..])
  {
    U32Answer(m, b);
    if |b| >= 4 && |b| - 4 >= Low32(b) {
      assert b[4..][..Low32(b)] == b[4..4 + Low32(b)] && b[4..][Low32(b)..] == b[4 + Low32(b)..];
    }
  }

  /** The reader takes any flag byte but 0 as set. */
  lemma FlagAnswer(version: nat, b: Bytes)
    ensures GetFlag(Standard(version), b) == if b == [] then Err(Truncated) else Ok(b[0] != 0, b[1..])
  {
  }

  lemma EnumAnswer<T>(table: seq<T>, m: Mode, b: Bytes)
    ensures GetEnum(table, m, b) ==
      if b == [] then Err(Truncated) else if b[0] >= |table| then Err(BadEnum) else Ok(table[b[0]], b[1..])
  {
  }

  /** A count over the cap is refused before a record is read. */
  lemma CountAnswer(version: nat, b: Bytes)
    ensures GetCount(Standard(version), b) ==
      if |b| < 4 then Err(Truncated) else if Low32(b) > 100000 then Err(ResourceAbuse) else Ok(Low32(b), b[4..])
  {
    U32Answer(Standard(version), b);
  }

  /** The version byte: none is a truncation, any but 6, 7 and 8 another version. */
  lemma VersionAnswer(f: Layout, b: Bytes)
    ensures b == [] ==> Deserialize(f, b) == Failure(Truncated)
    ensures b != [] && b[0] !in {6, 7, 8} ==> Deserialize(f, b) == Failure(BadVersion)
  {
  }

  // ---- codes ----

  predicate Numbers<T>(xs: seq<T>, code: T -> byte) { forall i :: 0 <= i < |xs| ==> code(xs[i]) == i }

  /** Enumerators are numbered in the order of their declaration. */
  lemma CodesAsDeclared()
    ensures Numbers([Lifecycle.Proposed, Lifecycle.Accepted, Lifecycle.Superseded, Lifecycle.Rejected],
      (e: Lifecycle) => e.Code())
    ensures Numbers([Owner, Brother, Role.Worker], (e: Role) => e.Code())
    ensures Numbers([NoExecution, LocalSupervised, HostBrokered], (e: CapabilityClass) => e.Code())
    ensures Numbers([CanonicalLaw, CapabilityProcedure, RoleChoreography, EnvironmentErgonomics],
      (e: WorkflowLayer) => e.Code())
    ensures Numbers([NoHandoff, Execution, Handoff.Review, Authority, RecoveryPresence], (e: Handoff) => e.Code())
    ensures Numbers([UserStatement, ChatSession, GitCommit, Audit, RepositoryFile, CiRun], (e: SourceKind) => e.Code())
    ensures Numbers([RereadRethink, HaltEscalate, DeferToSupervised, DesignReview, FailClosed, Block],
      (e: RecoveryAction) => e.Code())
    ensures Numbers([DecisionAcceptance, MemoryWrite, ObligationWrite, StateUpdate, ConflictWrite, EvidenceWrite],
      (e: OperationClass) => e.Code())
  {
  }

  lemma RecordCodesAsDeclared()
    ensures Numbers([ConflictStatus.Open, ConflictStatus.Resolved], (e: ConflictStatus) => e.Code())
    ensures Numbers([LocalRecall, CanonicalFact, LiveFact, EvidenceInterpretation, Judgment],
      (e: ClaimClass) => e.Code())
    ensures Numbers([BeforeJudgment, BeforeExecution], (e: RequirementBoundary) => e.Code())
    ensures Numbers([Fact, Lesson, Protocol, Risk, Invariant, NegativeKnowledge], (e: MemoryKind) => e.Code())
    ensures Numbers([Active, MemoryStatus.Superseded], (e: MemoryStatus) => e.Code())
    ensures Numbers([ObligationStatus.Open, Deferred, Blocked, Done, Cancelled, ObligationStatus.Superseded],
      (e: ObligationStatus) => e.Code())
    ensures Numbers([OnTouch, Before, After, OnChange, OnDate, Manual], (e: TriggerKind) => e.Code())
  {
  }

  lemma ReasonCodesAsDeclared()
    ensures Numbers([GrantRefused, UnverifiedActor, StaleBase, HandoffMissing, HandoffInvalid, UnattendedMutation,
      InvariantFailed, GovernanceDenied, StoreDiverged, OutcomeUnresolved, KeyConflict, ConflictUnresolved],
      (e: RefusalReason) => e.Code())
  {
  }

  lemma ActionCodesAsDeclared()
    ensures Numbers([BeginTask, EnterDomain, CreateCppSymbol, IntroducePrimitive, ModifyArchitecture, ModifyPublicAPI,
      InvokeTool,
      RetryFailure, MakeCanonicalClaim, MakeLiveClaim, ModifyReferencedContract, ActionKind.Commit, Publish,
          AcceptCandidate],
      (e: ActionKind) => e.Code())
    ensures Numbers([MandatoryRecall, SearchLowerLayer, VerifyCanonical, VerifyLive, InspectToolContract,
      InspectKnownPit,
      RunMechanicalCheck, RequestReview, AskHuman], (e: RequirementKind) => e.Code())
  {
  }

  lemma OperationCodesAsDeclared()
    ensures Numbers([AppendDecision, SupersedeDecision, AddMemory, UpsertObligation, CloseObligation,
      TransitionObligation,
      UpdateState, AddEvidence, UpsertProfile, OpenConflict, ResolveConflict, AmendViewSpec, SetNextBoundary],
      (e: OperationKind) => e.Code())
  {
  }

  // ---- what identities are taken over ----

  function OperationImage(op: Operation): Bytes {
    [op.kind.Code()] + (I64Image(op.recordId) + (I64Image(op.successorRecordId) + ([op.aux] + (StrImage(op.scope)
      + (StrImage(op.title) + (StrImage(op.payload) + StrImage(op.provenanceRef)))))))
  }

  predicate OperationShort(op: Operation) {
    Short(op.scope) && Short(op.title) && Short(op.payload) && Short(op.provenanceRef)
  }

  lemma U8Reads(m: Mode, n: byte)
    ensures Reads(U8Format(), m, [n], n)
  {
  }

  lemma OperationReads(m: Mode, op: Operation)
    requires OperationShort(op)
    ensures Reads(OperationFormat(), m, OperationImage(op), op)
  {
    hide RoundTrips, Decodes, Streams, Monotone, StrImage, I64Image, EnumFormat;
    OperationKindTable();
    EnumReads(OPERATION_KINDS, (e: OperationKind) => e.Code(), m, op.kind);
    I64Reads(m, op.recordId);
    I64Reads(m, op.successorRecordId);
    U8Reads(m, op.aux);
    StrReads(m, op.scope);
    StrReads(m, op.title);
    StrReads(m, op.payload);
    StrReads(m, op.provenanceRef);
    var tail := [op.aux] + (StrImage(op.scope) + (StrImage(op.title) + (StrImage(op.payload) + StrImage(op.provenanceRef))));
    var rest := (op.aux, (op.scope, (op.title, (op.payload, op.provenanceRef))));
    var f := Pair(U8Format(), Pair(StrFormat(), Pair(StrFormat(), Pair(StrFormat(), StrFormat()))));
    Reads5(U8Format(), StrFormat(), StrFormat(), StrFormat(), StrFormat(), m, [op.aux], StrImage(op.scope),
        StrImage(op.title),
      StrImage(op.payload), StrImage(op.provenanceRef), op.aux, op.scope, op.title, op.payload, op.provenanceRef);
    Reads4(OperationKindFormat(), I64Format(), I64Format(), f, m, [op.kind.Code()], I64Image(op.recordId),
      I64Image(op.successorRecordId), tail, op.kind, op.recordId, op.successorRecordId, rest);
  }

  /** What reads back under a strict reader is what the printer prints. */
  lemma ReadIsPrinted<T(!new)>(f: LawfulFormat<T>, i: Bytes, x: T, r: Bytes)
    requires Reads(f, Mode(8, MAX_U32, true), i, x) && f.within(MAX_U32, x)
    ensures f.put(x, r) == i + r
  {
    assert f.get(Mode(8, MAX_U32, true), i + r) == Ok(x, r);
  }

  lemma {:induction false} AllPrinted(ops: seq<Operation>)
    requires forall i :: 0 <= i < |ops| ==> OperationShort(ops[i])
    ensures PutAll(OperationFormat().put, ops, []) == EachImage((op: Operation) => OperationImage(op), ops)
  {
    if ops != [] {
      hide RoundTrips, Decodes, Streams, Monotone, OperationImage, Reads, EnumFormat, Pair;
      AllPrinted(ops[1..]);
      OperationReads(Mode(8, MAX_U32, true), ops[0]);
      ReadIsPrinted(OperationFormat(), OperationImage(ops[0]), ops[0], PutAll(OperationFormat().put, ops[1..], []));
    }
  }

  /** The digest of a delta is over the operations' fields, one after the other, without count or framing. */
  lemma DeltaDigestIsOver(w: World, ops: seq<Operation>)
    requires forall i :: 0 <= i < |ops| ==> OperationShort(ops[i])
    ensures DigestOperations(w, ops) == Ascii("draft-") + w.content(EachImage((op: Operation) => OperationImage(op),
      ops))
  {
    hide OperationFormat, OperationImage, EachImage, PutAll, Ascii;
    AllPrinted(ops);
  }

  function EvidenceBindingImage(x: Option<H2Evidence>): Bytes {
    match x
    case None => [0]
    case Some(e) =>
      [1] + (StrImage(e.reviewedDeltaDigest) + (StrImage(e.reviewer) + (StrImage(e.reviewerBinding) + StrImage(e.reviewRef))))
  }

  lemma EvidenceReads(m: Mode, x: H2Evidence)
    requires Short(x.reviewedDeltaDigest) && Short(x.reviewer) && Short(x.reviewerBinding) && Short(x.reviewRef)
    ensures Reads(EvidenceBindingFormat(), m, StrImage(x.reviewedDeltaDigest) + (StrImage(x.reviewer)
      + (StrImage(x.reviewerBinding) + StrImage(x.reviewRef))), x)
  {
    hide RoundTrips, Decodes, Streams, Monotone, StrImage;
    StrReads(m, x.reviewedDeltaDigest);
    StrReads(m, x.reviewer);
    StrReads(m, x.reviewerBinding);
    StrReads(m, x.reviewRef);
    Reads4(StrFormat(), StrFormat(), StrFormat(), StrFormat(), m, StrImage(x.reviewedDeltaDigest), StrImage(x.reviewer),
      StrImage(x.reviewerBinding), StrImage(x.reviewRef), x.reviewedDeltaDigest, x.reviewer, x.reviewerBinding,
          x.reviewRef);
  }

  lemma OptionalReads<T(!new)>(f: LawfulFormat<T>, m: Mode, i: Bytes, x: Option<T>)
    requires x.Some? ==> Reads(f, m, i, x.value)
    ensures x.Some? ==> Reads(OptionFormat(f), m, [1] + i, x)
    ensures x.None? ==> Reads(OptionFormat(f), m, [0], x)
  {
    hide RoundTrips, Decodes, Streams, Monotone;
    var g := OptionFormat(f);
    if x.Some? {
      forall r: Bytes ensures g.get(m, [1] + i + r) == if g.within(m.cap, x) then Ok(x, r) else Err(ResourceAbuse) {
        assert [1] + i + r == [1] + (i + r) && ([1] + (i + r))[1..] == i + r;
        assert f.get(m, i + r) == if f.within(m.cap, x.value) then Ok(x.value, r) else Err(ResourceAbuse);
      }
    } else {
      forall r: Bytes ensures g.get(m, [0] + r) == Ok(x, r) {
        assert ([0] + r)[1..] == r;
      }
    }
  }

  predicate RequestShort(w: World, t: ContextTransaction) {
    && Short(t.base.value) && Short(DigestOperations(w, t.operations)) && Short(t.handoffEvidenceRef)
    && (t.h2.Some? ==> var e := t.h2.value;
          Short(e.reviewedDeltaDigest) && Short(e.reviewer) && Short(e.reviewerBinding) && Short(e.reviewRef))
  }

  /** The digest of a request is over its base, the digest of its operations, the evidence pointer and the review
      evidence, present or not; the key is not part of it. */
  lemma RequestDigestIsOver(w: World, t: ContextTransaction)
    requires RequestShort(w, t)
    ensures RequestDigest(w, t) == Ascii("draft-") + w.content(StrImage(t.base.value)
      + (StrImage(DigestOperations(w, t.operations)) + (StrImage(t.handoffEvidenceRef) + EvidenceBindingImage(t.h2))))
  {
    hide RoundTrips, Decodes, Streams, Monotone, StrImage, DigestOperations, EvidenceBindingFormat, OptionFormat, Pair,
        Ascii;
    var m := Mode(8, MAX_U32, true);
    var digest := DigestOperations(w, t.operations);
    StrReads(m, t.base.value);
    StrReads(m, digest);
    StrReads(m, t.handoffEvidenceRef);
    var evidence := OptionFormat(EvidenceBindingFormat());
    EvidenceReadsAs(m, t.h2);
    var i := StrImage(t.base.value) + (StrImage(digest) + (StrImage(t.handoffEvidenceRef) + EvidenceBindingImage(t.h2)));
    Reads4(StrFormat(), StrFormat(), StrFormat(), evidence, m, StrImage(t.base.value), StrImage(digest),
      StrImage(t.handoffEvidenceRef), EvidenceBindingImage(t.h2), t.base.value, digest, t.handoffEvidenceRef, t.h2);
    RequestWithin(w, t);
    ReadIsPrinted(RequestFormat(), i, RequestOf(w, t), []);
    assert i + [] == i;
  }

  lemma EvidenceReadsAs(m: Mode, x: Option<H2Evidence>)
    requires x.Some? ==> var e := x.value;
      Short(e.reviewedDeltaDigest) && Short(e.reviewer) && Short(e.reviewerBinding) && Short(e.reviewRef)
    ensures Reads(OptionFormat(EvidenceBindingFormat()), m, EvidenceBindingImage(x), x)
  {
    hide RoundTrips, Decodes, Streams, Monotone, StrImage, EvidenceBindingFormat, OptionFormat, Reads;
    if x.Some? {
      var e := x.value;
      EvidenceReads(m, e);
      OptionalReads(EvidenceBindingFormat(), m, StrImage(e.reviewedDeltaDigest) + (StrImage(e.reviewer)
        + (StrImage(e.reviewerBinding) + StrImage(e.reviewRef))), x);
    } else {
      OptionalReads(EvidenceBindingFormat(), m, [], x);
    }
  }

  lemma RequestWithin(w: World, t: ContextTransaction)
    requires RequestShort(w, t)
    ensures RequestFormat().within(MAX_U32, RequestOf(w, t))
  {
    hide RoundTrips, Decodes, Streams, Monotone, DigestOperations;
  }
}
