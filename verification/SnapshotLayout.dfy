/** The layout of a snapshot, record by record in wire order (serializeImpl and deserializeImpl in
    src/persistence.cpp). Every format here is lawful by its type. */
module SnapshotLayout {
  import opened Prelude
  import opened Wire
  import opened Cognition

  // ---- enumerations ----

  function SourceKindFormat(): LawfulFormat<SourceKind> { EnumFormat(SOURCE_KINDS, (e: SourceKind) => e.Code()) }
  function OperationClassFormat(): LawfulFormat<OperationClass> { EnumFormat(OPERATION_CLASSES,
      (e: OperationClass) => e.Code()) }
  function HandoffFormat(): LawfulFormat<Handoff> { EnumFormat(HANDOFFS, (e: Handoff) => e.Code()) }
  function RefusalReasonFormat(): LawfulFormat<RefusalReason> { RefusalReasonTable(); EnumFormat(REFUSAL_REASONS,
      (e: RefusalReason) => e.Code()) }
  function RecoveryActionFormat(): LawfulFormat<RecoveryAction> { EnumFormat(RECOVERY_ACTIONS,
      (e: RecoveryAction) => e.Code()) }
  function LifecycleFormat(): LawfulFormat<Lifecycle> { EnumFormat(LIFECYCLES, (e: Lifecycle) => e.Code()) }
  function MemoryKindFormat(): LawfulFormat<MemoryKind> { EnumFormat(MEMORY_KINDS, (e: MemoryKind) => e.Code()) }
  function MemoryStatusFormat(): LawfulFormat<MemoryStatus> { EnumFormat(MEMORY_STATUSES,
      (e: MemoryStatus) => e.Code()) }
  function ObligationStatusFormat(): LawfulFormat<ObligationStatus> { EnumFormat(OBLIGATION_STATUSES,
      (e: ObligationStatus) => e.Code()) }
  function TriggerKindFormat(): LawfulFormat<TriggerKind> { EnumFormat(TRIGGER_KINDS, (e: TriggerKind) => e.Code()) }
  function ConflictStatusFormat(): LawfulFormat<ConflictStatus> { EnumFormat(CONFLICT_STATUSES,
      (e: ConflictStatus) => e.Code()) }
  function WorkflowLayerFormat(): LawfulFormat<WorkflowLayer> { EnumFormat(WORKFLOW_LAYERS,
      (e: WorkflowLayer) => e.Code()) }
  function ClaimClassFormat(): LawfulFormat<ClaimClass> { EnumFormat(CLAIM_CLASSES, (e: ClaimClass) => e.Code()) }
  function ActionKindFormat(): LawfulFormat<ActionKind> { ActionKindTable(); EnumFormat(ACTION_KINDS,
      (e: ActionKind) => e.Code()) }
  function RequirementKindFormat(): LawfulFormat<RequirementKind> {
    RequirementKindTable();
    EnumFormat(REQUIREMENT_KINDS, (e: RequirementKind) => e.Code())
  }
  function RequirementBoundaryFormat(): LawfulFormat<RequirementBoundary> { EnumFormat(REQUIREMENT_BOUNDARIES,
      (e: RequirementBoundary) => e.Code()) }
  function CapabilityClassFormat(): LawfulFormat<CapabilityClass> { EnumFormat(CAPABILITY_CLASSES,
      (e: CapabilityClass) => e.Code()) }
  function RoleFormat(): LawfulFormat<Role> { EnumFormat(ROLES, (e: Role) => e.Code()) }

  lemma RefusalReasonTable()
    ensures forall x: RefusalReason :: x.Code() < |REFUSAL_REASONS| && REFUSAL_REASONS[x.Code()] == x
    ensures forall i: byte :: i < |REFUSAL_REASONS| ==> REFUSAL_REASONS[i].Code() == i
  {
  }

  lemma ActionKindTable()
    ensures forall x: ActionKind :: x.Code() < |ACTION_KINDS| && ACTION_KINDS[x.Code()] == x
    ensures forall i: byte :: i < |ACTION_KINDS| ==> ACTION_KINDS[i].Code() == i
  {
  }

  lemma RequirementKindTable()
    ensures forall x: RequirementKind :: x.Code() < |REQUIREMENT_KINDS| && REQUIREMENT_KINDS[x.Code()] == x
    ensures forall i: byte :: i < |REQUIREMENT_KINDS| ==> REQUIREMENT_KINDS[i].Code() == i
  {
  }

  // ---- records ----

  function SourceFormat(): LawfulFormat<Source> {
    Record(Pair(SourceKindFormat(), Pair(StrFormat(), StrFormat())),
      (x: Source) => (x.kind, (x.reference, x.note)),
      (t: (SourceKind, (Str, Str))) => Source(t.0, t.1.0, t.1.1))
  }

  function HandoffRowFormat(): LawfulFormat<HandoffPolicy> {
    Record(Pair(OperationClassFormat(), Pair(HandoffFormat(), FlagFormat())),
      (x: HandoffPolicy) => (x.opClass, (x.required, x.rootPrincipalOnly)),
      (t: (OperationClass, (Handoff, bool))) => HandoffPolicy(t.0, t.1.0, t.1.1))
  }

  function RecoveryRowFormat(): LawfulFormat<RecoveryRule> {
    Record(Pair(RefusalReasonFormat(), RecoveryActionFormat()),
      (x: RecoveryRule) => (x.reason, x.action),
      (t: (RefusalReason, RecoveryAction)) => RecoveryRule(t.0, t.1))
  }

  function StateFormat(): LawfulFormat<StateView> {
    Record(Pair(StrFormat(), Pair(StrFormat(), Pair(StrFormat(), Pair(StrFormat(), Pair(StrFormat(), Pair(StrFormat(),
        StrFormat())))))),
      (x: StateView) => (x.objective, (x.current, (x.checkpointRef, (x.candidateRef, (x.nextBoundaryRef,
          (x.repositories, x.roadmap)))))),
      (t: (Str, (Str, (Str, (Str, (Str, (Str, Str))))))) => StateView(t.0, t.1.0, t.1.1.0, t.1.1.1.0, t.1.1.1.1.0,
          t.1.1.1.1.1.0, t.1.1.1.1.1.1))
  }

  function DecisionFormat(): LawfulFormat<Decision> {
    Record(Pair(I64Format(), Pair(LifecycleFormat(), Pair(StrFormat(), Pair(StrFormat(), Pair(ListFormat(I64Format()),
        Pair(ListFormat(I64Format()), ListFormat(SourceFormat()))))))),
      (x: Decision) => (x.id, (x.status, (x.title, (x.content, (x.supersedes, (x.supersededBy, x.provenance)))))),
      (t: (i64, (Lifecycle, (Str, (Str, (seq<i64>, (seq<i64>, seq<Source>))))))) => Decision(t.0, t.1.0, t.1.1.0,
          t.1.1.1.0, t.1.1.1.1.0, t.1.1.1.1.1.0, t.1.1.1.1.1.1))
  }

  /** The epistemic type is not part of the layout. */
  function MemoryFormat(): LawfulFormat<MemoryRecord> {
    RecordOn(Pair(MemoryKindFormat(), Pair(MemoryStatusFormat(), Pair(StrFormat(), Pair(StrFormat(),
        ListFormat(SourceFormat()))))),
      (x: MemoryRecord) => (x.kind, (x.status, (x.title, (x.statement, x.provenance)))),
      (m: Mode, t: (MemoryKind, (MemoryStatus, (Str, (Str, seq<Source>))))) => MemoryRecord(t.0, Observation, t.1.0,
          t.1.1.0, t.1.1.1.0, t.1.1.1.1),
      (x: MemoryRecord) => CanonMemory(x) == x)
  }

  /** The trigger value is not part of the layout. */
  function ObligationFormat(): LawfulFormat<Obligation> {
    RecordOn(Pair(ObligationStatusFormat(), Pair(TriggerKindFormat(), Pair(I64Format(), Pair(StrFormat(),
        StrFormat())))),
      (x: Obligation) => (x.status, (x.trigger, (x.id, (x.statement, x.completionCriteria)))),
      (m: Mode, t: (ObligationStatus, (TriggerKind, (i64, (Str, Str))))) => Obligation(t.0, t.1.0, [], t.1.1.0,
          t.1.1.1.0, t.1.1.1.1),
      (x: Obligation) => CanonObligation(x) == x)
  }

  function EvidenceFormat(): LawfulFormat<EvidenceRecord> {
    Record(Pair(StrFormat(), StrFormat()),
      (x: EvidenceRecord) => (x.boundTo, x.content),
      (t: (Str, Str)) => EvidenceRecord(t.0, t.1))
  }

  function ConflictFormat(): LawfulFormat<Conflict> {
    Record(Pair(StrFormat(), Pair(ConflictStatusFormat(), Pair(StrFormat(), Pair(StrFormat(), StrFormat())))),
      (x: Conflict) => (x.id, (x.status, (x.scope, (x.description, x.resolution)))),
      (t: (Str, (ConflictStatus, (Str, (Str, Str))))) => Conflict(t.0, t.1.0, t.1.1.0, t.1.1.1.0, t.1.1.1.1))
  }

  function ProfileFormat(): LawfulFormat<ProfileRecord> {
    Record(Pair(StrFormat(), Pair(StrFormat(), Pair(StrFormat(), WorkflowLayerFormat()))),
      (x: ProfileRecord) => (x.id, (x.kind, (x.summary, x.layer))),
      (t: (Str, (Str, (Str, WorkflowLayer)))) => ProfileRecord(t.0, t.1.0, t.1.1.0, t.1.1.1))
  }

  function ViewFormat(): LawfulFormat<ViewSpec> {
    Record(Pair(StrFormat(), Pair(StrFormat(), Pair(StrFormat(), Pair(StrFormat(), ListFormat(StrFormat()))))),
      (x: ViewSpec) => (x.id, (x.agent, (x.human, (x.summary, x.profileRefs)))),
      (t: (Str, (Str, (Str, (Str, seq<Str>))))) => ViewSpec(t.0, t.1.0, t.1.1.0, t.1.1.1.0, t.1.1.1.1))
  }

  function ClaimFormat(): LawfulFormat<Option<ClaimClass>> {
    OptionFormat(ClaimClassFormat())
  }

  /** Version 7 rules carry neither claim class nor boundary. */
  function RuleFormat(): LawfulFormat<InvocationRule> {
    RecordOn(Pair(ActionKindFormat(), Pair(Since(8, ClaimFormat(), None), Pair(RequirementKindFormat(), Pair(Since(8,
        RequirementBoundaryFormat(), BeforeJudgment), Pair(StrFormat(), FlagFormat()))))),
      (x: InvocationRule) => (x.action, (x.claimClass, (x.requirement, (x.boundary, (x.subject, x.blocking))))),
      (m: Mode, t: (ActionKind, (Option<ClaimClass>, (RequirementKind, (RequirementBoundary, (Str,
          bool)))))) => InvocationRule(t.0, t.1.0, t.1.1.0, t.1.1.1.0, t.1.1.1.1.0, t.1.1.1.1.1),
      (x: InvocationRule) => true)
  }

  /** Absent in version 6; version 7 has rules but no presence byte, and an empty rule list restores as absent. */
  function InvocationFormat(): LawfulFormat<InvocationPolicy> {
    RecordOn(Pair(Since(8, FlagFormat(), false), Since(7, ListFormat(RuleFormat()), [])),
      (x: InvocationPolicy) => (x.present, x.rules),
      (m: Mode, t: (bool, seq<InvocationRule>)) => InvocationPolicy(if m.version == 7 then t.1 != [] else t.0, t.1),
      (x: InvocationPolicy) => true)
  }

  function FloorFormat(): LawfulFormat<Floor> {
    Record(Pair(FlagFormat(), Pair(CapabilityClassFormat(), FlagFormat())),
      (x: Floor) => (x.reviewGradeReasoning, (x.execution, x.identityPortVerified)),
      (t: (bool, (CapabilityClass, bool))) => Floor(t.0, t.1.0, t.1.1))
  }

  function RoleSpecFormat(): LawfulFormat<RoleSpec> {
    Record(Pair(RoleFormat(), Pair(ListFormat(OperationClassFormat()), Pair(ListFormat(StrFormat()),
        Pair(FloorFormat(), ListFormat(SourceFormat()))))),
      (x: RoleSpec) => (x.id, (x.authorities, (x.duties, (x.floor, x.provenance)))),
      (t: (Role, (seq<OperationClass>, (seq<Str>, (Floor, seq<Source>))))) => RoleSpec(t.0, t.1.0, t.1.1.0, t.1.1.1.0,
          t.1.1.1.1))
  }

  /** The snapshot in wire order: the fields before the memory records, the two lists that are written in
      part only, and the fields after the obligations. */
  type Front = (Str, (seq<Str>, (seq<HandoffPolicy>, (seq<RecoveryRule>, (StateView, seq<Decision>)))))
  type Middle = (seq<MemoryRecord>, seq<Obligation>)
  type Back = (seq<EvidenceRecord>, (seq<Conflict>, (seq<ProfileRecord>, (seq<ViewSpec>, (InvocationPolicy,
      seq<RoleSpec>)))))

  function FrontFormat(): LawfulFormat<Front> {
    Pair(StrFormat(), Pair(ListFormat(StrFormat()), Pair(ListFormat(HandoffRowFormat()),
        Pair(ListFormat(RecoveryRowFormat()),
      Pair(StateFormat(), ListFormat(DecisionFormat()))))))
  }

  function MiddleFormat(): LawfulFormat<Middle> {
    Pair(ListFormat(MemoryFormat()), ListFormat(ObligationFormat()))
  }

  function BackFormat(): LawfulFormat<Back> {
    Pair(ListFormat(EvidenceFormat()), Pair(ListFormat(ConflictFormat()), Pair(ListFormat(ProfileFormat()),
        Pair(ListFormat(ViewFormat()),
      Pair(InvocationFormat(), ListFormat(RoleSpecFormat()))))))
  }

  function Fields(x: Snapshot): (Front, (Middle, Back)) {
    ((x.rootPrincipal, (x.articles, (x.policy.handoff, (x.policy.recovery, (x.state, x.decisions))))),
     ((x.memory, x.obligations),
      (x.evidence, (x.conflicts, (x.profiles, (x.views, (x.invocation, x.roles)))))))
  }

  function MakeSnapshot(t: (Front, (Middle, Back))): Snapshot {
    Snapshot(t.0.0, t.0.1.0, PolicyTable(t.0.1.1.0, t.0.1.1.1.0), t.1.1.1.1.1.1.0, t.0.1.1.1.1.0, t.0.1.1.1.1.1,
      t.1.0.0, t.1.0.1, t.1.1.0, t.1.1.1.0, t.1.1.1.1.0, t.1.1.1.1.1.0, t.1.1.1.1.1.1.1)
  }

  lemma FieldsInverse()
    ensures forall x: Snapshot :: MakeSnapshot(Fields(x)) == x
    ensures forall t: (Front, (Middle, Back)) :: Fields(MakeSnapshot(t)) == t
  {
  }

  function Assemble(front: LawfulFormat<Front>, middle: LawfulFormat<Middle>,
      back: LawfulFormat<Back>): LawfulFormat<Snapshot> {
    FieldsInverse();
    Record(Pair(front, Pair(middle, back)), Fields, MakeSnapshot)
  }

  lemma AssemblePut(front: LawfulFormat<Front>, middle: LawfulFormat<Middle>, back: LawfulFormat<Back>, s: Snapshot,
      r: Bytes)
    ensures Assemble(front, middle, back).put(s, r) == front.put(Fields(s).0, middle.put(Fields(s).1.0,
      back.put(Fields(s).1.1, r)))
  {
  }

  function WholeFormat(): LawfulFormat<Snapshot> { Assemble(FrontFormat(), MiddleFormat(), BackFormat()) }

  // ---- the two fields that are never written ----

  /** The format keeps everything but what `Canon` resets, and restores canonical snapshots only. */
  ghost predicate DropsTwoFields(f: Format<Snapshot>) {
    && (forall s: Snapshot, r: Bytes :: f.put(Canon(s), r) == f.put(s, r))
    && (forall cap: nat, s: Snapshot :: f.within(cap, s) ==> Canon(s) == s)
  }

  /** `canon` resets what `f` does not print, and `f` restores only what `canon` leaves alone. */
  ghost predicate Drops<T(!new)>(f: Format<T>, canon: T -> T) {
    && (forall x: T, r: Bytes :: f.put(canon(x), r) == f.put(x, r))
    && (forall cap: nat, x: T :: f.within(cap, x) ==> canon(x) == x)
  }

  lemma {:induction false} AllDrops<T(!new)>(f: Format<T>, canon: T -> T, xs: seq<T>, ys: seq<T>, r: Bytes)
    requires Drops(f, canon) && |xs| == |ys| && forall i :: 0 <= i < |xs| ==> xs[i] == canon(ys[i])
    ensures PutAll(f.put, xs, r) == PutAll(f.put, ys, r)
  {
    if xs != [] {
      AllDrops(f, canon, xs[1..], ys[1..], r);
    }
  }

  lemma ListDrops<T(!new)>(f: LawfulFormat<T>, canon: T -> T, xs: seq<T>, ys: seq<T>, r: Bytes, cap: nat)
    requires Drops(f, canon) && |xs| == |ys| && forall i :: 0 <= i < |xs| ==> xs[i] == canon(ys[i])
    ensures ListFormat(f).put(xs, r) == ListFormat(f).put(ys, r)
    ensures ListFormat(f).within(cap, ys) ==> xs == ys
  {
    AllDrops(f, canon, xs, ys, r);
    if ListFormat(f).within(cap, ys) {
      assert AllWithin(f.within, cap, ys);
    }
  }

  lemma MemoryDrops()
    ensures Drops(MemoryFormat(), CanonMemory)
  {
  }

  lemma ObligationDrops()
    ensures Drops(ObligationFormat(), CanonObligation)
  {
  }

  lemma AssembleDropsAt(front: LawfulFormat<Front>, memory: LawfulFormat<MemoryRecord>,
      obligations: LawfulFormat<Obligation>,
      back: LawfulFormat<Back>, s: Snapshot, r: Bytes, cap: nat)
    requires Drops(memory, CanonMemory) && Drops(obligations, CanonObligation)
    ensures var whole := Assemble(front, Pair(ListFormat(memory), ListFormat(obligations)), back);
      whole.put(Canon(s), r) == whole.put(s, r) && (whole.within(cap, s) ==> Canon(s) == s)
  {
    var rest := back.put(Fields(s).1.1, r);
    ListDrops(obligations, CanonObligation, Canon(s).obligations, s.obligations, rest, cap);
    ListDrops(memory, CanonMemory, Canon(s).memory, s.memory, ListFormat(obligations).put(s.obligations, rest), cap);
    var middle := Pair(ListFormat(memory), ListFormat(obligations));
    assert middle.put(Fields(Canon(s)).1.0, rest) == middle.put(Fields(s).1.0, rest);
    assert Assemble(front, middle, back).put(Canon(s), r) == front.put(Fields(s).0, middle.put(Fields(Canon(s)).1.0,
        rest));
  }

  lemma AssembleDrops(front: LawfulFormat<Front>, memory: LawfulFormat<MemoryRecord>,
      obligations: LawfulFormat<Obligation>,
      back: LawfulFormat<Back>)
    requires Drops(memory, CanonMemory) && Drops(obligations, CanonObligation)
    ensures DropsTwoFields(Assemble(front, Pair(ListFormat(memory), ListFormat(obligations)), back))
  {
    var whole := Assemble(front, Pair(ListFormat(memory), ListFormat(obligations)), back);
    forall s: Snapshot, r: Bytes ensures whole.put(Canon(s), r) == whole.put(s, r) {
      AssembleDropsAt(front, memory, obligations, back, s, r, 0);
    }
    forall cap: nat, s: Snapshot ensures whole.within(cap, s) ==> Canon(s) == s {
      AssembleDropsAt(front, memory, obligations, back, s, [], cap);
    }
  }

  lemma WholeDropsTwoFields()
    ensures DropsTwoFields(WholeFormat())
  {
    MemoryDrops();
    ObligationDrops();
    AssembleDrops(FrontFormat(), MemoryFormat(), ObligationFormat(), BackFormat());
  }

  /** A lawful layout of snapshots that drops exactly those two fields. The program's layout is one; everything
      that relies on the format only through these laws is stated for all of them. */
  type Layout = f: LawfulFormat<Snapshot> | DropsTwoFields(f)
    ghost witness (WholeDropsTwoFields(); WholeFormat())

  function SnapshotFormat(): Layout {
    WholeDropsTwoFields();
    WholeFormat()
  }
}
