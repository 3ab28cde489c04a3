/** The size bound of the layout, spelled out: which snapshots the format can address and the reader accepts. */
module Limits {
  import opened Prelude
  import opened Wire
  import opened Cognition
  import opened SnapshotLayout
  import opened SnapshotCodecLaws

  predicate Short(x: Str) { |x| <= MAX_U32 }

  predicate ListOf<T>(cap: nat, xs: seq<T>, p: T -> bool) { |xs| <= cap && forall i :: 0 <= i < |xs| ==> p(xs[i]) }

  predicate Strings(cap: nat, xs: seq<Str>) { ListOf(cap, xs, (x: Str) => Short(x)) }

  predicate SourceBounded(x: Source) { Short(x.reference) && Short(x.note) }

  predicate Sources(cap: nat, xs: seq<Source>) { ListOf(cap, xs, (x: Source) => SourceBounded(x)) }

  predicate StateBounded(x: StateView) {
    Short(x.objective) && Short(x.current) && Short(x.checkpointRef) && Short(x.candidateRef)
    && Short(x.nextBoundaryRef) && Short(x.repositories) && Short(x.roadmap)
  }

  predicate DecisionBounded(cap: nat, x: Decision) {
    Short(x.title) && Short(x.content) && |x.supersedes| <= cap && |x.supersededBy| <= cap && Sources(cap, x.provenance)
  }

  predicate MemoryBounded(cap: nat, x: MemoryRecord) {
    Short(x.title) && Short(x.statement) && Sources(cap, x.provenance)
  }

  predicate ObligationBounded(x: Obligation) { Short(x.statement) && Short(x.completionCriteria) }

  predicate EvidenceBounded(x: EvidenceRecord) { Short(x.boundTo) && Short(x.content) }

  predicate ConflictBounded(x: Conflict) { Short(x.id) && Short(x.scope) && Short(x.description) && Short(x.resolution) }

  predicate ProfileBounded(x: ProfileRecord) { Short(x.id) && Short(x.kind) && Short(x.summary) }

  predicate ViewBounded(cap: nat, x: ViewSpec) {
    Short(x.id) && Short(x.agent) && Short(x.human) && Short(x.summary) && Strings(cap, x.profileRefs)
  }

  predicate InvocationBounded(cap: nat, x: InvocationPolicy) {
    ListOf(cap, x.rules, (r: InvocationRule) => Short(r.subject))
  }

  predicate RoleBounded(cap: nat, x: RoleSpec) {
    |x.authorities| <= cap && Strings(cap, x.duties) && Sources(cap, x.provenance)
  }

  predicate FrontBounded(cap: nat, s: Snapshot) {
    && Short(s.rootPrincipal) && Strings(cap, s.articles) && |s.policy.handoff| <= cap && |s.policy.recovery| <= cap
    && StateBounded(s.state) && ListOf(cap, s.decisions, (x: Decision) => DecisionBounded(cap, x))
  }

  predicate MiddleBounded(cap: nat, s: Snapshot) {
    && ListOf(cap, s.memory, (x: MemoryRecord) => MemoryBounded(cap, x))
    && ListOf(cap, s.obligations, (x: Obligation) => ObligationBounded(x))
  }

  predicate BackBounded(cap: nat, s: Snapshot) {
    && ListOf(cap, s.evidence, (x: EvidenceRecord) => EvidenceBounded(x))
    && ListOf(cap, s.conflicts, (x: Conflict) => ConflictBounded(x))
    && ListOf(cap, s.profiles, (x: ProfileRecord) => ProfileBounded(x))
    && ListOf(cap, s.views, (x: ViewSpec) => ViewBounded(cap, x))
    && InvocationBounded(cap, s.invocation)
    && ListOf(cap, s.roles, (x: RoleSpec) => RoleBounded(cap, x))
  }

  /** No list longer than `cap`, no string longer than its 32-bit length. */
  predicate Bounded(cap: nat, s: Snapshot) { FrontBounded(cap, s) && MiddleBounded(cap, s) && BackBounded(cap, s) }

  // ---- record by record ----

  lemma ListWithin<T(!new)>(f: LawfulFormat<T>, cap: nat, xs: seq<T>, p: T -> bool)
    requires forall i :: 0 <= i < |xs| ==> (f.within(cap, xs[i]) <==> p(xs[i]))
    ensures ListFormat(f).within(cap, xs) <==> ListOf(cap, xs, p)
  {
    hide RoundTrips, Decodes, Streams, Monotone;
    assert forall i :: 0 <= i < |xs| ==> (f.within(cap, xs[i]) <==> p(xs[i]));
  }

  lemma StringsWithin(cap: nat, xs: seq<Str>)
    ensures ListFormat(StrFormat()).within(cap, xs) <==> Strings(cap, xs)
  {
    hide RoundTrips, Decodes, Streams, Monotone, ListFormat, ListOf;
    ListWithin(StrFormat(), cap, xs, (x: Str) => Short(x));
  }

  lemma SourcesWithin(cap: nat, xs: seq<Source>)
    ensures ListFormat(SourceFormat()).within(cap, xs) <==> Sources(cap, xs)
  {
    hide RoundTrips, Decodes, Streams, Monotone, ListFormat, ListOf;
    ListWithin(SourceFormat(), cap, xs, (x: Source) => SourceBounded(x));
  }

  lemma DecisionWithin(cap: nat, x: Decision)
    ensures DecisionFormat().within(cap, x) <==> DecisionBounded(cap, x)
  {
    hide RoundTrips, Decodes, Streams, Monotone, SourceFormat, Sources;
    SourcesWithin(cap, x.provenance);
  }

  lemma MemoryWithin(cap: nat, x: MemoryRecord)
    ensures MemoryFormat().within(cap, x) <==> CanonMemory(x) == x && MemoryBounded(cap, x)
  {
    hide RoundTrips, Decodes, Streams, Monotone, SourceFormat, Sources;
    SourcesWithin(cap, x.provenance);
  }

  lemma ViewWithin(cap: nat, x: ViewSpec)
    ensures ViewFormat().within(cap, x) <==> ViewBounded(cap, x)
  {
    hide RoundTrips, Decodes, Streams, Monotone, Strings;
    StringsWithin(cap, x.profileRefs);
  }

  lemma InvocationWithin(cap: nat, x: InvocationPolicy)
    ensures InvocationFormat().within(cap, x) <==> InvocationBounded(cap, x)
  {
    hide RoundTrips, Decodes, Streams, Monotone, ListOf;
    ListWithin(RuleFormat(), cap, x.rules, (r: InvocationRule) => Short(r.subject));
  }

  lemma RoleWithin(cap: nat, x: RoleSpec)
    ensures RoleSpecFormat().within(cap, x) <==> RoleBounded(cap, x)
  {
    hide RoundTrips, Decodes, Streams, Monotone, SourceFormat, Sources, Strings;
    SourcesWithin(cap, x.provenance);
    StringsWithin(cap, x.duties);
  }

  lemma FrontWithin(cap: nat, s: Snapshot)
    ensures FrontFormat().within(cap, Fields(s).0) <==> FrontBounded(cap, s)
  {
    hide RoundTrips, Decodes, Streams, Monotone, DecisionFormat, DecisionBounded, Strings, ListOf;
    StringsWithin(cap, s.articles);
    forall x: Decision ensures DecisionFormat().within(cap, x) <==> DecisionBounded(cap, x) { DecisionWithin(cap, x); }
    ListWithin(DecisionFormat(), cap, s.decisions, (x: Decision) => DecisionBounded(cap, x));
    ListWithin(HandoffRowFormat(), cap, s.policy.handoff, (x: HandoffPolicy) => true);
    ListWithin(RecoveryRowFormat(), cap, s.policy.recovery, (x: RecoveryRule) => true);
  }

  lemma MiddleWithin(cap: nat, s: Snapshot)
    ensures MiddleFormat().within(cap, Fields(Canon(s)).1.0) <==> MiddleBounded(cap, s)
  {
    hide RoundTrips, Decodes, Streams, Monotone, MemoryFormat, MemoryBounded, ObligationFormat, ListOf;
    var memory, obligations := Canon(s).memory, Canon(s).obligations;
    forall x: MemoryRecord ensures MemoryFormat().within(cap, CanonMemory(x)) <==> MemoryBounded(cap, x) {
      MemoryWithin(cap, CanonMemory(x));
      SameBound(cap, x);
    }
    forall x: Obligation ensures ObligationFormat().within(cap, CanonObligation(x)) <==> ObligationBounded(x) {
      ObligationWithin(cap, x);
    }
    ListWithin(MemoryFormat(), cap, memory, (x: MemoryRecord) => MemoryBounded(cap, x));
    ListWithin(ObligationFormat(), cap, obligations, (x: Obligation) => ObligationBounded(x));
    CanonLists(cap, s);
  }

  lemma SameBound(cap: nat, x: MemoryRecord)
    ensures MemoryBounded(cap, CanonMemory(x)) == MemoryBounded(cap, x) && CanonMemory(CanonMemory(x)) == CanonMemory(x)
  {
  }

  lemma ObligationWithin(cap: nat, x: Obligation)
    ensures ObligationFormat().within(cap, CanonObligation(x)) <==> ObligationBounded(x)
  {
    hide RoundTrips, Decodes, Streams, Monotone;
  }

  lemma CanonLists(cap: nat, s: Snapshot)
    ensures ListOf(cap, Canon(s).memory, (x: MemoryRecord) => MemoryBounded(cap, x)) <==>
      ListOf(cap, s.memory, (x: MemoryRecord) => MemoryBounded(cap, x))
    ensures ListOf(cap, Canon(s).obligations, (x: Obligation) => ObligationBounded(x)) <==>
      ListOf(cap, s.obligations, (x: Obligation) => ObligationBounded(x))
  {
    hide Sources;
    assert forall i :: 0 <= i < |s.memory| ==> MemoryBounded(cap, Canon(s).memory[i]) == MemoryBounded(cap, s.memory[i]);
    assert forall i :: 0 <= i < |s.obligations| ==>
      ObligationBounded(Canon(s).obligations[i]) == ObligationBounded(s.obligations[i]);
  }

  lemma BackWithin(cap: nat, s: Snapshot)
    ensures BackFormat().within(cap, Fields(s).1.1) <==> BackBounded(cap, s)
  {
    hide RoundTrips, Decodes, Streams, Monotone, ListOf, ViewFormat, ViewBounded, InvocationFormat, InvocationBounded,
      RoleSpecFormat, RoleBounded;
    ListWithin(EvidenceFormat(), cap, s.evidence, (x: EvidenceRecord) => EvidenceBounded(x));
    ListWithin(ConflictFormat(), cap, s.conflicts, (x: Conflict) => ConflictBounded(x));
    ListWithin(ProfileFormat(), cap, s.profiles, (x: ProfileRecord) => ProfileBounded(x));
    forall x: ViewSpec ensures ViewFormat().within(cap, x) <==> ViewBounded(cap, x) { ViewWithin(cap, x); }
    ListWithin(ViewFormat(), cap, s.views, (x: ViewSpec) => ViewBounded(cap, x));
    InvocationWithin(cap, s.invocation);
    forall x: RoleSpec ensures RoleSpecFormat().within(cap, x) <==> RoleBounded(cap, x) { RoleWithin(cap, x); }
    ListWithin(RoleSpecFormat(), cap, s.roles, (x: RoleSpec) => RoleBounded(cap, x));
  }

  lemma AssembledWithin(front: LawfulFormat<Front>, middle: LawfulFormat<Middle>, back: LawfulFormat<Back>, cap: nat,
      s: Snapshot)
    ensures Assemble(front, middle, back).within(cap, s) <==>
      front.within(cap, Fields(s).0) && middle.within(cap, Fields(s).1.0) && back.within(cap, Fields(s).1.1)
  {
  }

  lemma CanonKeepsBounds(cap: nat, s: Snapshot)
    ensures FrontBounded(cap, Canon(s)) == FrontBounded(cap, s) && BackBounded(cap, Canon(s)) == BackBounded(cap, s)
  {
  }

  lemma WholeWithin(cap: nat, s: Snapshot)
    ensures WholeFormat().within(cap, Canon(s)) <==> Bounded(cap, s)
  {
    hide FrontFormat, MiddleFormat, BackFormat, RoundTrips, Decodes, Streams, Monotone, Canon, FrontBounded,
        MiddleBounded,
      BackBounded, Fields;
    AssembledWithin(FrontFormat(), MiddleFormat(), BackFormat(), cap, Canon(s));
    FrontWithin(cap, Canon(s));
    MiddleWithin(cap, s);
    BackWithin(cap, Canon(s));
    CanonKeepsBounds(cap, s);
  }

  /** Addressable are the snapshots in which no list and no string is longer than a 32-bit length, and of these the
      reader accepts the ones in which moreover no list is longer than its record cap. */
  predicate LimitsAt(f: Layout, s: Snapshot) {
    (Sized(f, s) <==> Bounded(MAX_U32, s)) && (WithinLimits(f, s) <==> Bounded(MAX_RECORDS, s))
  }

  ghost predicate PlainLimits(f: Layout) { forall s: Snapshot :: LimitsAt(f, s) }

  /** The layout of the program has these limits. */
  lemma LimitsOfTheFormat()
    ensures PlainLimits(SnapshotFormat())
  {
    hide WholeFormat, RoundTrips, Decodes, Streams, Monotone, Drops, DropsTwoFields, Canon, Bounded;
    forall s: Snapshot ensures LimitsAt(SnapshotFormat(), s) {
      WholeWithin(MAX_U32, s);
      WholeWithin(MAX_RECORDS, s);
    }
  }
}
