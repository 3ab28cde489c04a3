/** The founding snapshot (makeConstitution, makeDefaultPolicy, makeGenesis in src/persistence.cpp and
    default_invocation_policy in include/qiven/context/cognition.hpp). */
module Genesis {
  import opened Prelude
  import opened Wire
  import opened Cognition
  import opened SnapshotLayout
  import opened SnapshotCodecLaws
  import opened Limits
  import opened Gates
  import opened Ledger
  import opened History

  /** The titles of the constitution. */
  const ARTICLES: seq<string> := [
    "Project cognition must outlive its participants",
    "Capture conservatively, canonicalize deliberately, retrieve selectively",
    "Evidence and interpretation are different",
    "History is not overwritten",
    "Session independence is mandatory",
    "Unfinished cognition is first-class",
    "Negative knowledge is first-class",
    "Epistemic types must not be collapsed",
    "Provenance is required",
    "Authority is question-scoped",
    "Conflict is transient epistemic state",
    "Governance authority is explicit",
    "Derived indexes are never canonical",
    "Private does not mean secret store",
    "Simplicity must be falsifiable, not assumed sufficient",
    "Retrieval reliability includes invocation as well as ranking",
    "Validation proves a candidate; it is not an apprenticeship loop",
    "Continuity is testable"]

  function MakeArticles(): seq<Str> { seq(|ARTICLES|, i requires 0 <= i < |ARTICLES| => Ascii(ARTICLES[i])) }

  const DEFAULT_HANDOFF: seq<HandoffPolicy> := [
    HandoffPolicy(DecisionAcceptance, Handoff.Review, false),
    HandoffPolicy(MemoryWrite, NoHandoff, false),
    HandoffPolicy(ObligationWrite, NoHandoff, false),
    HandoffPolicy(StateUpdate, NoHandoff, false),
    HandoffPolicy(ConflictWrite, NoHandoff, false),
    HandoffPolicy(EvidenceWrite, NoHandoff, false)]

  const DEFAULT_RECOVERY: seq<RecoveryRule> := [
    RecoveryRule(StaleBase, RereadRethink),
    RecoveryRule(HandoffMissing, HaltEscalate),
    RecoveryRule(HandoffInvalid, HaltEscalate),
    RecoveryRule(UnattendedMutation, DeferToSupervised),
    RecoveryRule(InvariantFailed, DesignReview),
    RecoveryRule(UnverifiedActor, HaltEscalate),
    RecoveryRule(GrantRefused, FailClosed),
    RecoveryRule(GovernanceDenied, FailClosed),
    RecoveryRule(StoreDiverged, FailClosed),
    RecoveryRule(OutcomeUnresolved, Block),
    RecoveryRule(KeyConflict, FailClosed),
    RecoveryRule(ConflictUnresolved, FailClosed)]

  function Rule(action: ActionKind, requirement: RequirementKind, boundary: RequirementBoundary,
      subject: string): InvocationRule {
    InvocationRule(action, None, requirement, boundary, Ascii(subject), true)
  }

  function DefaultRules(): seq<InvocationRule> {
    [Rule(CreateCppSymbol, MandatoryRecall, BeforeJudgment, "naming policy"),
     Rule(IntroducePrimitive, SearchLowerLayer, BeforeJudgment, "eligible lower layers"),
     Rule(InvokeTool, InspectToolContract, BeforeExecution, "declared tool argv contract"),
     Rule(RetryFailure, InspectKnownPit, BeforeJudgment, "failure fingerprint"),
     Rule(MakeCanonicalClaim, VerifyCanonical, BeforeJudgment, "canonical record"),
     Rule(MakeLiveClaim, VerifyLive, BeforeJudgment, "live source"),
     Rule(ModifyReferencedContract, MandatoryRecall, BeforeJudgment, "reference integrity sweep (P-52)"),
     Rule(ActionKind.Commit, RunMechanicalCheck, BeforeExecution, "attribution subject-position lint (P-51)"),
     Rule(Publish, RunMechanicalCheck, BeforeExecution, "full default gate PASS receipt at exact head (P-53)"),
     Rule(Publish, RequestReview, BeforeExecution, "H2 exact-delta review"),
     Rule(AcceptCandidate, RequestReview, BeforeExecution, "content-bound H2 evidence")]
  }

  function MakeGenesis(): Snapshot {
    EMPTY_SNAPSHOT.(
      rootPrincipal := Ascii("github:JasonHuang3D"),
      articles := MakeArticles(),
      policy := PolicyTable(DEFAULT_HANDOFF, DEFAULT_RECOVERY),
      invocation := InvocationPolicy(true, DefaultRules()),
      state := EMPTY_SNAPSHOT.state.(objective := Ascii("qiven-context continuity and kernel design"),
          candidateRef := Ascii("not-created")))
  }

  /** What the results about histories assume of a founding snapshot: a root principal, review required for
      decisions, and no records yet. */
  predicate Founding(s: Snapshot) {
    && s.rootPrincipal != []
    && Find(s.policy.handoff, (row: HandoffPolicy) => row.opClass == DecisionAcceptance).Some? && DecisionsReviewed(s)
    && s.decisions == [] && s.memory == [] && s.obligations == [] && s.evidence == []
    && s.conflicts == [] && s.profiles == [] && s.views == [] && s.state.nextBoundaryRef == []
  }

  lemma FoundingIsSound(s: Snapshot)
    requires Founding(s)
    ensures Sound(s) && Canon(s) == s
  {
  }

  /** The snapshot the program founds a store with qualifies, and the reader accepts its image. */
  lemma GenesisIsFounding()
    ensures Founding(MakeGenesis())
  {
    hide Ascii, DefaultRules, MakeArticles;
    assert DEFAULT_HANDOFF[0].opClass == DecisionAcceptance;
  }

  lemma RulesAreBounded(cap: nat)
    requires cap >= 100
    ensures InvocationBounded(cap, InvocationPolicy(true, DefaultRules()))
  {
    var rules := DefaultRules();
    assert forall i :: 0 <= i < |rules| ==> |rules[i].subject| <= 100;
  }

  lemma ArticlesAreBounded(cap: nat)
    requires cap >= 100
    ensures Strings(cap, MakeArticles())
  {
    assert forall i :: 0 <= i < |ARTICLES| ==> |ARTICLES[i]| <= 100;
  }

  lemma GenesisIsBounded(cap: nat)
    requires cap >= 100
    ensures Bounded(cap, MakeGenesis())
  {
    hide Ascii, DefaultRules, MakeArticles, InvocationBounded, Strings;
    RulesAreBounded(cap);
    ArticlesAreBounded(cap);
  }

  /** The program's own reader accepts the image of the founding snapshot, so a store can always be founded. */
  lemma GenesisFits(f: Layout)
    requires PlainLimits(f)
    ensures WithinLimits(f, MakeGenesis())
  {
    hide MakeGenesis, Bounded, WithinLimits, Sized;
    GenesisIsBounded(MAX_RECORDS);
    assert LimitsAt(f, MakeGenesis());
  }
}
