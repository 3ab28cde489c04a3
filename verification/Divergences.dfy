/** Where the code parts from its promises: for each promise a run of the program that breaks it. */
module Divergences {
  import opened Prelude
  import opened Wire
  import opened Cognition
  import opened Text
  import opened SnapshotCodecLaws
  import opened Limits
  import opened Transactions
  import opened Gates
  import opened Ledger
  import opened Supersession
  import opened Reachability
  import opened Identifiers
  import opened Genesis
  import opened Reachable
  import opened Service
  import opened ServiceLaws
  import opened Progress
  import opened Realization
  import opened History
  import opened Attainment
  import opened GateOrder
  import opened Fencing
  import Bundle

  // ---- operations, one at a time ----

  lemma OneStep(s: Snapshot, a: Operation)
    ensures ApplyAll(s, TEXT, [a]) == ApplyOp(s, TEXT, a)
  {
    hide ApplyOp;
    assert [a][..0] == [];
    assert ApplyAll(s, TEXT, []) == s;
  }

  lemma NextStep(s: Snapshot, ops: seq<Operation>, a: Operation)
    ensures ApplyAll(s, TEXT, ops + [a]) == ApplyOp(ApplyAll(s, TEXT, ops), TEXT, a)
  {
    hide ApplyOp;
    assert (ops + [a])[..|ops|] == ops;
  }

  lemma FoundingBounded(w: World)
    requires InProgram(w)
    ensures Bounded(MAX_U32, w.genesis) && Founding(w.genesis)
  {
    hide MakeGenesis, Bounded, Founding, CollisionFree, PlainLimits;
    GenesisIsBounded(MAX_U32);
    GenesisIsFounding();
  }

  lemma NothingYet(s: Snapshot)
    requires Founding(s)
    ensures s.decisions == [] && s.conflicts == [] && s.obligations == [] && s.memory == [] && Canon(s).profiles == []
    ensures s.state.nextBoundaryRef == []
  {
  }

  // ---- supersession: cycles, and a supersession on which the program never answers ----

  function Append(id: i64): Operation { Operation(AppendDecision, id, 0, 0, [], TEXT, TEXT, []) }
  function Supersede(id: i64, successor: i64): Operation {
    Operation(SupersedeDecision, id, successor, 0, [], [], TEXT, [])
  }

  const FOUR: seq<Operation> := [Append(1), Append(2), Append(3), Append(4)]
  const TANGLE: seq<Operation> := [Supersede(1, 2), Supersede(2, 1), Supersede(1, 3)]

  function Plain(id: i64): Decision { Decision(id, Lifecycle.Accepted, TEXT, TEXT, [], [], UserSource(TEXT)) }

  const PLAIN: seq<Decision> := [Plain(1), Plain(2), Plain(3), Plain(4)]

  /** 1 and 2 supersede each other, 3 supersedes 1 too, 4 stands alone. */
  const TANGLED: seq<Decision> := [
    Plain(1).(status := Lifecycle.Superseded, supersedes := [2], supersededBy := [2, 3]),
    Plain(2).(status := Lifecycle.Superseded, supersedes := [1], supersededBy := [1]),
    Plain(3).(supersedes := [1]),
    Plain(4)]

  lemma AppendOne(s: Snapshot, id: i64)
    ensures ApplyOp(s, TEXT, Append(id)) == s.(decisions := s.decisions + [Plain(id)])
    ensures id > 0 && s.decisions == [] ==> Admissible(s, Append(id))
  {
  }

  lemma Appended(s: Snapshot)
    requires s.decisions == []
    ensures ApplyAll(s, TEXT, FOUR) == s.(decisions := PLAIN)
    ensures AllAdmissible(s, FOUR)
  {
    hide ApplyOp, Admissible, Append, Plain;
    var ops := [Append(1)];
    AppendOne(s, 1);
    AppendOne(s, 2);
    AppendOne(s, 3);
    AppendOne(s, 4);
    OneStep(s, Append(1));
    NextStep(s, ops, Append(2));
    AppendOne(ApplyAll(s, TEXT, ops), 2);
    ops := ops + [Append(2)];
    NextStep(s, ops, Append(3));
    AppendOne(ApplyAll(s, TEXT, ops), 3);
    ops := ops + [Append(3)];
    NextStep(s, ops, Append(4));
    AppendOne(ApplyAll(s, TEXT, ops), 4);
    assert ops + [Append(4)] == FOUR;
    assert [] + [Plain(1)] + [Plain(2)] + [Plain(3)] + [Plain(4)] == PLAIN;
  }

  lemma SupersedingThrice(ds: seq<Decision>, a: Operation, b: Operation, c: Operation)
    ensures var f := (d: Decision) => Superseding(d, a);
      var g := (d: Decision) => Superseding(d, b);
      var h := (d: Decision) => Superseding(d, c);
      Mapped(Mapped(Mapped(ds, f), g), h) ==
        seq(|ds|, i requires 0 <= i < |ds| => Superseding(Superseding(Superseding(ds[i], a), b), c))
  {
    hide Superseding;
  }

  lemma TangledDecisions()
    ensures forall i :: 0 <= i < 4 ==>
      Superseding(Superseding(Superseding(PLAIN[i], TANGLE[0]), TANGLE[1]), TANGLE[2]) == TANGLED[i]
  {
    hide UserSource;
    var none: seq<i64> := [];
    assert none + [1] == [1] && none + [2] == [2] && [2] + [3] == [2, 3];
  }

  lemma Tangled(s: Snapshot)
    requires s.decisions == PLAIN
    ensures ApplyAll(s, TEXT, TANGLE) == s.(decisions := TANGLED)
  {
    hide Mapped, Superseding, Plain;
    OneStep(s, TANGLE[0]);
    NextStep(s, [TANGLE[0]], TANGLE[1]);
    NextStep(s, [TANGLE[0], TANGLE[1]], TANGLE[2]);
    assert [TANGLE[0]] + [TANGLE[1]] + [TANGLE[2]] == TANGLE;
    SupersedingThrice(PLAIN, TANGLE[0], TANGLE[1], TANGLE[2]);
    TangledDecisions();
  }

  lemma PlainSearches(ds: seq<Decision>, i: nat, t: i64)
    requires ds == PLAIN && i < 4 && ds[i].id != t
    ensures Reaches(ds, ds[i], t, 4) == Some(false)
  {
    assert ds[i].supersedes == [];
  }

  lemma TangleAdmissible(s: Snapshot)
    requires s.decisions == PLAIN
    ensures AllAdmissible(s, TANGLE)
  {
    hide Reaches;
    var ds := s.decisions;
    assert FindDecision(ds, 1) == Some(0);
    assert FindDecision(ds, 2) == Some(1);
    assert FindDecision(ds, 3) == Some(2);
    PlainSearches(ds, 1, 1);
    PlainSearches(ds, 0, 2);
    PlainSearches(ds, 2, 1);
  }

  lemma DecisionsBounded(s: Snapshot, ds: seq<Decision>)
    requires Bounded(MAX_U32, s) && ListOf(MAX_U32, ds, (d: Decision) => DecisionBounded(MAX_U32, d))
    ensures Bounded(MAX_U32, s.(decisions := ds))
  {
    hide ListOf, InvocationBounded, Strings, StateBounded, DecisionBounded;
  }

  lemma TangleIsAttained(w: World)
    requires InProgram(w)
    ensures Attained(w, w.genesis.(decisions := TANGLED))
  {
    hide InProgram, Attained, Founding, Bounded, AllAdmissible, Plain, ApplyAll;
    FoundingBounded(w);
    GenesisAttained(w);
    var s, u := w.genesis.(decisions := PLAIN), w.genesis.(decisions := TANGLED);
    NothingYet(w.genesis);
    Appended(w.genesis);
    Tangled(s);
    TangleAdmissible(s);
    TangleBounded();
    DecisionsBounded(w.genesis, PLAIN);
    DecisionsBounded(w.genesis, TANGLED);
    assert Canon(s).decisions == PLAIN && Canon(u).decisions == TANGLED && Canon(w.genesis).decisions == [];
    Advance(w, w.genesis, FOUR);
    Advance(w, s, TANGLE);
  }

  lemma TangleBounded()
    ensures PLAIN != TANGLED
    ensures ListOf(MAX_U32, PLAIN, (d: Decision) => DecisionBounded(MAX_U32, d))
    ensures ListOf(MAX_U32, TANGLED, (d: Decision) => DecisionBounded(MAX_U32, d))
  {
    assert PLAIN[0] != TANGLED[0];
  }

  lemma AttainedLinks(w: World, s: Snapshot)
    requires InProgram(w) && Attained(w, s)
    ensures LinksSound(s.decisions)
  {
    hide InProgram, Sane, AllFit, Run, RunLog, LinksSound, Replay, Sound;
    ProgramIsSane(w);
    var es :| AttainedBy(w, es, s);
    HeadIsTheFold(w, es);
  }

  lemma TangledLoop()
    ensures Closed(Edges(TANGLED), [1, 2, 1]) && Connected(TANGLED, 3, 1)
    ensures !Acyclic(Edges(TANGLED)) && !LoopFree(TANGLED, 3)
  {
    var ds := TANGLED;
    var loop: seq<i64>, lead: seq<i64> := [1, 2, 1], [3, 1];
    assert ds[0] in ds && ds[1] in ds && ds[2] in ds;
    assert (1, 2) in Edges(ds) && (2, 1) in Edges(ds) && (3, 1) in Edges(ds);
    assert Walk(Edges(ds), loop) && Walk(Edges(ds), lead);
    assert Closed(Edges(ds), loop);
  }

  lemma FourByThree()
    ensures BothAccepted(TANGLED, FOUR_BY_THREE)
  {
    var ds := TANGLED;
    assert ds[0].id == 1 && ds[1].id == 2 && ds[2].id == 3 && ds[3].id == 4;
    assert FindDecision(ds, 4) == Some(3);
    assert FindDecision(ds, 3) == Some(2);
  }

  /** On any base, the reviewed operation passes the policy, the conflicts and every status check, and the search in
      between never ends. */
  ghost predicate NeverAnswered(w: World, s: Snapshot, op: Operation) {
    && (forall base :: PolicyGate(w, s, ReviewedCommit(w, base, [op], []).txn, Writer(s.rootPrincipal, AUTHOR), op).None?)
    && ConflictGate(s, op).None? && BothAccepted(s.decisions, op) && op.payload != []
    && !Ends(s.decisions, s.decisions[FindDecision(s.decisions, op.successorRecordId).value], op.recordId)
  }

  const FOUR_BY_THREE := Supersede(4, 3)

  /** Supersession is promised to be acyclic, guarded by a search. Two reviewed transactions leave decisions 1 and 2
      superseding each other below decision 3; on the supersession of 4 by 3 the search never ends. */
  lemma SupersessionNeverAnswers(w: World, s: Snapshot)
    requires InProgram(w) && s == w.genesis.(decisions := TANGLED)
    ensures Attained(w, s) && !Acyclic(Edges(s.decisions)) && NeverAnswered(w, s, FOUR_BY_THREE)
  {
    hide InProgram, Attained, Founding, Plain, Edges, Acyclic, LoopFree, LinksSound, Connected, PolicyGate,
        SameGovernance,
      BothAccepted, MaySupersede, Ends;
    TangleIsAttained(w);
    AttainedLinks(w, s);
    AttainedGovernance(w, s);
    TangledLoop();
    FourByThree();
    PermittedEndsExactlyOffLoops(TANGLED, FOUR_BY_THREE);
    FoundingBounded(w);
    NothingYet(w.genesis);
    forall base ensures PolicyGate(w, s, ReviewedCommit(w, base, [FOUR_BY_THREE], []).txn,
      Writer(s.rootPrincipal, AUTHOR), FOUR_BY_THREE).None?
    {
      ReviewPasses(w, s, base, [FOUR_BY_THREE], [], FOUR_BY_THREE);
    }
  }

  // ---- identifiers: reused within a transaction, and views also later ----

  const NEW_CONFLICT := Operation(OpenConflict, 0, 0, 0, [], TEXT, TEXT, [])
  const NEW_PROFILE := Operation(UpsertProfile, 0, 0, 0, TEXT, TEXT, TEXT, [])

  function NewRecord(f: Family): Operation {
    match f case Decisions => Append(1) case Conflicts => NEW_CONFLICT case Profiles => NEW_PROFILE
  }

  const OPENED := Conflict(TEXT, ConflictStatus.Open, [], TEXT, [])
  const PROFILED := ProfileRecord(TEXT, TEXT, TEXT, EnvironmentErgonomics)

  function Twofold(s: Snapshot, f: Family): Snapshot {
    match f
    case Decisions => s.(decisions := [Plain(1), Plain(1)])
    case Conflicts => s.(conflicts := [OPENED, OPENED])
    case Profiles => s.(profiles := [PROFILED, PROFILED])
  }

  lemma TwofoldSteps(s: Snapshot, f: Family)
    requires Founding(s)
    ensures ApplyOp(ApplyOp(s, TEXT, NewRecord(f)), TEXT, NewRecord(f)) == Twofold(s, f)
  {
    hide WithoutView, ViewOf, CloseFirst, UserSource;
  }

  lemma NewRecordAdmissible(s: Snapshot, f: Family)
    requires Founding(s)
    ensures Admissible(s, NewRecord(f))
  {
    hide MaySupersede, MayTransition, MayAmendView;
  }

  lemma TwofoldApplied(s: Snapshot, f: Family)
    requires Founding(s)
    ensures ApplyAll(s, TEXT, [NewRecord(f), NewRecord(f)]) == Twofold(s, f)
    ensures AllAdmissible(s, [NewRecord(f), NewRecord(f)])
  {
    hide ApplyOp, Admissible, NewRecord, Founding, Twofold;
    OneStep(s, NewRecord(f));
    NextStep(s, [NewRecord(f)], NewRecord(f));
    assert [NewRecord(f)] + [NewRecord(f)] == [NewRecord(f), NewRecord(f)];
    TwofoldSteps(s, f);
    NewRecordAdmissible(s, f);
  }

  lemma TwofoldBounded(s: Snapshot, f: Family)
    requires Bounded(MAX_U32, s) && Founding(s)
    ensures Bounded(MAX_U32, Twofold(s, f)) && Canon(Twofold(s, f)) != Canon(s)
    ensures !Distinct(Keys(Twofold(s, f), f))
  {
    hide InvocationBounded, Strings, StateBounded;
    var keys := Keys(Twofold(s, f), f);
    assert |keys| == 2 && keys[0] == keys[1];
  }

  /** Ids are promised never to be reused; one transaction may introduce one twice. */
  lemma IdsAreReused(w: World, f: Family)
    requires InProgram(w)
    ensures Attained(w, Twofold(w.genesis, f)) && !Distinct(Keys(Twofold(w.genesis, f), f))
  {
    hide InProgram, Attained, Founding, Bounded, AllAdmissible, Twofold, ApplyAll, Keys, Canon, NewRecord;
    FoundingBounded(w);
    NothingYet(w.genesis);
    TwofoldApplied(w.genesis, f);
    TwofoldBounded(w.genesis, f);
    TwofoldUnset(w.genesis, f);
    GenesisAttained(w);
    Advance(w, w.genesis, [NewRecord(f), NewRecord(f)]);
  }

  lemma TwofoldUnset(s: Snapshot, f: Family)
    requires s.state.nextBoundaryRef == []
    ensures Twofold(s, f).state.nextBoundaryRef == []
  {
  }

  const PARTIES: Str := [97, 58, 98]
  function Amend(code: byte): Operation { Operation(AmendViewSpec, 0, 0, code, PARTIES, TEXT, TEXT, TEXT) }

  function AmendedView(): ViewSpec { ViewOf(Amend(0)) }

  /** One profile and some views of it. */
  function WithViews(s: Snapshot, views: seq<ViewSpec>): Snapshot { s.(profiles := [PROFILED], views := views) }

  lemma AmendedViewIs()
    ensures AmendedView().id == TEXT && AmendedView().profileRefs == [TEXT] && AmendedView().summary == TEXT
    ensures |AmendedView().agent| <= 3 && |AmendedView().human| <= 3
    ensures Find(PARTIES, IsColon).Some? && ViewOf(Amend(2)) == AmendedView() && SplitRefs(TEXT) == [TEXT]
  {
    assert TEXT[1..] == [] && IsColon(PARTIES[1]);
    var none: Str := [];
    assert none + [65] == TEXT && WordsFrom([], IsComma, TEXT) == Flush(TEXT) && Flush(TEXT) + [] == [TEXT];
    assert WordsFrom(TEXT, IsComma, []) == WordsFrom([], IsComma, TEXT);
  }

  lemma ViewAdmissible(s: Snapshot, code: byte)
    requires s.profiles == [PROFILED] && (code == 2 || (code == 0 && s.views == []))
    ensures Admissible(s, Amend(code)) && ApplyOp(s, TEXT, Amend(code)) == s.(views := s.views + [AmendedView()])
  {
    AmendedViewIs();
    assert FindProfile(s.profiles, TEXT).Some? by { assert s.profiles[0].id == TEXT; }
  }

  lemma ProfileAdmissible(s: Snapshot)
    requires Founding(s)
    ensures Admissible(s, NEW_PROFILE) && ApplyOp(s, TEXT, NEW_PROFILE) == WithViews(s, [])
  {
    assert [] + [PROFILED] == [PROFILED];
  }

  lemma ViewsBounded(s: Snapshot, views: seq<ViewSpec>)
    requires Bounded(MAX_U32, s) && |views| <= 2 && forall i :: 0 <= i < |views| ==> views[i] == AmendedView()
    ensures Bounded(MAX_U32, WithViews(s, views))
    ensures Canon(WithViews(s, views)).profiles == [PROFILED] && Canon(WithViews(s, views)).views == views
  {
    hide AmendedView, InvocationBounded, StateBounded;
    AmendedViewIs();
  }

  /** View ids are promised never to be reused; an amendment with a code above 1 adds a view whose id is taken. */
  lemma ViewIdsAreReused(w: World, s: Snapshot)
    requires InProgram(w) && s == WithViews(w.genesis, [AmendedView(), AmendedView()])
    ensures Attained(w, s) && !Distinct(ViewIds(s.views))
  {
    hide InProgram, Attained, Founding, ApplyOp, Admissible, Bounded, AmendedView, Canon;
    FoundingBounded(w);
    NothingYet(w.genesis);
    GenesisAttained(w);
    var v := AmendedView();
    var s1, s2 := WithViews(w.genesis, []), WithViews(w.genesis, [v]);
    assert [] + [v] == [v] && [v] + [v] == [v, v];
    ViewsBounded(w.genesis, []);
    ViewsBounded(w.genesis, [v]);
    ViewsBounded(w.genesis, [v, v]);
    ProfileAdmissible(w.genesis);
    AdvanceByOne(w, w.genesis, NEW_PROFILE);
    ViewAdmissible(s1, 0);
    AdvanceByOne(w, s1, Amend(0));
    ViewAdmissible(s2, 2);
    AdvanceByOne(w, s2, Amend(2));
    assert ViewIds(s.views)[0] == ViewIds(s.views)[1];
  }

  lemma AdvanceByOne(w: World, s: Snapshot, op: Operation)
    requires InProgram(w) && Attained(w, s) && s.conflicts == [] && Admissible(s, op)
    requires ApplyOp(s, TEXT, op).state.nextBoundaryRef == [] && Bounded(MAX_U32, ApplyOp(s, TEXT, op))
    requires Canon(ApplyOp(s, TEXT, op)) != Canon(s)
    ensures Attained(w, ApplyOp(s, TEXT, op))
  {
    hide InProgram, Attained, ApplyOp, Admissible, Bounded, Canon;
    OneStep(s, op);
    Advance(w, s, [op]);
  }

  // ---- references: repeated in an artifact ----

  /** A view that names its profile twice. */
  const REPEATED := EMPTY_SNAPSHOT.(profiles := [PROFILED], views := [ViewSpec(TEXT, TEXT, TEXT, TEXT, [TEXT, TEXT])])

  lemma RepeatedFits()
    ensures Bounded(MAX_RECORDS, REPEATED) && Canon(REPEATED) == REPEATED
    ensures Bundle.Resolve(REPEATED, TEXT) == Bundle.Resolution.Resolved(REPEATED.views[0])
    ensures !Distinct(REPEATED.views[0].profileRefs)
  {
    var refs := REPEATED.views[0].profileRefs;
    assert refs[0] == refs[1];
    assert REPEATED.profiles[0].id == TEXT;
    assert Find(REPEATED.views, (v: ViewSpec) => v.id == TEXT) == Some(0);
    assert FindProfile(REPEATED.profiles, TEXT).Some?;
  }

  /** The image of a canonical snapshot within the limits opens as an artifact. */
  lemma OpensAsArtifact(w: World, s: Snapshot)
    requires InProgram(w) && Bounded(MAX_RECORDS, s) && Canon(s) == s
    ensures var (v, reply) := Step(w, START, OpenArtifact(Serialize(w.layout, s), []));
      reply == Opened(1, None) && |v.live| == 1 && v.live[0].state == s
  {
    hide InProgram, WithinLimits, Bounded, SnapshotDigest, ContentId, Canon, Deserialize;
    ProgramLimits(w, s);
    RoundTripExactlyWithinLimits(w.layout, s);
    NoImageIsEmpty(w.layout, s);
    hide Serialize;
  }

  /** Resolution is said to fail on repeated references; the image of this snapshot opens as an artifact, and its view
      resolves. */
  lemma RepeatedReferencesResolve(w: World)
    requires InProgram(w)
    ensures var (v, reply) := Step(w, START, OpenArtifact(Serialize(w.layout, REPEATED), []));
      && reply == Opened(1, None) && |v.live| == 1 && v.live[0].state == REPEATED
    ensures Bundle.Resolve(REPEATED, TEXT).Resolved? && !Distinct(Bundle.Resolve(REPEATED, TEXT).view.profileRefs)
  {
    hide InProgram, Bounded, Bundle.Resolve, Canon, Step;
    RepeatedFits();
    OpensAsArtifact(w, REPEATED);
  }

  // ---- the bundle of an artifact that names no number as its boundary ----

  const UNREADABLE := EMPTY_SNAPSHOT.(state := EMPTY_SNAPSHOT.state.(nextBoundaryRef := TEXT))

  /** An artifact opens on which the bundle throws, whatever the budget. */
  lemma UnreadableBoundaryThrows(w: World, revision: RevisionId, tokenBudget: nat)
    requires InProgram(w)
    ensures var (v, reply) := Step(w, START, OpenArtifact(Serialize(w.layout, UNREADABLE), []));
      && reply == Opened(1, None) && |v.live| == 1 && v.live[0].state == UNREADABLE
    ensures Bundle.Build(UNREADABLE, revision, tokenBudget).None?
  {
    hide InProgram, Bounded, Bundle.Build, Step, Canon;
    UnreadableFits();
    OpensAsArtifact(w, UNREADABLE);
    Bundle.ThrowsExactlyOnUnreadable(UNREADABLE, revision, tokenBudget);
  }

  lemma UnreadableFits()
    ensures Bounded(MAX_RECORDS, UNREADABLE) && Canon(UNREADABLE) == UNREADABLE
    ensures UNREADABLE.state.nextBoundaryRef == TEXT && Stoll(TEXT).None?
  {
  }

  // ---- obligations: closing one that is closed already ----

  const NEW_WORK := Operation(UpsertObligation, 1, 0, 0, [], [], TEXT, [])
  const CLOSE_WORK := Operation(CloseObligation, 1, 0, 0, [], [], [], [])

  function Work(status: ObligationStatus): Obligation { Obligation(status, Manual, [], 1, TEXT, []) }

  /** Closed, then inserted again under the same id. */
  const REOPENED: seq<Obligation> := [Work(Done), Work(ObligationStatus.Open)]

  predicate AllWork(os: seq<Obligation>) { |os| <= 2 && forall i :: 0 <= i < |os| ==> os[i] == Work(os[i].status) }

  lemma WorkBounded(s: Snapshot, os: seq<Obligation>)
    requires Bounded(MAX_U32, s) && AllWork(os)
    ensures Bounded(MAX_U32, s.(obligations := os)) && Mapped(os, CanonObligation) == os
  {
    hide InvocationBounded, Strings, StateBounded;
  }

  lemma WorkNext(w: World, s: Snapshot, op: Operation, next: seq<Obligation>)
    requires InProgram(w) && Attained(w, s) && s == w.genesis.(obligations := s.obligations)
    requires op == NEW_WORK || op == CLOSE_WORK
    requires ApplyOp(s, TEXT, op) == s.(obligations := next) && Admissible(s, op)
    requires AllWork(s.obligations) && AllWork(next) && next != s.obligations
    ensures Attained(w, s.(obligations := next))
  {
    hide InProgram, Attained, Founding, Bounded, Work, ApplyOp, Admissible, AllWork, Mapped;
    FoundingBounded(w);
    NothingYet(w.genesis);
    WorkBounded(w.genesis, s.obligations);
    WorkBounded(w.genesis, next);
    assert Canon(s).obligations == s.obligations && Canon(s.(obligations := next)).obligations == next;
    AdvanceByOne(w, s, op);
  }

  lemma ClosesTheFirst(s: Snapshot)
    requires s.obligations == [Work(ObligationStatus.Open)] || s.obligations == REOPENED
    ensures Admissible(s, CLOSE_WORK)
    ensures ApplyOp(s, TEXT,
      CLOSE_WORK) == s.(obligations := if s.obligations == REOPENED then REOPENED else [Work(Done)])
  {
    var os := s.obligations;
    assert os[0].id == 1 && os[|os| - 1].id == 1 && os[|os| - 1].status == ObligationStatus.Open;
    assert FindObligation(os, 1) == Some(0);
    assert CloseFirst(os, 1) == if os == REOPENED then REOPENED else [Work(Done)];
  }

  lemma AddsWork(s: Snapshot)
    ensures Admissible(s, NEW_WORK)
    ensures ApplyOp(s, TEXT, NEW_WORK) == s.(obligations := s.obligations + [Work(ObligationStatus.Open)])
  {
  }

  lemma ReopenedIsAttained(w: World, s: Snapshot)
    requires InProgram(w) && s == w.genesis.(obligations := REOPENED)
    ensures Attained(w, s)
  {
    hide InProgram, Attained, Founding, ApplyOp, Admissible;
    FoundingBounded(w);
    NothingYet(w.genesis);
    GenesisAttained(w);
    var open, done := [Work(ObligationStatus.Open)], [Work(Done)];
    assert [] + open == open && done + open == REOPENED;
    assert open[0] != done[0];
    var s1, s2 := w.genesis.(obligations := open), w.genesis.(obligations := done);
    AddsWork(w.genesis);
    WorkNext(w, w.genesis, NEW_WORK, open);
    ClosesTheFirst(s1);
    WorkNext(w, s1, CLOSE_WORK, done);
    AddsWork(s2);
    WorkNext(w, s2, NEW_WORK, REOPENED);
  }

  /** With the lease taken, the write of `t` from the one entry of the run is acknowledged as applied, and changes
      nothing: the store stays as it is, and with it the open obligation. */
  ghost predicate ClosedInVain(w: World, es: seq<Event>, t: ContextTransaction) {
    var v, grant := Leased(w, Run(w, es), WriterOf(w, AUTHOR)), LeaseOf(Run(w, es), WriterOf(w, AUTHOR));
    && |v.live| == 1 && t.operations == [CLOSE_WORK]
    && Step(w, v, WriteOf(v, t, 0, grant)).1.Written? && Step(w, v, WriteOf(v, t, 0, grant)).1.verdict.outcome.Applied?
    && Step(w, v, WriteOf(v, t, 0, grant)).0.store == v.store
  }

  /** Closing is promised to close open work. After an obligation was inserted, closed and inserted again under its id,
      closing that id is admitted and acknowledged as applied, and the open record stays open. */
  lemma OpenWorkStaysOpen(w: World, s: Snapshot) returns (es: seq<Event>, t: ContextTransaction)
    requires InProgram(w) && s == w.genesis.(obligations := REOPENED)
    ensures AttainedBy(w, es, s) && Work(ObligationStatus.Open) in s.obligations
    ensures Admitted(w, s, Commit.Commit(t, AUTHOR)) && Successor(s, t) == s && ClosedInVain(w, es, t)
  {
    hide InProgram, Founding, AttainedBy, Attained, Admitted, Admissible, ApplyOp, SameGovernance, Run, ClosedInVain,
        Realizes,
      RunLog;
    ReopenedIsAttained(w, s);
    es := AttainedAtRest(w, s);
    t := ReviewedCommit(w, Run(w, es).store.head, [CLOSE_WORK], []).txn;
    ClosesTheFirst(s);
    OneStep(s, CLOSE_WORK);
    FoundingBounded(w);
    NothingYet(w.genesis);
    AttainedBySome(w, es, s);
    AttainedGovernance(w, s);
    ReviewedIsAdmitted(w, s, Run(w, es).store.head, [CLOSE_WORK], []);
    AppliedInVain(w, es, s, t);
  }

  lemma AttainedBySome(w: World, es: seq<Event>, s: Snapshot)
    requires AttainedBy(w, es, s)
    ensures Attained(w, s)
  {
    hide AttainedBy;
  }

  lemma AppliedInVain(w: World, es: seq<Event>, s: Snapshot, t: ContextTransaction)
    requires InProgram(w) && Realizes(w, es, RunLog(w, es)) && AttainedBy(w, es, s)
    requires Admitted(w, s, Commit.Commit(t, AUTHOR)) && Successor(s, t) == s && t.operations == [CLOSE_WORK]
    requires t.base == Run(w, es).store.head && t.idempotencyKey == []
    ensures ClosedInVain(w, es, t)
  {
    hide InProgram, Sane, AllFit, AllHeld, Run, RunLog, Replay, Admitted, Successor, Inv, KeyUsed, Leased, Step, AtHead;
    ProgramIsSane(w);
    RealizedIsAtRest(w, es, RunLog(w, es));
    NoEffectAt(w, Run(w, es), RunLog(w, es), t);
  }

  lemma NoEffectAt(w: World, v: Service, log: seq<Commit>, t: ContextTransaction)
    requires Sane(w) && Inv(w, v, log) && v.store.revisions != [] && v.activeGrant == []
    requires |v.live| == 1 && PromotedAtHead(v, 0) && t.base == v.store.head && t.idempotencyKey == []
    requires Admitted(w, Replay(w.genesis, log), Commit.Commit(t, AUTHOR))
    requires Successor(Replay(w.genesis, log), t) == Replay(w.genesis, log)
    ensures var u, grant := Leased(w, v, WriterOf(w, AUTHOR)), LeaseOf(v, WriterOf(w, AUTHOR));
      && |u.live| == 1 && Step(w, u, WriteOf(u, t, 0, grant)).1.Written?
      && Step(w, u, WriteOf(u, t, 0, grant)).1.verdict.outcome.Applied?
      && Step(w, u, WriteOf(u, t, 0, grant)).0.store == u.store
  {
    hide Sane, Inv, Replay, Admitted, Successor, Verifies, Sized, Leased, Step, IsLedger, Serialize, Logged, Fits;
    WriterVerifies(w, AUTHOR);
    LeaseIsTaken(w, v, log, WriterOf(w, AUTHOR), 0);
    LedgerStep(w, log, Commit.Commit(t, AUTHOR));
    HistoryOfInv(w, v, log);
    assert SizedAt(w, log, |log|) && log[..|log|] == log;
    AdmittedIsApplied(w, Leased(w, v, WriterOf(w, AUTHOR)), log, t, 0, LeaseOf(v, WriterOf(w, AUTHOR)));
  }

  // ---- the order of the gates ----

  /** The first transaction of a history, under a key. */
  function FirstWork(w: World, key: Str): Commit { ReviewedCommit(w, HeadId(w, []), [NEW_WORK], key) }

  lemma FirstWorkExtends(w: World, key: Str)
    requires InProgram(w)
    ensures Extends(w, [], FirstWork(w, key)) && Sane(w) && Realizes(w, [OpenRemote(NO_REVISION)], [])
  {
    hide InProgram, Sane, Founding, Bounded, Proper, Admitted, Extends, HeadId, ApplyOp, Admissible, Realizes, Work,
        Canon;
    ProgramIsSane(w);
    FoundingRun(w);
    FoundingIsProper(w);
    FoundingBounded(w);
    NothingYet(w.genesis);
    AddsWork(w.genesis);
    OneStep(w.genesis, NEW_WORK);
    FirstWorkFits(w.genesis);
    SameAsItself(w.genesis);
    ReviewedIsAdmitted(w, w.genesis, HeadId(w, []), [NEW_WORK], key);
    ReviewedExtends(w, [], w.genesis, [NEW_WORK], key);
  }

  lemma FirstWorkFits(s: Snapshot)
    requires Bounded(MAX_U32, s) && s.obligations == []
    ensures var u := ApplyOp(s, TEXT, NEW_WORK);
      && Bounded(MAX_U32, u) && Canon(u) != Canon(s) && u.state == s.state
      && (s.state.nextBoundaryRef == [] ==> Coherent(u))
  {
    hide Bounded;
    var os := [Work(ObligationStatus.Open)];
    assert [] + os == os;
    WorkBounded(s, os);
    assert |Canon(ApplyOp(s, TEXT, NEW_WORK)).obligations| == 1;
  }

  lemma SameAsItself(s: Snapshot)
    ensures SameGovernance(s, s)
  {
  }

  /** The key is said to be resolved after the lease is checked. After a keyed write was applied and its lease released,
      the same request is answered as applied, with a live successor, although the listed order refuses it. */
  lemma KeyIsAnsweredWithoutLease(w: World) returns (es: seq<Event>, again: Event)
    requires InProgram(w)
    ensures AllFit(w, es) && AllHeld(w, es + [again]) && AnsweredAnyway(w, Run(w, es), again)
    ensures WriteRuling(w, Run(w, es), again.handle, again.txn, again.grant) !=
      ListedRuling(w, Run(w, es), again.handle, again.txn, again.grant, StaleBase)
  {
    hide InProgram, Sane, Extends, Realizes, AllFit, AllHeld, Held, Run, RunLog, ReviewedCommit, WriterOf, Step;
    FirstWorkExtends(w, TEXT);
    var c, start := FirstWork(w, TEXT), [OpenRemote(NO_REVISION)];
    var grant := LeaseOf(Run(w, start), WriterOf(w, AUTHOR));
    FirstWorkAuthor(w, TEXT);
    again := Write(1, c.txn, grant, Acknowledged);
    es := AnsweredWithoutLease(w, start, [], c, again);
    RealizedIsHeld(w, es, [] + [c]);
    HeldStep(w, es, again);
    AnsweredUnlisted(w, Run(w, es), again);
  }

  lemma FirstWorkAuthor(w: World, key: Str)
    ensures FirstWork(w, key).txn.idempotencyKey == key && FirstWork(w, key).author == AUTHOR
  {
    hide HeadId, DigestOperations;
  }

  lemma AnsweredUnlisted(w: World, v: Service, again: Event)
    requires AnsweredAnyway(w, v, again)
    ensures WriteRuling(w, v, again.handle, again.txn, again.grant) !=
      ListedRuling(w, v, again.handle, again.txn, again.grant, StaleBase)
  {
    hide EarlyRefusal, Judge, CanonicalHead, CommitStep, FindLive, KeyDigest;
  }

  // ---- a released grant that comes back ----

  /** Grant ids are said never to collide. When 2^64 leases were taken since its own, a released grant is the active one
      again, and a transaction written under it is committed for whoever holds the lease. */
  ghost predicate ComesBack(w: World, before: seq<Event>, es: seq<Event>, e: Event) {
    && before <= es && AllFit(w, es) && AllHeld(w, es + [e]) && e.Write? && Held(w, before, e.grant)
    && Run(w, before).activeGrant == [] && |Minted(w, es)| == |Minted(w, before)| + WORD
    && AppliedFor(w, Run(w, es), e)
  }

  lemma ReleasedGrantComesBack(w: World) returns (before: seq<Event>, es: seq<Event>, e: Event)
    requires InProgram(w)
    ensures ComesBack(w, before, es, e) && |Minted(w, es)| > WORD && Minted(w, es)[0] == Minted(w, es)[WORD]
  {
    hide InProgram, Sane, Extends, Realizes, AllFit, AllHeld, Held, Run, RunLog, ReviewedCommit, WriterOf, Minted,
        AppliedFor,
      GrantName, Latest;
    FirstWorkExtends(w, []);
    FirstWorkAuthor(w, []);
    var start := [OpenRemote(NO_REVISION)];
    before := ReletOnce(w, start, []);
    var around := Relet(w, before, [], WORD - 1);
    RealizedIsFree(w, before, []);
    RunIsBelow(w, start);
    Around(Run(w, start).generation);
    es, e := NamesakeWrites(w, around, [], FirstWork(w, []), LeaseOf(Run(w, start), WriterOf(w, TEXT)));
    GrantIdsRepeatOnlyOnWrap(w, es, 0, WORD);
  }

  lemma RunIsBelow(w: World, es: seq<Event>)
    ensures Run(w, es).generation < WORD
  {
    hide Run;
    RunsAreLatest(w, es);
  }

  lemma RealizedIsFree(w: World, es: seq<Event>, log: seq<Commit>)
    requires Realizes(w, es, log)
    ensures Run(w, es).activeGrant == []
  {
    hide AllFit, AllHeld, Run, RunLog;
  }

  // ---- a head over the limits of the reader ----

  const REMEMBER := Operation(AddMemory, 0, 0, 0, [], TEXT, TEXT, TEXT)
  function Remembered(): MemoryRecord {
    MemoryRecord(Fact, EpistemicType.Verified, Active, TEXT, TEXT, UserSource(TEXT))
  }

  function Copies<T>(x: T, n: nat): (xs: seq<T>)
    ensures |xs| == n && forall i :: 0 <= i < n ==> xs[i] == x
  {
    seq(n, i => x)
  }

  lemma {:induction false} RemembersAll(s: Snapshot, n: nat)
    requires s.memory == []
    ensures ApplyAll(s, TEXT, Copies(REMEMBER, n)) == s.(memory := Copies(Remembered(), n))
  {
    if n == 0 {
      assert s.memory == Copies(Remembered(), 0);
    } else {
      hide Remembered, UserSource, ApplyOp;
      assert Copies(REMEMBER, n) == Copies(REMEMBER, n - 1) + [REMEMBER];
      assert Copies(Remembered(), n) == Copies(Remembered(), n - 1) + [Remembered()];
      RemembersAll(s, n - 1);
      NextStep(s, Copies(REMEMBER, n - 1), REMEMBER);
      RemembersOne(s.(memory := Copies(Remembered(), n - 1)));
    }
  }

  lemma RemembersOne(s: Snapshot)
    ensures ApplyOp(s, TEXT, REMEMBER) == s.(memory := s.memory + [Remembered()])
  {
  }

  /** Memory records beyond the record cap of the reader. */
  function Overfull(s: Snapshot): Snapshot { s.(memory := Copies(Remembered(), MAX_RECORDS + 1)) }

  lemma OverfullBounds(s: Snapshot)
    requires Bounded(MAX_U32, s) && s.memory == []
    ensures Bounded(MAX_U32, Overfull(s)) && !Bounded(MAX_RECORDS, Overfull(s)) && Canon(Overfull(s)) != Canon(s)
  {
    hide InvocationBounded, Strings, StateBounded;
    assert |Canon(Overfull(s)).memory| == MAX_RECORDS + 1;
  }

  /** One transaction of 100001 operations leaves a head over the limits; once the entry it was written from is retired,
      the service is stranded. */
  lemma HeadIsStranded(w: World) returns (es: seq<Event>)
    requires InProgram(w)
    ensures AttainedBy(w, es, Overfull(w.genesis)) && Stranded(w, Run(w, es), RunLog(w, es))
  {
    hide InProgram, Attained, Founding, Bounded, Canon, Overfull, ApplyAll, AllAdmissible, Stranded, Realizes,
        AttainedBy;
    var s := Overfull(w.genesis);
    OverfullIsAttained(w);
    var before := AttainedAtRest(w, s);
    es := RetiredIsStranded(w, before, s);
  }

  lemma OverfullIsAttained(w: World)
    requires InProgram(w)
    ensures Attained(w, Overfull(w.genesis)) && !WithinLimits(w.layout, Overfull(w.genesis))
  {
    hide InProgram, Attained, Founding, Bounded, Canon, ApplyAll, Copies, Remembered, Sized, WithinLimits;
    var ops := Copies(REMEMBER, MAX_RECORDS + 1);
    FoundingBounded(w);
    NothingYet(w.genesis);
    RemembersAll(w.genesis, MAX_RECORDS + 1);
    OverfullBounds(w.genesis);
    GenesisAttained(w);
    Advance(w, w.genesis, ops);
    ProgramLimits(w, Overfull(w.genesis));
  }

  lemma ProgramLimits(w: World, s: Snapshot)
    requires InProgram(w)
    ensures WithinLimits(w.layout, s) <==> Bounded(MAX_RECORDS, s)
  {
    hide MakeGenesis, CollisionFree, WithinLimits, Bounded, Sized;
    assert LimitsAt(w.layout, s);
  }

  lemma RetiredIsStranded(w: World, es: seq<Event>, s: Snapshot) returns (longer: seq<Event>)
    requires InProgram(w) && Realizes(w, es, RunLog(w, es)) && AttainedBy(w, es, s) && !WithinLimits(w.layout, s)
    ensures AttainedBy(w, longer, s) && Stranded(w, Run(w, longer), RunLog(w, longer))
  {
    hide InProgram, Sane, AllFit, Run, RunLog, Replay, Inv, WithinLimits, AtHead, KeyUsed, Step;
    var v, e := Run(w, es), Retire(Run(w, es).live[0].address);
    ProgramIsSane(w);
    longer := es + [e];
    RunStep(w, es, e);
    NotAWrite(w, v, RunLog(w, es), e);
    RunsHold(w, longer);
    RetiresTheOnly(w, v);
  }

  lemma RetiresTheOnly(w: World, v: Service)
    requires |v.live| == 1
    ensures Step(w, v, Retire(v.live[0].address)).0 == v.(live := [])
  {
    assert v.live[..0] + v.live[1..] == [];
  }
}
