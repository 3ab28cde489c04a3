/** Snapshots the program really arrives at: one reviewed transaction after the other, each as a run of the service from
    the program's own founding snapshot. */
module Attainment {
  import opened Prelude
  import opened Wire
  import opened Cognition
  import opened SnapshotCodecLaws
  import opened Limits
  import opened Transactions
  import opened Gates
  import opened Ledger
  import opened Genesis
  import opened Service
  import opened Reachable
  import opened Realization

  /** Some run of the service has a history that replays to `s`. */
  ghost predicate Attained(w: World, s: Snapshot) { exists es :: AttainedBy(w, es, s) }

  ghost predicate AttainedBy(w: World, es: seq<Event>, s: Snapshot) {
    AllFit(w, es) && AllHeld(w, es) && Run(w, es).store.revisions != [] && Replay(w.genesis, RunLog(w, es)) == s
  }

  const TEXT: Str := [65]
  const AUTHOR: Str := [97]
  const REVIEWER: Str := [98]

  /** The operations, written on `base` with a proper review of exactly them. */
  function ReviewedCommit(w: World, base: RevisionId, ops: seq<Operation>, key: Str): Commit {
    Commit.Commit(ContextTransaction(base, ops, TEXT,
      Some(H2Evidence(DigestOperations(w, ops), w.genesis.rootPrincipal, REVIEWER, TEXT)), key), AUTHOR)
  }

  lemma DefaultHandoffCovers(c: OperationClass)
    ensures exists i :: 0 <= i < |DEFAULT_HANDOFF| && DEFAULT_HANDOFF[i].opClass == c
  {
    match c
    case DecisionAcceptance => assert DEFAULT_HANDOFF[0].opClass == c;
    case MemoryWrite => assert DEFAULT_HANDOFF[1].opClass == c;
    case ObligationWrite => assert DEFAULT_HANDOFF[2].opClass == c;
    case StateUpdate => assert DEFAULT_HANDOFF[3].opClass == c;
    case ConflictWrite => assert DEFAULT_HANDOFF[4].opClass == c;
    case EvidenceWrite => assert DEFAULT_HANDOFF[5].opClass == c;
  }

  /** With a review the default policy lets every operation pass. */
  lemma ReviewPasses(w: World, s: Snapshot, base: RevisionId, ops: seq<Operation>, key: Str, op: Operation)
    requires InProgram(w) && SameGovernance(w.genesis, s)
    ensures PolicyGate(w, s, ReviewedCommit(w, base, ops, key).txn, Writer(s.rootPrincipal, AUTHOR), op).None?
  {
    hide Ascii, DefaultRules, MakeArticles, DigestOperations, CollisionFree, PlainLimits;
    DefaultHandoffCovers(ClassOf(op.kind));
    assert s.policy.handoff == DEFAULT_HANDOFF;
    GenesisIsFounding();
  }

  lemma ReviewedIsAdmitted(w: World, s: Snapshot, base: RevisionId, ops: seq<Operation>, key: Str)
    requires InProgram(w) && SameGovernance(w.genesis, s) && s.conflicts == [] && ops != []
    requires AllAdmissible(s, ops) && Coherent(ApplyAll(s, TEXT, ops))
    ensures Admitted(w, s, ReviewedCommit(w, base, ops, key))
  {
    var t := ReviewedCommit(w, base, ops, key).txn;
    hide Admissible, ApplyAll, Coherent, DigestOperations, InProgram, PolicyGate, SameGovernance;
    forall i | 0 <= i < |ops| ensures PolicyGate(w, s, t, Writer(s.rootPrincipal, AUTHOR), ops[i]).None? {
      ReviewPasses(w, s, base, ops, key, ops[i]);
    }
    forall i | 0 <= i < |ops| ensures ConflictGate(s, ops[i]).None? && InvariantGate(s, ops[i]).None? {}
  }

  lemma GenesisAttained(w: World)
    requires InProgram(w)
    ensures Attained(w, w.genesis)
  {
    hide InProgram, Sane, AllFit, Run, RunLog;
    ProgramIsSane(w);
    FoundingRun(w);
    assert AttainedBy(w, [OpenRemote(NO_REVISION)], w.genesis);
  }

  lemma AttainedGovernance(w: World, s: Snapshot)
    requires Attained(w, s)
    ensures SameGovernance(w.genesis, s)
  {
    hide AllFit, Run, RunLog, Replay;
    var es :| AttainedBy(w, es, s);
    GovernanceIsConstant(w.genesis, RunLog(w, es));
  }

  /** Any operations the gates admit can be committed next. */
  lemma Advance(w: World, s: Snapshot, ops: seq<Operation>)
    requires InProgram(w) && Attained(w, s) && s.conflicts == [] && ops != [] && AllAdmissible(s, ops)
    requires Coherent(ApplyAll(s, TEXT, ops)) && Bounded(MAX_U32, ApplyAll(s, TEXT, ops))
    requires Canon(ApplyAll(s, TEXT, ops)) != Canon(s)
    ensures Attained(w, ApplyAll(s, TEXT, ops))
  {
    hide Sane, AllFit, Run, RunLog, Replay, AllAdmissible, Coherent, Bounded, ApplyAll, Canon, Proper, Realizes, HeadId,
      Admitted, InProgram, SameGovernance, Extends;
    ProgramIsSane(w);
    AttainedGovernance(w, s);
    var es :| AttainedBy(w, es, s);
    var log := RunLog(w, es);
    var c := ReviewedCommit(w, HeadId(w, log), ops, []);
    RunsAreProper(w, es);
    ReviewedIsAdmitted(w, s, HeadId(w, log), ops, []);
    ReviewedExtends(w, log, s, ops, []);
    ProperStep(w, log, c);
    var longer := ProperHasRun(w, log + [c]);
    LedgerStep(w, log, c);
    RealizedIsAttained(w, longer, log + [c]);
  }

  lemma RealizedIsAttained(w: World, es: seq<Event>, log: seq<Commit>)
    requires Realizes(w, es, log)
    ensures Attained(w, Replay(w.genesis, log))
  {
    hide AllFit, Run, RunLog, Replay;
    assert AttainedBy(w, es, Replay(w.genesis, log));
  }

  lemma ReviewedExtends(w: World, log: seq<Commit>, s: Snapshot, ops: seq<Operation>, key: Str)
    requires InProgram(w) && Proper(w, log) && Replay(w.genesis, log) == s
    requires Admitted(w, s, ReviewedCommit(w, HeadId(w, log), ops, key)) && Bounded(MAX_U32, ApplyAll(s, TEXT, ops))
    requires Canon(ApplyAll(s, TEXT, ops)) != Canon(s) && (key != [] ==> !KeyUsed(log, key))
    ensures Extends(w, log, ReviewedCommit(w, HeadId(w, log), ops, key))
  {
    hide MakeGenesis, Bounded, Canon, ApplyAll, HeadId, Admitted, Replay, IsLedger, KeysDistinct,
        AllProper,
      DigestOperations, Sized, Serialize, KeyUsed;
    var c := ReviewedCommit(w, HeadId(w, log), ops, key);
    assert LimitsAt(w.layout, ApplyAll(s, TEXT, ops));
    LedgerStep(w, log, c);
    assert SizedAt(w, log, |log|) && log[..|log|] == log;
    if Image(w, log + [c]) == Image(w, log) {
      SerializeInjective(w.layout, ApplyAll(s, TEXT, ops), s);
    }
  }

  /** ... by a run that has released its lease and keeps one entry, at the head. */
  lemma AttainedAtRest(w: World, s: Snapshot) returns (es: seq<Event>)
    requires InProgram(w) && Attained(w, s)
    ensures Realizes(w, es, RunLog(w, es)) && AttainedBy(w, es, s)
  {
    hide InProgram, Sane, AllFit, Run, RunLog, Replay, Proper;
    ProgramIsSane(w);
    var some :| AttainedBy(w, some, s);
    RunsAreProper(w, some);
    es := ProperHasRun(w, RunLog(w, some));
  }
}
