/** Leases over whole runs: a released grant stays out until the generation counter has come around, every commit was
    written under the lease it belongs to, and unattended leases write nothing (acquire_grant, release_grant and the
    lease gates of write_to_cognition in src/persistence.cpp). */
module Fencing {
  import opened Prelude
  import opened SnapshotCodecLaws
  import opened Text
  import opened Transactions
  import opened Ledger
  import opened Gates
  import opened Genesis
  import opened Service
  import opened Restore
  import opened Reachable
  import opened ServiceLaws
  import opened Progress
  import opened Realization

  predicate LeaseGranted(reply: Reply) { reply.Granted? && reply.grant.Some? }

  // ---- a released grant ----

  /** The active grant, if any, is the latest. */
  predicate Latest(v: Service) {
    v.generation < WORD && (v.activeGrant == [] || v.activeGrant == GrantName(v.generation))
  }

  lemma LatestStep(w: World, v: Service, e: Event)
    requires Latest(v)
    ensures Latest(Step(w, v, e).0)
  {
    hide Step, GrantName;
    GenerationStep(w, v, e, Step(w, v, e).0, Step(w, v, e).1);
  }

  lemma {:induction false} RunsAreLatest(w: World, es: seq<Event>)
    ensures Latest(Run(w, es))
  {
    if es != [] {
      hide Step, Latest;
      RunsAreLatest(w, es[..|es| - 1]);
      LatestStep(w, Run(w, es[..|es| - 1]), es[|es| - 1]);
    }
  }

  /** How many leases a sequence of calls is granted. */
  function Leases(w: World, v: Service, es: seq<Event>): nat
    decreases es
  {
    if es == [] then 0
    else (if LeaseGranted(Step(w, v, es[0]).1) then 1 else 0) + Leases(w, Step(w, v, es[0]).0, es[1..])
  }

  lemma NamesDiffer(m: nat, n: nat)
    ensures GrantName(m) == GrantName(n) <==> m == n
  {
    assert GrantName(m)[6..] == Decimal(m) && GrantName(n)[6..] == Decimal(n);
    hide GrantName, Digits;
    DigitsInjective(m, n);
  }

  predicate Idle(w: World, v: Service, e: Event) { Step(w, v, e).0 == v }

  /** Number `m` was given away and is not active, and the counter will not come back to it. */
  predicate Passed(v: Service, m: nat, leases: nat) {
    Latest(v) && m < WORD && v.activeGrant != GrantName(m) && (v.generation - m) % WORD + leases < WORD
  }

  lemma PassedStep(w: World, v: Service, e: Event, m: nat, leases: nat)
    requires Passed(v, m, leases + if LeaseGranted(Step(w, v, e).1) then 1 else 0)
    ensures Passed(Step(w, v, e).0, m, leases)
  {
    hide Step, GrantName;
    var (u, reply) := Step(w, v, e);
    GenerationStep(w, v, e, u, reply);
    LatestStep(w, v, e);
    NamesDiffer(u.generation, m);
    NoName(m);
    CounterStep(v.generation, m);
  }

  lemma NoName(m: nat)
    ensures GrantName(m) != []
  {
  }

  lemma CounterStep(n: nat, m: nat)
    requires n < WORD && m < WORD
    ensures (n - m) % WORD + 1 < WORD ==> ((n + 1) % WORD - m) % WORD == (n - m) % WORD + 1 && (n + 1) % WORD != m
  {
    if n + 1 == WORD {
      assert (n + 1) % WORD == 0;
    } else {
      assert (n + 1) % WORD == n + 1;
    }
  }

  lemma {:induction false} PassedStaysOut(w: World, v: Service, m: nat, es: seq<Event>, k: nat)
    requires Passed(v, m, Leases(w, v, es)) && k < |es| && es[k].Write? && es[k].grant.id == GrantName(m)
    ensures Idle(w, AfterAll(w, v, es[..k]), es[k])
    decreases es
  {
    if k == 0 {
      hide Step, GrantName;
      StaleGrantChangesNothing(w, v, es[0]);
      assert es[..0] == [];
    } else {
      hide Passed, Step, GrantName, Idle;
      var u := Step(w, v, es[0]).0;
      PassedStep(w, v, es[0], m, Leases(w, u, es[1..]));
      PassedStaysOut(w, u, m, es[1..], k - 1);
      assert es[..k][0] == es[0] && es[..k][1..] == es[1..][..k - 1];
    }
  }

  /** A released grant never changes the service again, whatever is called after the release, as long as fewer than 2^64
      further leases are granted. */
  lemma ReleasedStaysOut(w: World, es: seq<Event>, grant: Grant, later: seq<Event>, k: nat)
    requires Run(w, es).activeGrant == grant.id != []
    requires Leases(w, Step(w, Run(w, es), Release(grant)).0, later) < WORD
    requires k < |later| && later[k].Write? && later[k].grant.id == grant.id
    ensures Idle(w, AfterAll(w, Step(w, Run(w, es), Release(grant)).0, later[..k]), later[k])
  {
    hide Step, Run, GrantName, Leases, Idle;
    var v, u := Run(w, es), Step(w, Run(w, es), Release(grant)).0;
    RunsAreLatest(w, es);
    ReleaseFrees(w, v, grant);
    NoName(v.generation);
    PassedStaysOut(w, u, v.generation, later, k);
  }

  // ---- an unattended grant ----

  /** An unattended grant carries no write right: a write under it changes nothing. */
  lemma UnattendedChangesNothing(w: World, v: Service, e: Event)
    requires e.Write? && e.grant.mode.Unattended?
    ensures Idle(w, v, e)
  {
    hide CanonicalHead, KeyDigest, FindLive, CommitStep, Admit;
  }

  predicate UnattendedAt(es: seq<Event>, k: nat)
    requires k < |es|
  {
    es[k].Acquire? ==> es[k].mode.Unattended?
  }

  /** As grants cannot be made by callers, a run in which every lease is taken unattended commits nothing. */
  lemma {:induction false} UnattendedRunsCommitNothing(w: World, es: seq<Event>)
    requires AllHeld(w, es) && forall k :: 0 <= k < |es| ==> UnattendedAt(es, k)
    ensures RunLog(w, es) == []
  {
    if es != [] {
      hide Step, Run, AllHeld, Held, UnattendedAt, Idle;
      var init, e := es[..|es| - 1], es[|es| - 1];
      assert es == init + [e];
      forall k | 0 <= k < |init| ensures UnattendedAt(init, k) {
        assert UnattendedAt(es, k);
        SameEvent(es, init, k);
      }
      HeldStep(w, init, e);
      UnattendedRunsCommitNothing(w, init);
      if e.Write? {
        HeldIsUnattended(w, init, e.grant);
        UnattendedChangesNothing(w, Run(w, init), e);
      }
      IdleLogsNothing(w, Run(w, init), e);
    }
  }

  lemma IdleLogsNothing(w: World, v: Service, e: Event)
    requires e.Write? ==> Idle(w, v, e)
    ensures Logged(w, v, [], e) == []
  {
    hide Step;
  }

  lemma HeldIsUnattended(w: World, es: seq<Event>, grant: Grant)
    requires Held(w, es, grant) && forall k :: 0 <= k < |es| ==> UnattendedAt(es, k)
    ensures grant.mode.Unattended?
  {
    hide Run, Held;
    HeldWasAcquired(w, es, grant);
    var k :| 0 <= k < |es| && es[k].Acquire? && es[k].mode == grant.mode;
    assert UnattendedAt(es, k);
  }

  lemma SameEvent(es: seq<Event>, init: seq<Event>, k: nat)
    requires k < |init| && init <= es && UnattendedAt(es, k)
    ensures UnattendedAt(init, k)
  {
  }

  lemma HeldWasAcquired(w: World, es: seq<Event>, grant: Grant)
    requires Held(w, es, grant)
    ensures exists k :: 0 <= k < |es| && es[k].Acquire? && es[k].mode == grant.mode
  {
    hide Step, Run;
    var k :| 0 <= k < |es| && GrantedAt(w, es, k, grant);
    var v := Run(w, es[..k]);
    GenerationStep(w, v, es[k], Step(w, v, es[k]).0, Step(w, v, es[k]).1);
  }

  // ---- commits and their leases ----

  /** Call `j` took the lease that came with this grant, and it has not been released since. */
  ghost predicate LeasedSince(w: World, es: seq<Event>, j: nat, grant: Grant) {
    && j < |es| && es[j].Acquire? && GrantedAt(w, es, j, grant) && es[j].mode == grant.mode
    && Run(w, es).grantActor == es[j].actor
    && forall i :: j < i <= |es| ==> ActiveAt(w, es, i, grant)
  }

  predicate ActiveAt(w: World, es: seq<Event>, i: nat, grant: Grant)
    requires i <= |es|
  {
    Run(w, es[..i]).activeGrant == grant.id
  }

  lemma {:induction false} ActiveWasLeased(w: World, es: seq<Event>) returns (j: nat, grant: Grant)
    requires Run(w, es).activeGrant != []
    ensures LeasedSince(w, es, j, grant) && grant.id == Run(w, es).activeGrant
  {
    hide Step, GrantName;
    assert es[..|es|] == es;
    var init, e := es[..|es| - 1], es[|es| - 1];
    var v := Run(w, init);
    var (u, reply) := Step(w, v, e);
    GenerationStep(w, v, e, u, reply);
    if LeaseGranted(reply) {
      j, grant := |init|, reply.grant.value;
      assert ActiveAt(w, es, |es|, grant);
    } else {
      j, grant := ActiveWasLeased(w, init);
      assert init[..j] == es[..j];
      assert GrantedAt(w, init, j, grant);
      hide Run;
      forall i | j < i <= |es| ensures ActiveAt(w, es, i, grant) {
        if i < |es| {
          assert ActiveAt(w, init, i, grant) && init[..i] == es[..i];
        }
      }
    }
  }

  lemma {:induction false} MintedBefore(w: World, es: seq<Event>, k: nat)
    requires k <= |es|
    ensures |Minted(w, es[..k])| <= |Minted(w, es)|
  {
    hide Step, Run;
    if k == |es| {
      assert es[..k] == es;
    } else {
      assert es[..|es| - 1][..k] == es[..k];
      MintedBefore(w, es[..|es| - 1], k);
    }
  }

  /** The grant of call `k` is named after the number of leases up to it. */
  lemma GrantNumber(w: World, es: seq<Event>, k: nat, grant: Grant)
    requires k < |es| && GrantedAt(w, es, k, grant)
    ensures |Minted(w, es[..k + 1])| == |Minted(w, es[..k])| + 1 <= |Minted(w, es)|
    ensures grant.id == GrantName(|Minted(w, es[..k + 1])| % WORD)
  {
    hide Step, GrantName;
    var here := es[..k + 1];
    assert here[..k] == es[..k] && here[k] == es[k];
    MintedInOrder(w, here);
    MintedBefore(w, es, k + 1);
    var v := Run(w, es[..k]);
    GenerationStep(w, v, es[k], Step(w, v, es[k]).0, Step(w, v, es[k]).1);
  }

  /** Until the counter has come around, a grant id belongs to one lease. */
  lemma SameIdSameGrant(w: World, es: seq<Event>, i: nat, j: nat, a: Grant, b: Grant)
    requires i < |es| && j < |es| && GrantedAt(w, es, i, a) && GrantedAt(w, es, j, b)
    requires a.id == b.id && |Minted(w, es)| <= WORD
    ensures i == j && a == b
  {
    hide Step, Run, GrantName, Minted;
    GrantNumber(w, es, i, a);
    GrantNumber(w, es, j, b);
    var m, n := |Minted(w, es[..i + 1])|, |Minted(w, es[..j + 1])|;
    NamesDiffer(m % WORD, n % WORD);
    if i < j {
      assert es[..j][..i + 1] == es[..i + 1];
      MintedBefore(w, es[..j], i + 1);
    } else if j < i {
      assert es[..i][..j + 1] == es[..j + 1];
      MintedBefore(w, es[..i], j + 1);
    }
  }

  lemma WriteNeedsLease(w: World, v: Service, e: Event)
    requires e.Write? && !Idle(w, v, e)
    ensures v.activeGrant == e.grant.id != [] && e.grant.mode.SupervisedForeground?
  {
    hide CanonicalHead, KeyDigest, FindLive, CommitStep, Admit;
  }

  /** Every write that changed anything was made under the very lease that its grant came with: taken for supervised
      work, by the actor it is attributed to, and not released since. */
  lemma WritesAreLeased(w: World, es: seq<Event>, e: Event) returns (j: nat)
    requires AllHeld(w, es + [e]) && |Minted(w, es)| <= WORD && e.Write? && !Idle(w, Run(w, es), e)
    ensures LeasedSince(w, es, j, e.grant) && es[j].mode.SupervisedForeground?
  {
    hide Step, Run, Minted, Idle, AllHeld, LeasedSince;
    WriteNeedsLease(w, Run(w, es), e);
    HeldStep(w, es, e);
    var i :| 0 <= i < |es| && GrantedAt(w, es, i, e.grant);
    var grant;
    j, grant := ActiveWasLeased(w, es);
    LeasedParts(w, es, j, grant);
    SameIdSameGrant(w, es, i, j, e.grant, grant);
  }

  lemma LeasedParts(w: World, es: seq<Event>, j: nat, grant: Grant)
    requires LeasedSince(w, es, j, grant)
    ensures j < |es| && es[j].Acquire? && GrantedAt(w, es, j, grant) && es[j].mode == grant.mode
  {
    hide Run, ActiveAt, GrantedAt;
  }

  // ---- when the counter comes around ----

  lemma MintedStep(w: World, es: seq<Event>, e: Event)
    ensures |Minted(w, es + [e])| == |Minted(w, es)| + if LeaseGranted(Step(w, Run(w, es), e).1) then 1 else 0
  {
    hide Step, Run;
    assert (es + [e])[..|es|] == es;
  }

  /** Any number of leases may be taken and released without a write. */
  lemma {:induction false} Relet(w: World, es: seq<Event>, log: seq<Commit>, n: nat) returns (longer: seq<Event>)
    requires Sane(w) && Realizes(w, es, log)
    ensures es <= longer && Realizes(w, longer, log) && |Minted(w, longer)| == |Minted(w, es)| + n
    ensures Run(w, longer).generation == (Run(w, es).generation + n) % WORD
    ensures forall grant :: Held(w, es, grant) ==> Held(w, longer, grant)
  {
    if n == 0 {
      longer := es;
      RunsAreLatest(w, es);
      hide *;
    } else {
      hide Sane, Realizes, Run, Minted, Held;
      var before := Relet(w, es, log, n - 1);
      longer := ReletOnce(w, before, log);
    }
  }

  lemma ReletOnce(w: World, es: seq<Event>, log: seq<Commit>) returns (longer: seq<Event>)
    requires Sane(w) && Realizes(w, es, log)
    ensures es <= longer && Realizes(w, longer, log) && |Minted(w, longer)| == |Minted(w, es)| + 1
    ensures Run(w, longer).generation == (Run(w, es).generation + 1) % WORD
    ensures forall grant :: Held(w, es, grant) ==> Held(w, longer, grant)
    ensures Held(w, longer, LeaseOf(Run(w, es), WriterOf(w, [65])))
  {
    hide Sane, Inv, Step, Run, RunLog, Minted, Held, AllHeld, AllFit, Fits, Logged, KeyUsed, WriterOf, GrantName;
    var v, actor := Run(w, es), WriterOf(w, [65]);
    var acquire, release := Acquire(actor, SupervisedForeground), Release(LeaseOf(v, actor));
    longer := es + [acquire] + [release];
    RunsHold(w, es);
    WriterVerifies(w, [65]);
    LeaseIsTaken(w, v, log, actor, 0);
    GenerationStep(w, v, acquire, Step(w, v, acquire).0, Step(w, v, acquire).1);
    RunStep(w, es, acquire);
    RunStep(w, es + [acquire], release);
    MintedStep(w, es, acquire);
    MintedStep(w, es + [acquire], release);
    NotAWrite(w, v, log, acquire);
    var u := Run(w, es + [acquire]);
    NotAWrite(w, u, log, release);
    ReleaseFrees(w, u, LeaseOf(v, actor));
    ReleaseGrantsNothing(w, u, release);
  }

  lemma ReleaseGrantsNothing(w: World, v: Service, e: Event)
    requires e.Release?
    ensures !LeaseGranted(Step(w, v, e).1)
  {
  }

  /** A grant named like the next lease writes under that lease, whoever takes it. */
  lemma NamesakeWrites(w: World, es: seq<Event>, log: seq<Commit>, c: Commit, grant: Grant)
      returns (leased: seq<Event>, e: Event)
    requires Sane(w) && Realizes(w, es, log) && Extends(w, log, c)
    requires Held(w, es, grant) && grant.mode.SupervisedForeground?
    requires grant.id == LeaseOf(Run(w, es), WriterOf(w, c.author)).id
    ensures es <= leased && AllFit(w, leased) && AllHeld(w, leased + [e]) && |Minted(w, leased)| == |Minted(w, es)| + 1
    ensures e.Write? && e.grant == grant && AppliedFor(w, Run(w, leased), e)
  {
    hide Sane, Inv, Step, Extends, Run, RunLog, Minted, Held, AllHeld, AllFit, Fits, KeyUsed, WriterOf, GrantName,
        Realizes,
      Idle, AtHead, AppliedFor;
    var v, acquire := Run(w, es), Acquire(WriterOf(w, c.author), SupervisedForeground);
    leased := es + [acquire];
    RealizedIsAtRest(w, es, log);
    e := NamesakeCall(w, v, log, c, grant);
    RunStep(w, es, acquire);
    RunStep(w, leased, e);
    MintedStep(w, es, acquire);
    NotAWrite(w, v, log, acquire);
    LeaseGrants(w, v, log, c);
    RealizedIsHeld(w, es, log);
  }

  lemma RealizedIsHeld(w: World, es: seq<Event>, log: seq<Commit>)
    requires Realizes(w, es, log)
    ensures AllFit(w, es) && AllHeld(w, es)
  {
    hide AllFit, AllHeld, Run, RunLog;
  }

  lemma LeaseGrants(w: World, v: Service, log: seq<Commit>, c: Commit)
    requires Sane(w) && Inv(w, v, log) && v.store.revisions != [] && v.activeGrant == [] && Extends(w, log, c)
    requires |v.live| == 1 && PromotedAtHead(v, 0)
    ensures LeaseGranted(Step(w, v, Acquire(WriterOf(w, c.author), SupervisedForeground)).1)
  {
    hide Sane, Inv, Step, WriterOf, AtHead, Verifies, Admitted, Replay, Image, HeadId, Sized, Successor;
    WriterVerifies(w, c.author);
    LeaseIsTaken(w, v, log, WriterOf(w, c.author), 0);
  }

  /** The call is a write, answered as applied, and it changes the service. */
  predicate AppliedFor(w: World, v: Service, e: Event) {
    e.Write? && Step(w, v, e).1.Written? && Step(w, v, e).1.verdict.outcome.Applied? && !Idle(w, v, e)
  }

  lemma NamesakeCall(w: World, v: Service, log: seq<Commit>, c: Commit, grant: Grant) returns (e: Event)
    requires Sane(w) && Inv(w, v, log) && v.store.revisions != [] && v.activeGrant == [] && Extends(w, log, c)
    requires |v.live| == 1 && PromotedAtHead(v, 0) && forall key :: key in v.receipts ==> KeyUsed(log, key)
    requires grant.mode.SupervisedForeground? && grant.id == LeaseOf(v, WriterOf(w, c.author)).id
    ensures e.Write? && e.grant == grant && AppliedFor(w, Leased(w, v, WriterOf(w, c.author)), e)
  {
    hide Sane, Inv, Step, KeyUsed, Replay, Admitted, Sized, Successor, HeadId, Image, WriterOf, Verifies, GrantName,
        AtHead;
    var leased := Leased(w, v, WriterOf(w, c.author));
    LeasedIsReady(w, v, log, c);
    LeaseIsTaken(w, v, log, WriterOf(w, c.author), 0);
    ByTheLease(w, leased, c);
    e := WriteOf(leased, c.txn, 0, grant);
    AdmittedIsApplied(w, leased, log, c.txn, 0, grant);
    StoreGrew(w, leased, log, e);
  }

  lemma Around(n: nat)
    requires n < WORD
    ensures (((n + 1) % WORD + (WORD - 1)) % WORD + 1) % WORD == (n + 1) % WORD
  {
    if n + 1 < WORD {
      assert (n + 1) % WORD == n + 1;
    }
  }
}
