/** Which record ids a history keeps unique: gate 8 compares an id with the snapshot before the transaction only
    (src/persistence.cpp, AppendDecision, OpenConflict and UpsertProfile). */
module Identifiers {
  import opened Prelude
  import opened Cognition
  import opened Transactions
  import opened Gates
  import opened Ledger

  datatype Family = Decisions | Conflicts | Profiles
  datatype Key = Number(id: i64) | Name(text: Str)

  /** The ids of a family of records, in order. */
  function Keys(s: Snapshot, f: Family): seq<Key> {
    match f
    case Decisions => seq(|s.decisions|, i requires 0 <= i < |s.decisions| => Number(s.decisions[i].id))
    case Conflicts => seq(|s.conflicts|, i requires 0 <= i < |s.conflicts| => Name(s.conflicts[i].id))
    case Profiles => seq(|s.profiles|, i requires 0 <= i < |s.profiles| => Name(s.profiles[i].id))
  }

  function NewKey(op: Operation, f: Family): seq<Key> {
    if f.Decisions? && op.kind.AppendDecision? then [Number(op.recordId)]
    else if (f.Conflicts? && op.kind.OpenConflict?) || (f.Profiles? && op.kind.UpsertProfile?) then [Name(op.title)]
    else []
  }

  /** The ids a transaction introduces. */
  function NewKeys(ops: seq<Operation>, f: Family): seq<Key> {
    if ops == [] then [] else NewKeys(ops[..|ops| - 1], f) + NewKey(ops[|ops| - 1], f)
  }

  lemma KeysAfter(s: Snapshot, evidenceRef: Str, op: Operation, f: Family)
    ensures Keys(ApplyOp(s, evidenceRef, op), f) == Keys(s, f) + NewKey(op, f)
  {
    hide WithoutView, ViewOf, UserSource, CloseFirst, Find;
  }

  lemma {:induction false} KeysThrough(s: Snapshot, evidenceRef: Str, ops: seq<Operation>, f: Family)
    ensures Keys(ApplyAll(s, evidenceRef, ops), f) == Keys(s, f) + NewKeys(ops, f)
  {
    if ops != [] {
      hide ApplyOp, Keys, NewKey;
      KeysThrough(s, evidenceRef, ops[..|ops| - 1], f);
      KeysAfter(ApplyAll(s, evidenceRef, ops[..|ops| - 1]), evidenceRef, ops[|ops| - 1], f);
    }
  }

  lemma NewKeyIsNew(s: Snapshot, op: Operation, f: Family, k: Key)
    requires Admissible(s, op) && k in NewKey(op, f)
    ensures k !in Keys(s, f)
  {
    hide MaySupersede, MayTransition, MayAmendView;
  }

  lemma {:induction false} NewKeysAreNew(s: Snapshot, ops: seq<Operation>, f: Family, k: Key)
    requires AllAdmissible(s, ops) && k in NewKeys(ops, f)
    ensures k !in Keys(s, f)
  {
    hide Admissible, NewKey, Keys;
    if k in NewKey(ops[|ops| - 1], f) {
      NewKeyIsNew(s, ops[|ops| - 1], f, k);
    } else {
      NewKeysAreNew(s, ops[..|ops| - 1], f, k);
    }
  }

  lemma DistinctConcat<T>(xs: seq<T>, ys: seq<T>)
    requires forall y :: y in ys ==> y !in xs
    ensures Distinct(xs + ys) <==> Distinct(xs) && Distinct(ys)
  {
    var zs := xs + ys;
    assert forall i :: 0 <= i < |xs| ==> zs[i] == xs[i];
    assert forall i :: 0 <= i < |ys| ==> zs[|xs| + i] == ys[i];
    if Distinct(zs) {
      forall i, j | 0 <= i < j < |ys| ensures ys[i] != ys[j] {
        assert zs[|xs| + i] != zs[|xs| + j];
      }
      forall i, j | 0 <= i < j < |xs| ensures xs[i] != xs[j] {
        assert zs[i] != zs[j];
      }
    }
    if Distinct(xs) && Distinct(ys) {
      forall i, j | 0 <= i < j < |zs| ensures zs[i] != zs[j] {
        if i < |xs| <= j {
          assert ys[j - |xs|] in ys && xs[i] in xs;
        }
      }
    }
  }

  predicate EachDistinct(log: seq<Commit>, f: Family) {
    forall k :: 0 <= k < |log| ==> Distinct(NewKeys(log[k].txn.operations, f))
  }

  lemma EachDistinctStep(log: seq<Commit>, f: Family)
    requires log != []
    ensures EachDistinct(log, f) <==> EachDistinct(log[..|log| - 1], f) && Distinct(NewKeys(log[|log| - 1].txn.operations, f))
  {
    hide NewKeys, Distinct;
    var init := log[..|log| - 1];
    assert forall k :: 0 <= k < |init| ==> log[k] == init[k];
  }

  lemma UniqueStep(w: World, s: Snapshot, c: Commit, f: Family)
    requires Admitted(w, s, c)
    ensures Distinct(Keys(Successor(s, c.txn), f)) <==> Distinct(Keys(s, f)) && Distinct(NewKeys(c.txn.operations, f))
  {
    AdmittedOps(w, s, c);
    hide Admitted, Admissible, ApplyAll, Keys, NewKeys, Distinct, PolicyGate, ConflictGate, Coherent;
    KeysThrough(s, c.txn.handoffEvidenceRef, c.txn.operations, f);
    forall k | k in NewKeys(c.txn.operations, f) ensures k !in Keys(s, f) {
      NewKeysAreNew(s, c.txn.operations, f, k);
    }
    DistinctConcat(Keys(s, f), NewKeys(c.txn.operations, f));
  }

  /** Decision, conflict and profile ids are unique exactly when no single transaction introduces one twice. */
  lemma {:induction false} UniqueExactlyPerTransaction(w: World, log: seq<Commit>, f: Family)
    requires Keys(w.genesis, f) == [] && IsLedger(w, log)
    ensures Distinct(Keys(Replay(w.genesis, log), f)) <==> EachDistinct(log, f)
  {
    if log != [] {
      hide Admitted, Keys, NewKeys, EachDistinct, Successor;
      LedgerLast(w, log);
      UniqueExactlyPerTransaction(w, log[..|log| - 1], f);
      UniqueStep(w, Replay(w.genesis, log[..|log| - 1]), log[|log| - 1], f);
      EachDistinctStep(log, f);
    }
  }

  // ---- view ids: retired, added again, and added without a check ----

  function ViewIds(views: seq<ViewSpec>): seq<Str> { seq(|views|, i requires 0 <= i < |views| => views[i].id) }

  /** How many views carry the id. */
  function Carriers(views: seq<ViewSpec>, id: Str): nat {
    if views == [] then 0 else (if views[0].id == id then 1 else 0) + Carriers(views[1..], id)
  }

  predicate AddsView(op: Operation, id: Str) { op.kind.AmendViewSpec? && op.aux != 1 && op.title == id }
  predicate RetiresView(op: Operation, id: Str) { op.kind.AmendViewSpec? && op.aux == 1 && op.title == id }

  /** How many views carry the id after some operations, when `n` did before. */
  function CarriersAfter(n: nat, ops: seq<Operation>, id: Str): nat {
    if ops == [] then n
    else if RetiresView(ops[|ops| - 1], id) then 0
    else CarriersAfter(n, ops[..|ops| - 1], id) + if AddsView(ops[|ops| - 1], id) then 1 else 0
  }

  lemma {:induction false} CarriersSnoc(views: seq<ViewSpec>, v: ViewSpec, id: Str)
    ensures Carriers(views + [v], id) == Carriers(views, id) + if v.id == id then 1 else 0
  {
    if views == [] {
      assert [v][1..] == [];
    } else {
      assert (views + [v])[1..] == views[1..] + [v];
      CarriersSnoc(views[1..], v, id);
    }
  }

  lemma {:induction false} CarriersWithout(views: seq<ViewSpec>, gone: Str, id: Str)
    ensures Carriers(WithoutView(views, gone), id) == if id == gone then 0 else Carriers(views, id)
  {
    if views != [] {
      CarriersWithout(views[1..], gone, id);
      var rest := WithoutView(views[1..], gone);
      assert ([views[0]] + rest)[1..] == rest && [] + rest == rest;
    }
  }

  lemma CarriersOp(s: Snapshot, evidenceRef: Str, op: Operation, id: Str)
    ensures Carriers(ApplyOp(s, evidenceRef, op).views, id) ==
      if RetiresView(op, id) then 0 else Carriers(s.views, id) + if AddsView(op, id) then 1 else 0
  {
    hide Carriers, WithoutView, CloseFirst, UserSource, Mapped;
    CarriersWithout(s.views, op.title, id);
    CarriersSnoc(s.views, ViewOf(op), id);
  }

  lemma {:induction false} CarriersThrough(s: Snapshot, evidenceRef: Str, ops: seq<Operation>, id: Str)
    ensures Carriers(ApplyAll(s, evidenceRef, ops).views, id) == CarriersAfter(Carriers(s.views, id), ops, id)
  {
    if ops != [] {
      hide ApplyOp, Carriers, AddsView, RetiresView;
      CarriersThrough(s, evidenceRef, ops[..|ops| - 1], id);
      CarriersOp(ApplyAll(s, evidenceRef, ops[..|ops| - 1]), evidenceRef, ops[|ops| - 1], id);
    }
  }

  lemma {:induction false} NoCarrier(views: seq<ViewSpec>, id: Str)
    ensures Carriers(views, id) == 0 <==> id !in ViewIds(views)
  {
    if views != [] {
      NoCarrier(views[1..], id);
      assert ViewIds(views) == [views[0].id] + ViewIds(views[1..]);
    }
  }

  predicate AtMostOne(views: seq<ViewSpec>, id: Str) { Carriers(views, id) <= 1 }

  lemma {:induction false} DistinctByCarriers(views: seq<ViewSpec>)
    ensures Distinct(ViewIds(views)) <==> forall id :: AtMostOne(views, id)
  {
    if views != [] {
      var first, rest := views[0].id, views[1..];
      assert ViewIds(views) == [first] + ViewIds(rest);
      DistinctByCarriers(rest);
      NoCarrier(rest, first);
      if first !in ViewIds(rest) {
        DistinctConcat([first], ViewIds(rest));
        forall id ensures AtMostOne(views, id) <==> AtMostOne(rest, id) {}
      } else {
        assert !AtMostOne(views, first);
        var k :| 0 <= k < |rest| && ViewIds(rest)[k] == first;
        assert ViewIds(views)[0] == ViewIds(views)[k + 1];
      }
    }
  }

  /** Added by operation `i` and not retired since. */
  predicate StandsSince(ops: seq<Operation>, id: Str, i: int) {
    0 <= i < |ops| && AddsView(ops[i], id) && forall k :: i < k < |ops| ==> !RetiresView(ops[k], id)
  }

  ghost predicate Stands(ops: seq<Operation>, id: Str) { exists i :: StandsSince(ops, id, i) }

  /** The id is added again although it was not retired since. */
  ghost predicate AddedAgain(ops: seq<Operation>, id: Str) {
    exists i, j :: i < j && StandsSince(ops, id, i) && StandsSince(ops, id, j)
  }

  lemma StandsSinceStep(ops: seq<Operation>, op: Operation, id: Str, i: int)
    ensures StandsSince(ops + [op], id, i) <==>
      if i == |ops| then AddsView(op, id) else StandsSince(ops, id, i) && !RetiresView(op, id)
  {
    var all := ops + [op];
    assert all[|ops|] == op && forall k :: 0 <= k < |ops| ==> all[k] == ops[k];
    assert !AddsView(op, id) || !RetiresView(op, id);
  }

  lemma StandsStep(ops: seq<Operation>, op: Operation, id: Str)
    ensures Stands(ops + [op], id) <==> AddsView(op, id) || (Stands(ops, id) && !RetiresView(op, id))
    ensures AddedAgain(ops + [op], id) <==>
      !RetiresView(op, id) && (AddedAgain(ops, id) || (Stands(ops, id) && AddsView(op, id)))
  {
    hide AddsView, RetiresView;
    assert AddsView(op, id) ==> !RetiresView(op, id) by { AddedOrRetired(op, id); }
    forall i ensures StandsSince(ops + [op], id, i) <==>
      if i == |ops| then AddsView(op, id) else StandsSince(ops, id, i) && !RetiresView(op, id)
    {
      StandsSinceStep(ops, op, id, i);
    }
    assert forall i :: StandsSince(ops, id, i) ==> i < |ops|;
    hide StandsSince;
    assert AddsView(op, id) ==> StandsSince(ops + [op], id, |ops|);
  }

  lemma AddedOrRetired(op: Operation, id: Str)
    ensures !AddsView(op, id) || !RetiresView(op, id)
  {
  }

  lemma {:induction false} CarriersCount(ops: seq<Operation>, id: Str)
    ensures CarriersAfter(0, ops, id) >= 1 <==> Stands(ops, id)
    ensures CarriersAfter(0, ops, id) >= 2 <==> AddedAgain(ops, id)
  {
    if ops != [] {
      var init, op := ops[..|ops| - 1], ops[|ops| - 1];
      hide Stands, AddedAgain, AddsView, RetiresView;
      assert ops == init + [op];
      CarriersCount(init, id);
      StandsStep(init, op, id);
      AddedOrRetired(op, id);
    }
  }

  /** All operations of a history in order. */
  function AllOperations(log: seq<Commit>): seq<Operation> {
    if log == [] then [] else AllOperations(log[..|log| - 1]) + log[|log| - 1].txn.operations
  }

  lemma {:induction false} CarriersConcat(n: nat, ops: seq<Operation>, more: seq<Operation>, id: Str)
    ensures CarriersAfter(n, ops + more, id) == CarriersAfter(CarriersAfter(n, ops, id), more, id)
  {
    if more == [] {
      assert ops + more == ops;
    } else {
      assert (ops + more)[..|ops + more| - 1] == ops + more[..|more| - 1];
      CarriersConcat(n, ops, more[..|more| - 1], id);
    }
  }

  lemma {:induction false} LoggedCarriers(genesis: Snapshot, log: seq<Commit>, id: Str)
    requires genesis.views == []
    ensures Carriers(Replay(genesis, log).views, id) == CarriersAfter(0, AllOperations(log), id)
  {
    if log != [] {
      var init, t := log[..|log| - 1], log[|log| - 1].txn;
      LoggedCarriers(genesis, init, id);
      CarriersThrough(Replay(genesis, init), t.handoffEvidenceRef, t.operations, id);
      CarriersConcat(0, AllOperations(init), t.operations, id);
    }
  }

  ghost predicate NoneAddedAgain(ops: seq<Operation>) { forall id :: !AddedAgain(ops, id) }

  predicate CountedBy(views: seq<ViewSpec>, ops: seq<Operation>, id: Str) {
    Carriers(views, id) == CarriersAfter(0, ops, id)
  }

  lemma DistinctWhenCounted(views: seq<ViewSpec>, ops: seq<Operation>)
    requires forall id :: CountedBy(views, ops, id)
    ensures Distinct(ViewIds(views)) <==> NoneAddedAgain(ops)
  {
    hide Distinct, AddedAgain;
    DistinctByCarriers(views);
    forall id ensures AtMostOne(views, id) <==> !AddedAgain(ops, id) {
      assert CountedBy(views, ops, id);
      CarriersCount(ops, id);
    }
  }

  /** View ids are unique exactly when no id is added again since its last retirement: within one transaction, or
      later with a code other than 0, for which the gate does not look at the ids there are. */
  lemma ViewIdsUniqueExactly(genesis: Snapshot, log: seq<Commit>)
    requires genesis.views == []
    ensures Distinct(ViewIds(Replay(genesis, log).views)) <==> NoneAddedAgain(AllOperations(log))
  {
    hide Distinct, Carriers, Replay, NoneAddedAgain;
    forall id ensures CountedBy(Replay(genesis, log).views, AllOperations(log), id) {
      LoggedCarriers(genesis, log, id);
    }
    DistinctWhenCounted(Replay(genesis, log).views, AllOperations(log));
  }

  predicate DeclaredAmendments(ops: seq<Operation>) {
    forall i :: 0 <= i < |ops| && ops[i].kind.AmendViewSpec? ==> ops[i].aux <= 1
  }

  /** With the two declared codes the ids that a transaction adds are new to it, so it keeps view ids unique exactly
      when it adds none of them again itself. */
  lemma ViewsUniqueStep(w: World, s: Snapshot, c: Commit)
    requires Admitted(w, s, c) && DeclaredAmendments(c.txn.operations) && Distinct(ViewIds(s.views))
    ensures Distinct(ViewIds(Successor(s, c.txn).views)) <==> NoneAddedAgain(c.txn.operations)
  {
    AdmittedOps(w, s, c);
    hide Admitted, Distinct, AddedAgain, Carriers, ViewIds, PolicyGate, ConflictGate, Coherent, Admissible, ApplyAll;
    var u, ops := Successor(s, c.txn), c.txn.operations;
    DistinctByCarriers(u.views);
    DistinctByCarriers(s.views);
    forall id ensures AtMostOne(u.views, id) <==> !AddedAgain(ops, id) {
      assert AtMostOne(s.views, id);
      CarriersThrough(s, c.txn.handoffEvidenceRef, ops, id);
      CarriersCount(ops, id);
      AddedWhereNone(s, ops, id);
    }
  }

  lemma AddedWhereNone(s: Snapshot, ops: seq<Operation>, id: Str)
    requires AllAdmissible(s, ops) && DeclaredAmendments(ops)
    ensures Carriers(s.views, id) == 0 || CarriersAfter(Carriers(s.views, id), ops, id) <= Carriers(s.views, id)
    ensures Carriers(s.views, id) == 0 || CarriersAfter(0, ops, id) == 0
  {
    if i :| 0 <= i < |ops| && AddsView(ops[i], id) {
      assert Admissible(s, ops[i]);
      NoCarrier(s.views, id);
    } else {
      NothingAdded(Carriers(s.views, id), ops, id);
      NothingAdded(0, ops, id);
    }
  }

  lemma {:induction false} NothingAdded(n: nat, ops: seq<Operation>, id: Str)
    requires forall i :: 0 <= i < |ops| ==> !AddsView(ops[i], id)
    ensures CarriersAfter(n, ops, id) <= n
  {
    if ops != [] {
      NothingAdded(n, ops[..|ops| - 1], id);
    }
  }
}
