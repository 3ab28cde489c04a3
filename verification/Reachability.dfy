/** What the reachability search of the supersession gate decides, exactly when it ends, and how deep it need be
    followed to know (reachesDecision and gate 8 in src/persistence.cpp). */
module Reachability {
  import opened Prelude
  import opened Cognition
  import opened Transactions
  import opened Gates
  import opened Ledger
  import opened History
  import opened Supersession

  // ---- what an answer means ----

  ghost predicate Connected(ds: seq<Decision>, a: i64, b: i64) {
    exists p: seq<i64> :: Walk(Edges(ds), p) && p[0] == a && p[|p| - 1] == b
  }

  lemma Extend(ds: seq<Decision>, d: Decision, x: i64, t: i64)
    requires d in ds && x in d.supersedes && Connected(ds, x, t)
    ensures Connected(ds, d.id, t)
  {
    var p :| Walk(Edges(ds), p) && p[0] == x && p[|p| - 1] == t;
    var q := [d.id] + p;
    assert (d.id, x) in Edges(ds);
    forall i | 0 <= i < |q| - 1 ensures (q[i], q[i + 1]) in Edges(ds) {
      assert i > 0 ==> (p[i - 1], p[i - 1 + 1]) in Edges(ds);
    }
    assert Walk(Edges(ds), q) && q[|q| - 1] == t;
  }

  lemma {:induction false} FoundIsConnected(ds: seq<Decision>, d: Decision, t: i64, n: nat)
    requires d in ds && Reaches(ds, d, t, n) == Some(true)
    ensures Connected(ds, d.id, t)
    decreases n, 0
  {
    if d.id == t {
      assert Walk(Edges(ds), [t]);
    } else {
      FoundAmong(ds, d, d.supersedes, t, n - 1);
    }
  }

  lemma {:induction false} FoundAmong(ds: seq<Decision>, d: Decision, ids: seq<i64>, t: i64, n: nat)
    requires d in ds && (forall x :: x in ids ==> x in d.supersedes) && ReachesAny(ds, ids, t, n) == Some(true)
    ensures Connected(ds, d.id, t)
    decreases n, |ids| + 1
  {
    hide Connected;
    var at := FindDecision(ds, ids[0]);
    if at.Some? && Reaches(ds, ds[at.value], t, n) == Some(true) {
      FoundIsConnected(ds, ds[at.value], t, n);
      Extend(ds, d, ids[0], t);
    } else {
      FoundAmong(ds, d, ids[1..], t, n);
    }
  }

  lemma {:induction false} NoneAmong(ds: seq<Decision>, ids: seq<i64>, x: i64, t: i64, n: nat)
    requires ReachesAny(ds, ids, t, n) == Some(false) && x in ids && HasId(ds, x)
    ensures FindDecision(ds, x).Some? && Reaches(ds, ds[FindDecision(ds, x).value], t, n) == Some(false)
  {
    if ids[0] != x {
      NoneAmong(ds, ids[1..], x, t, n);
    }
  }

  /** The first record of an id, which is the one the search follows. */
  function First(ds: seq<Decision>, id: i64): Decision
    requires HasId(ds, id)
  {
    ds[FindDecision(ds, id).value]
  }

  lemma NotFoundNext(ds: seq<Decision>, a: i64, b: i64, t: i64, n: nat)
    requires LinksSound(ds) && (a, b) in Edges(ds) && HasId(ds, a) && Reaches(ds, First(ds, a), t, n) == Some(false)
    ensures a != t && n > 0 && HasId(ds, b) && Reaches(ds, First(ds, b), t, n - 1) == Some(false)
  {
    var d := First(ds, a);
    var e :| e in ds && e.id == a && b in e.supersedes;
    assert d.supersedes == e.supersedes;
    hide LinksSound, Edges;
    NoneAmong(ds, d.supersedes, b, t, n - 1);
  }

  lemma NotFoundHere(ds: seq<Decision>, a: i64, t: i64, n: nat)
    requires HasId(ds, a) && Reaches(ds, First(ds, a), t, n) == Some(false)
    ensures a != t
  {
  }

  /** A search that ends without finding its target ends so at every decision along the way. */
  lemma {:induction false} NotFoundAlong(ds: seq<Decision>, p: seq<i64>, t: i64, n: nat)
    requires LinksSound(ds) && Walk(Edges(ds), p) && HasId(ds, p[0])
    requires Reaches(ds, First(ds, p[0]), t, n) == Some(false)
    ensures |p| <= n + 1 && HasId(ds, p[|p| - 1]) && p[|p| - 1] != t
    ensures Reaches(ds, First(ds, p[|p| - 1]), t, n + 1 - |p|) == Some(false)
  {
    hide LinksSound, Edges, First, Reaches;
    if |p| == 1 {
      NotFoundHere(ds, p[0], t, n);
    } else {
      assert (p[0], p[1]) in Edges(ds);
      NotFoundNext(ds, p[0], p[1], t, n);
      var rest := p[1..];
      forall i | 0 <= i < |rest| - 1 ensures (rest[i], rest[i + 1]) in Edges(ds) {
        assert (p[i + 1], p[i + 1 + 1]) in Edges(ds);
      }
      NotFoundAlong(ds, rest, t, n - 1);
    }
  }

  /** A settled search answers whether supersession links lead from one decision to the other. */
  lemma SearchDecidesConnection(ds: seq<Decision>, a: i64, t: i64, n: nat)
    requires LinksSound(ds) && HasId(ds, a) && Reaches(ds, First(ds, a), t, n).Some?
    ensures Reaches(ds, First(ds, a), t, n).value <==> Connected(ds, a, t)
  {
    if Reaches(ds, First(ds, a), t, n).value {
      FoundIsConnected(ds, First(ds, a), t, n);
    } else {
      forall p: seq<i64> | Walk(Edges(ds), p) && p[0] == a ensures p[|p| - 1] != t {
        NotFoundAlong(ds, p, t, n);
      }
    }
  }

  // ---- when it ends ----

  /** The recursion of the program returns an answer. */
  ghost predicate Ends(ds: seq<Decision>, d: Decision, t: i64) { exists n: nat :: Reaches(ds, d, t, n).Some? }

  predicate Closed(es: set<Edge>, p: seq<i64>) { Walk(es, p) && |p| > 1 && p[0] == p[|p| - 1] }

  /** No closed walk can be entered from `a`. */
  ghost predicate LoopFree(ds: seq<Decision>, a: i64) {
    forall p: seq<i64> :: Closed(Edges(ds), p) ==> !Connected(ds, a, p[0])
  }

  lemma {:induction false} DistinctFit<T>(p: seq<T>, xs: seq<T>)
    requires Distinct(p) && forall x :: x in p ==> x in xs
    ensures |p| <= |xs|
  {
    if p != [] {
      assert p[0] in xs;
      var at :| 0 <= at < |xs| && xs[at] == p[0];
      var rest := xs[..at] + xs[at + 1..];
      forall x | x in p[1..] ensures x in rest {
        assert x in xs;
        var i :| 0 <= i < |xs| && xs[i] == x;
        assert rest[if i < at then i else i - 1] == x;
      }
      DistinctFit(p[1..], rest);
    }
  }

  lemma LoopFreeWalkIsDistinct(ds: seq<Decision>, p: seq<i64>)
    requires Walk(Edges(ds), p) && LoopFree(ds, p[0])
    ensures Distinct(p)
  {
    hide Edges;
    forall i, j | 0 <= i < j < |p| ensures p[i] != p[j] {
      var loop, lead := p[i..j + 1], p[..i + 1];
      forall k | 0 <= k < |loop| - 1 ensures (loop[k], loop[k + 1]) in Edges(ds) {
        assert (p[i + k], p[i + k + 1]) in Edges(ds);
      }
      assert Walk(Edges(ds), loop) && Walk(Edges(ds), lead);
      assert Connected(ds, p[0], loop[0]) by { assert lead[|lead| - 1] == loop[0]; }
      assert p[i] == p[j] ==> Closed(Edges(ds), loop);
    }
  }

  lemma WalkFits(ds: seq<Decision>, p: seq<i64>)
    requires Walk(Edges(ds), p) && LoopFree(ds, p[0]) && forall x :: x in p ==> HasId(ds, x)
    ensures |p| <= |ds|
  {
    LoopFreeWalkIsDistinct(ds, p);
    hide Edges, LoopFree;
    var ids := seq(|ds|, i requires 0 <= i < |ds| => ds[i].id);
    forall x | x in p ensures x in ids {
      var i :| 0 <= i < |ds| && ds[i].id == x;
      assert ids[i] == x;
    }
    DistinctFit(p, ids);
  }

  lemma {:induction false} SettlesFrom(ds: seq<Decision>, p: seq<i64>, d: Decision, t: i64, n: nat)
    requires Walk(Edges(ds), p) && LoopFree(ds, p[0]) && (forall x :: x in p ==> HasId(ds, x))
    requires d in ds && p[|p| - 1] == d.id && |p| + n > |ds|
    ensures Reaches(ds, d, t, n).Some?
    decreases n, 0
  {
    if d.id != t {
      hide LoopFree;
      if n == 0 {
        WalkFits(ds, p);
      } else {
        SettlesAmong(ds, p, d, d.supersedes, t, n - 1);
      }
    }
  }

  lemma {:induction false} SettlesAmong(ds: seq<Decision>, p: seq<i64>, d: Decision, ids: seq<i64>, t: i64, n: nat)
    requires Walk(Edges(ds), p) && LoopFree(ds, p[0]) && (forall x :: x in p ==> HasId(ds, x))
    requires d in ds && p[|p| - 1] == d.id && |p| + n >= |ds| && forall x :: x in ids ==> x in d.supersedes
    ensures ReachesAny(ds, ids, t, n).Some?
    decreases n, |ids| + 1
  {
    hide LoopFree;
    if ids != [] {
      var at := FindDecision(ds, ids[0]);
      if at.Some? {
        var q := p + [ids[0]];
        assert (d.id, ids[0]) in Edges(ds);
        forall i | 0 <= i < |q| - 1 ensures (q[i], q[i + 1]) in Edges(ds) {
          assert i < |p| - 1 ==> (p[i], p[i + 1]) in Edges(ds);
        }
        assert HasId(ds, ids[0]);
        SettlesFrom(ds, q, ds[at.value], t, n);
      }
      SettlesAmong(ds, p, d, ids[1..], t, n);
    }
  }

  /** Once settled, a search has the same answer however deep it may go. */
  lemma {:induction false} Deeper(ds: seq<Decision>, d: Decision, t: i64, n: nat, more: nat)
    requires Reaches(ds, d, t, n).Some? && n <= more
    ensures Reaches(ds, d, t, more) == Reaches(ds, d, t, n)
    decreases n, 0
  {
    if d.id != t {
      DeeperAmong(ds, d.supersedes, t, n - 1, more - 1);
    }
  }

  lemma {:induction false} DeeperAmong(ds: seq<Decision>, ids: seq<i64>, t: i64, n: nat, more: nat)
    requires ReachesAny(ds, ids, t, n).Some? && n <= more
    ensures ReachesAny(ds, ids, t, more) == ReachesAny(ds, ids, t, n)
    decreases n, |ids| + 1
  {
    if ids != [] {
      var at := FindDecision(ds, ids[0]);
      if at.Some? {
        Deeper(ds, ds[at.value], t, n, more);
      }
      if at.None? || Reaches(ds, ds[at.value], t, n) == Some(false) {
        DeeperAmong(ds, ids[1..], t, n, more);
      }
    }
  }

  /** Going around a closed walk uses up any depth. */
  lemma {:induction false} LoopNeverSettles(ds: seq<Decision>, p: seq<i64>, t: i64, n: nat)
    requires LinksSound(ds) && Closed(Edges(ds), p)
    ensures HasId(ds, p[0]) && Reaches(ds, First(ds, p[0]), t, n) != Some(false)
    decreases n
  {
    assert (p[0], p[1]) in Edges(ds);
    if Reaches(ds, First(ds, p[0]), t, n) == Some(false) {
      hide LinksSound, Edges;
      NotFoundAlong(ds, p, t, n);
      LoopNeverSettles(ds, p, t, n + 1 - |p|);
    }
  }

  /** A search for a target that links do not lead to ends exactly when no closed walk can be entered from where it
      starts; it then ends within as many links as there are decisions. */
  lemma SearchEndsExactlyOffLoops(ds: seq<Decision>, a: i64, t: i64)
    requires LinksSound(ds) && HasId(ds, a) && !Connected(ds, a, t)
    ensures LoopFree(ds, a) <==> Ends(ds, First(ds, a), t)
    ensures LoopFree(ds, a) ==> Reaches(ds, First(ds, a), t, |ds|) == Some(false)
  {
    var d := First(ds, a);
    hide LinksSound, Edges, Connected;
    if LoopFree(ds, a) {
      SettlesFrom(ds, [a], d, t, |ds|);
      SearchDecidesConnection(ds, a, t, |ds|);
    }
    if Ends(ds, d, t) {
      var n: nat :| Reaches(ds, d, t, n).Some?;
      SearchDecidesConnection(ds, a, t, n);
      forall p: seq<i64> | Closed(Edges(ds), p) ensures !Connected(ds, a, p[0]) {
        EndedOffLoop(ds, a, t, n, p);
      }
    }
  }

  lemma EndedOffLoop(ds: seq<Decision>, a: i64, t: i64, n: nat, p: seq<i64>)
    requires LinksSound(ds) && HasId(ds, a) && Reaches(ds, First(ds, a), t, n) == Some(false) && Closed(Edges(ds), p)
    ensures !Connected(ds, a, p[0])
  {
    hide LinksSound, Edges;
    if Connected(ds, a, p[0]) {
      var lead :| Walk(Edges(ds), lead) && lead[0] == a && lead[|lead| - 1] == p[0];
      NotFoundAlong(ds, lead, t, n);
      LoopNeverSettles(ds, p, t, n + 1 - |lead|);
    }
  }

  // ---- how deep it need be followed ----

  /** Searches that settle only at depth `n` lead to others that settle only at the depths before it. */
  lemma {:induction false} LateChild(ds: seq<Decision>, ids: seq<i64>, t: i64, n: nat) returns (d: Decision)
    requires n > 0 && ReachesAny(ds, ids, t, n).Some? && ReachesAny(ds, ids, t, n - 1).None?
    ensures d in ds && Reaches(ds, d, t, n).Some? && Reaches(ds, d, t, n - 1).None?
  {
    var at := FindDecision(ds, ids[0]);
    if at.Some? && Reaches(ds, ds[at.value], t, n - 1).None? {
      d := ds[at.value];
    } else {
      if at.Some? {
        Deeper(ds, ds[at.value], t, n - 1, n);
      }
      d := LateChild(ds, ids[1..], t, n);
    }
  }

  lemma {:induction false} LateChain(ds: seq<Decision>, d: Decision, t: i64, n: nat) returns (p: seq<Decision>)
    requires d in ds && n > 0 && Reaches(ds, d, t, n).Some? && Reaches(ds, d, t, n - 1).None?
    ensures |p| == n && Distinct(p) && forall x :: x in p ==> x in ds && Reaches(ds, x, t, n).Some?
    decreases n
  {
    if n == 1 {
      p := [d];
    } else {
      var child := LateChild(ds, d.supersedes, t, n - 1);
      var rest := LateChain(ds, child, t, n - 1);
      forall x | x in rest ensures x != d && Reaches(ds, x, t, n).Some? {
        Deeper(ds, x, t, n - 1, n);
      }
      p := [d] + rest;
    }
  }

  lemma {:induction false} UnsettledStays(ds: seq<Decision>, d: Decision, t: i64, n: nat)
    requires d in ds && Reaches(ds, d, t, |ds|).None?
    ensures Reaches(ds, d, t, n).None?
    decreases n
  {
    if Reaches(ds, d, t, n).Some? {
      if n <= |ds| {
        Deeper(ds, d, t, n, |ds|);
      } else {
        UnsettledStays(ds, d, t, n - 1);
        var p := LateChain(ds, d, t, n);
        DistinctFit(p, ds);
      }
    }
  }

  /** Whatever the snapshot, the recursion ends exactly when as many links as there are decisions settle it. */
  lemma DepthSuffices(ds: seq<Decision>, d: Decision, t: i64)
    requires d in ds
    ensures Ends(ds, d, t) <==> Reaches(ds, d, t, |ds|).Some?
  {
    if Ends(ds, d, t) && Reaches(ds, d, t, |ds|).None? {
      var n: nat :| Reaches(ds, d, t, n).Some?;
      UnsettledStays(ds, d, t, n);
    }
  }

  // ---- in the gate ----

  lemma ConnectedIsSuperseded(ds: seq<Decision>, a: i64, b: i64)
    requires LinksSound(ds) && HasId(ds, b) && Connected(ds, a, b) && a != b
    ensures First(ds, b).status == Lifecycle.Superseded
  {
    var p :| Walk(Edges(ds), p) && p[0] == a && p[|p| - 1] == b;
    var i := |p| - 2;
    assert (p[i], p[i + 1]) in Backlinks(ds);
    var d :| d in ds && d.id == b && p[i] in d.supersededBy;
  }

  /** The search never refuses a supersession the status checks let through. */
  lemma ReachRefusalIsRedundant(w: World, log: seq<Commit>, op: Operation, n: nat)
    requires w.genesis.decisions == [] && IsLedger(w, log) && BothAccepted(Replay(w.genesis, log).decisions, op)
    ensures Reaches(Replay(w.genesis, log).decisions, First(Replay(w.genesis, log).decisions, op.successorRecordId),
      op.recordId, n) != Some(true)
  {
    hide Admitted;
    LinksAreReciprocal(w, log);
    hide Replay, LinksSound, Connected;
    var ds := Replay(w.genesis, log).decisions;
    AcceptedIsUnconnected(ds, op);
    if Reaches(ds, First(ds, op.successorRecordId), op.recordId, n) == Some(true) {
      FoundIsConnected(ds, First(ds, op.successorRecordId), op.recordId, n);
    }
  }

  lemma AcceptedIsUnconnected(ds: seq<Decision>, op: Operation)
    requires LinksSound(ds) && BothAccepted(ds, op)
    ensures HasId(ds, op.successorRecordId) && HasId(ds, op.recordId)
    ensures !Connected(ds, op.successorRecordId, op.recordId)
  {
    hide Connected, Edges;
    if Connected(ds, op.successorRecordId, op.recordId) {
      ConnectedIsSuperseded(ds, op.successorRecordId, op.recordId);
    }
  }

  /** Past the status checks the search of the gate ends exactly when no closed walk can be entered from the
      successor, and the supersession then passes if it carries a rationale. So of all that pass the status checks
      with one, `MaySupersede` refuses only those on which the recursion of the program never ends. */
  ghost predicate EndsExactlyOffLoops(ds: seq<Decision>, op: Operation)
    requires HasId(ds, op.successorRecordId)
  {
    var from := First(ds, op.successorRecordId);
    && (LoopFree(ds, op.successorRecordId) <==> Ends(ds, from, op.recordId))
    && (MaySupersede(ds, op) <==> LoopFree(ds, op.successorRecordId) && op.payload != [])
  }

  lemma PermittedEndsExactlyOffLoops(ds: seq<Decision>, op: Operation)
    requires LinksSound(ds) && BothAccepted(ds, op)
    ensures HasId(ds, op.successorRecordId) && EndsExactlyOffLoops(ds, op)
  {
    hide Connected, LoopFree, LinksSound, Edges;
    AcceptedIsUnconnected(ds, op);
    SearchEndsExactlyOffLoops(ds, op.successorRecordId, op.recordId);
    var from := First(ds, op.successorRecordId);
    assert MaySupersede(ds, op) ==> Reaches(ds, from, op.recordId, |ds|).Some?;
  }

  lemma GateEndsExactlyOffLoops(w: World, log: seq<Commit>, op: Operation)
    requires w.genesis.decisions == [] && IsLedger(w, log) && BothAccepted(Replay(w.genesis, log).decisions, op)
    ensures HasId(Replay(w.genesis, log).decisions, op.successorRecordId)
    ensures EndsExactlyOffLoops(Replay(w.genesis, log).decisions, op)
  {
    hide Admitted, Replay, LinksSound, EndsExactlyOffLoops, BothAccepted;
    LinksAreReciprocal(w, log);
    PermittedEndsExactlyOffLoops(Replay(w.genesis, log).decisions, op);
  }

  /** In a ledger whose transactions are acyclic one by one, every search from every decision settles within as many
      links as there are decisions. */
  lemma AcyclicSearchesSettle(w: World, log: seq<Commit>, d: Decision, t: i64)
    requires w.genesis.decisions == [] && IsLedger(w, log) && EachAcyclic(log)
    requires d in Replay(w.genesis, log).decisions
    ensures Reaches(Replay(w.genesis, log).decisions, d, t, |Replay(w.genesis, log).decisions|).Some?
  {
    hide Admitted;
    AcyclicExactlyPerTransaction(w, log);
    hide EachAcyclic, Replay, Edges;
    var ds := Replay(w.genesis, log).decisions;
    assert HasId(ds, d.id);
    assert LoopFree(ds, d.id) by { hide Connected; }
    hide Acyclic, LoopFree;
    SettlesFrom(ds, [d.id], d, t, |ds|);
  }
}
