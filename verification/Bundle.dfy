/** The read plane: view resolution and the budgeted bundle (resolve_view and build_bundle in src/persistence.cpp). */
module Bundle {
  import opened Prelude
  import opened Cognition
  import opened Text
  import opened Transactions
  import opened Gates
  import opened History
  import opened GateChecks

  // ---- views ----

  datatype Resolution = Resolved(view: ViewSpec) | NotFound | InvalidRefs

  function Resolve(s: Snapshot, id: Str): Resolution {
    match Find(s.views, (v: ViewSpec) => v.id == id)
    case None => NotFound
    case Some(i) =>
      if s.views[i].profileRefs != [] && RefsResolve(s.profiles,
          s.views[i].profileRefs) then Resolution.Resolved(s.views[i]) else InvalidRefs
  }

  method ResolveView(s: Snapshot, id: Str) returns (r: Resolution)
    ensures r == Resolve(s, id)
  {
    assert s.views[0..] == s.views;
    for i := 0 to |s.views|
      invariant forall j :: 0 <= j < i ==> s.views[j].id != id
    {
      if s.views[i].id == id {
        assert Find(s.views, (v: ViewSpec) => v.id == id) == Some(i);
        if s.views[i].profileRefs == [] {
          return InvalidRefs;
        }
        var ok := ResolveAll(s.profiles, s.views[i].profileRefs);
        return if ok then Resolution.Resolved(s.views[i]) else InvalidRefs;
      }
    }
    return NotFound;
  }

  /** In a sound snapshot, hence in every reachable one, resolution never fails on references: an id resolves to a
      view exactly when some view carries it. */
  lemma SoundViewsResolve(s: Snapshot, id: Str)
    requires Sound(s)
    ensures Resolve(s, id) != InvalidRefs
    ensures Resolve(s, id).Resolved? <==> exists i :: 0 <= i < |s.views| && s.views[i].id == id
  {
    var at := Find(s.views, (v: ViewSpec) => v.id == id);
    if at.Some? {
      assert ViewResolves(s.profiles, s.views[at.value]);
    }
  }

  /** The diagnostic as the header describes it: duplicated references fail too. */
  function DescribedResolve(s: Snapshot, id: Str): Resolution {
    match Find(s.views, (v: ViewSpec) => v.id == id)
    case None => NotFound
    case Some(i) => if ViewResolves(s.profiles, s.views[i]) then Resolution.Resolved(s.views[i]) else InvalidRefs
  }

  /** The code departs from the description exactly when the first view of the id names profiles that all exist, and
      names one of them twice; no sound snapshot, hence no reachable one, holds such a view. */
  lemma ResolvesAsDescribedExactly(s: Snapshot, id: Str)
    ensures var at := Find(s.views, (v: ViewSpec) => v.id == id);
      Resolve(s, id) != DescribedResolve(s, id) <==>
        at.Some? && var refs := s.views[at.value].profileRefs;
          refs != [] && RefsResolve(s.profiles, refs) && exists i, j :: 0 <= i < j < |refs| && refs[i] == refs[j]
    ensures Sound(s) ==> Resolve(s, id) == DescribedResolve(s, id)
  {
    if Sound(s) {
      var at := Find(s.views, (v: ViewSpec) => v.id == id);
      assert at.Some? ==> ViewResolves(s.profiles, s.views[at.value]);
    }
  }

  // ---- the budgeted selection ----

  datatype BundleCandidate = BundleCandidate(kind: Str, id: Str, summary: Str)
  datatype Item = Item(candidate: BundleCandidate, what: Str)

  /** Approximate tokens: four characters each, rounded up. */
  function Cost(item: Item): nat { (|item.candidate.summary| + 3) / 4 }

  datatype Selection = Selection(used: nat, candidates: seq<BundleCandidate>, omissions: seq<Str>)

  /** In order, each item is taken when it still fits. */
  function Fill(items: seq<Item>, budget: nat): Selection {
    if items == [] then Selection(0, [], []) else Take(Fill(items[..|items| - 1], budget), items[|items| - 1], budget)
  }

  function Take(s: Selection, item: Item, budget: nat): Selection {
    if s.used + Cost(item) <= budget then s.(used := s.used + Cost(item), candidates := s.candidates + [item.candidate])
    else s.(omissions := s.omissions + [item.what])
  }

  /** Which items are taken. */
  function Taken(items: seq<Item>, budget: nat): (mask: seq<bool>)
    ensures |mask| == |items|
  {
    if items == [] then []
    else Taken(items[..|items| - 1], budget) + [Fill(items[..|items| - 1],
        budget).used + Cost(items[|items| - 1]) <= budget]
  }

  function Spent(items: seq<Item>, mask: seq<bool>): nat
    requires |mask| == |items|
  {
    if items == [] then 0
    else Spent(items[..|items| - 1], mask[..|mask| - 1]) + if mask[|mask| - 1] then Cost(items[|items| - 1]) else 0
  }

  function Candidates(items: seq<Item>, mask: seq<bool>): seq<BundleCandidate>
    requires |mask| == |items|
  {
    if items == [] then []
    else Candidates(items[..|items| - 1],
        mask[..|mask| - 1]) + if mask[|mask| - 1] then [items[|items| - 1].candidate] else []
  }

  function Omissions(items: seq<Item>, mask: seq<bool>): seq<Str>
    requires |mask| == |items|
  {
    if items == [] then []
    else Omissions(items[..|items| - 1],
        mask[..|mask| - 1]) + if mask[|mask| - 1] then [] else [items[|items| - 1].what]
  }

  lemma {:induction false} FillPartitions(items: seq<Item>, budget: nat)
    ensures var mask := Taken(items, budget);
      Fill(items, budget) == Selection(Spent(items, mask), Candidates(items, mask), Omissions(items, mask))
  {
    if items != [] {
      hide Cost;
      var init := items[..|items| - 1];
      FillPartitions(init, budget);
      assert Taken(items, budget)[..|items| - 1] == Taken(init, budget);
    }
  }

  lemma {:induction false} FillFits(items: seq<Item>, budget: nat)
    ensures Fill(items, budget).used <= budget
    ensures forall i :: 0 <= i < |items| && !Taken(items, budget)[i] ==> Fill(items, budget).used + Cost(items[i]) > budget
  {
    if items != [] {
      var init, last := items[..|items| - 1], items[|items| - 1];
      FillFits(init, budget);
      assert Fill(items, budget) == Take(Fill(init, budget), last, budget);
      assert Taken(items, budget) == Taken(init, budget) + [Fill(init, budget).used + Cost(last) <= budget];
      hide Cost, Fill, Taken;
      forall i | 0 <= i < |items| && !Taken(items, budget)[i] ensures Fill(items, budget).used + Cost(items[i]) > budget {
        if i < |init| {
          assert init[i] == items[i] && !Taken(init, budget)[i];
        }
      }
    }
  }

  /** Every item appears exactly once and in order, as a candidate or as an omission; the candidates stay within the
      budget; and no omitted item would fit into what is left at the end. */
  lemma GreedyWithinBudget(items: seq<Item>, budget: nat)
    ensures var mask, filled := Taken(items, budget), Fill(items, budget);
      && filled == Selection(Spent(items, mask), Candidates(items, mask), Omissions(items, mask))
      && filled.used <= budget
      && forall i :: 0 <= i < |items| && !mask[i] ==> filled.used + Cost(items[i]) > budget
  {
    hide Fill, Taken, Spent, Candidates, Omissions, Cost;
    FillPartitions(items, budget);
    FillFits(items, budget);
  }

  /** Item `i` is taken exactly when it fits after the items taken before it. */
  predicate TakenIfFits(items: seq<Item>, mask: seq<bool>, budget: nat, i: nat)
    requires |mask| == |items| && i < |items|
  {
    mask[i] <==> Spent(items[..i], mask[..i]) + Cost(items[i]) <= budget
  }

  lemma TakenIfFitsPrefix(items: seq<Item>, mask: seq<bool>, budget: nat, i: nat)
    requires |mask| == |items| && i < |items| - 1 && TakenIfFits(items, mask, budget, i)
    ensures TakenIfFits(items[..|items| - 1], mask[..|mask| - 1], budget, i)
  {
    hide Spent, Cost;
    var init, short := items[..|items| - 1], mask[..|mask| - 1];
    assert init[..i] == items[..i] && short[..i] == mask[..i];
  }

  /** Taking whatever fits next is the only selection that leaves out exactly the items that did not fit. */
  lemma {:induction false} GreedyIsUnique(items: seq<Item>, budget: nat, mask: seq<bool>)
    requires |mask| == |items| && forall i :: 0 <= i < |items| ==> TakenIfFits(items, mask, budget, i)
    ensures mask == Taken(items, budget)
  {
    if items != [] {
      var init, short, last := items[..|items| - 1], mask[..|mask| - 1], items[|items| - 1];
      assert Taken(items, budget) == Taken(init, budget) + [Fill(init, budget).used + Cost(last) <= budget];
      assert TakenIfFits(items, mask, budget, |items| - 1);
      assert mask[|mask| - 1] <==> Spent(init, short) + Cost(last) <= budget;
      hide Cost, Fill, Taken, Spent, TakenIfFits;
      forall i | 0 <= i < |init| ensures TakenIfFits(init, short, budget, i) {
        TakenIfFitsPrefix(items, mask, budget, i);
      }
      GreedyIsUnique(init, budget, short);
      FillPartitions(init, budget);
      assert mask == short + [mask[|mask| - 1]];
    }
  }

  // ---- the bundle ----

  datatype Evaluation = Met | Unknown | Unmet
  datatype ContextBundle = ContextBundle(snapshot: RevisionId, mandatoryInputs: seq<Str>,
      protectedConstraints: seq<Str>,
    candidates: seq<BundleCandidate>, obligations: seq<(i64, Evaluation)>, omissions: seq<Str>)

  const DEFAULT_BUDGET: nat := 512

  function DecisionItem(d: Decision): Item {
    Item(BundleCandidate(Ascii("decision"), Decimal(d.id),
           (if d.status == Lifecycle.Accepted then Ascii("accepted: ") else Ascii("lifecycle: ")) + d.title),
         Ascii("decision ") + Decimal(d.id))
  }

  function MemoryItem(m: MemoryRecord): Item {
    Item(BundleCandidate(Ascii("memory"), m.title, m.statement), Ascii("memory ") + m.title)
  }

  predicate Listed(m: MemoryRecord) { m.status.Active? && !m.kind.NegativeKnowledge? }

  function DecisionItems(ds: seq<Decision>): seq<Item> {
    if ds == [] then [] else DecisionItems(ds[..|ds| - 1]) + [DecisionItem(ds[|ds| - 1])]
  }

  function MemoryItems(ms: seq<MemoryRecord>): seq<Item> {
    if ms == [] then [] else MemoryItems(ms[..|ms| - 1]) + if Listed(ms[|ms| - 1]) then [MemoryItem(ms[|ms| - 1])] else []
  }

  /** Every decision, then every active memory record that is not negative knowledge. */
  function Items(s: Snapshot): seq<Item> { DecisionItems(s.decisions) + MemoryItems(s.memory) }

  function ArticleFloors(articles: seq<Str>): seq<Str> {
    if articles == [] then [] else ArticleFloors(articles[..|articles| - 1]) + [Ascii("constitution: ") + articles[|articles| - 1]]
  }

  function ConflictFloors(cs: seq<Conflict>): seq<Str> {
    if cs == [] then []
    else
      var c := cs[|cs| - 1];
      ConflictFloors(cs[..|cs| - 1]) +
        if c.status == ConflictStatus.Open then [Ascii("OPEN CONFLICT ") + c.id + Ascii(": ") + c.description] else []
  }

  function NegativeFloors(ms: seq<MemoryRecord>): seq<Str> {
    if ms == [] then []
    else
      var m := ms[|ms| - 1];
      NegativeFloors(ms[..|ms| - 1]) +
        if m.kind.NegativeKnowledge? && m.status.Active? then [Ascii("negative knowledge: ") + m.statement] else []
  }

  function BoundaryFloor(ref: Str,
      o: Obligation): Str { Ascii("next boundary: obligation ") + ref + Ascii(": ") + o.statement }

  /** The floor for the next boundary; None where reading the reference as a number throws. */
  function BoundaryFloors(s: Snapshot): Option<seq<Str>> {
    var ref := s.state.nextBoundaryRef;
    if ref == [] then Some([])
    else
      match Stoll(ref)
      case None => None
      case Some(id) =>
        match FindObligation(s.obligations, id)
        case None => Some([])
        case Some(i) => Some([BoundaryFloor(ref, s.obligations[i])])
  }

  function Floors(s: Snapshot): Option<seq<Str>> {
    match BoundaryFloors(s)
    case None => None
    case Some(boundary) =>
      Some([Ascii("governance: ") + s.rootPrincipal] + ArticleFloors(s.articles) + [Ascii("objective: ") + s.state.objective]
        + boundary + ConflictFloors(s.conflicts) + NegativeFloors(s.memory))
  }

  function RowConstraints(row: HandoffPolicy): seq<Str> {
    (if row.required == Handoff.Review then [Ascii("H2 review evidence is mandatory for this operation class")] else [])
    + if row.rootPrincipalOnly then [Ascii("root-principal governance class")] else []
  }

  function PolicyConstraints(rows: seq<HandoffPolicy>): seq<Str> {
    if rows == [] then [] else PolicyConstraints(rows[..|rows| - 1]) + RowConstraints(rows[|rows| - 1])
  }

  function Constraints(s: Snapshot): seq<Str> {
    PolicyConstraints(s.policy.handoff)
    + [Ascii("typed handoffs are never verbally waived (ADR-0036)"),
        Ascii("unattended automation is read-only (ADR-0036)")]
  }

  function Evaluate(o: Obligation): (i64, Evaluation) {
    (o.id, match o.status case Done => Met case Cancelled => Met case Superseded => Met
                          case Open => Unknown case Deferred => Unknown case Blocked => Unmet)
  }

  function Evaluations(os: seq<Obligation>): seq<(i64, Evaluation)> {
    if os == [] then [] else Evaluations(os[..|os| - 1]) + [Evaluate(os[|os| - 1])]
  }

  /** The bundle of a snapshot; None where the program throws on an unreadable boundary reference. */
  function Build(s: Snapshot, revision: RevisionId, tokenBudget: nat): Option<ContextBundle> {
    match Floors(s)
    case None => None
    case Some(floors) =>
      var filled := Fill(Items(s), if tokenBudget == 0 then DEFAULT_BUDGET else tokenBudget);
      Some(ContextBundle(revision, floors, Constraints(s), filled.candidates, Evaluations(s.obligations),
          filled.omissions))
  }

  /** The program throws exactly on a boundary that is set and is not a number, whatever the budget. */
  lemma ThrowsExactlyOnUnreadable(s: Snapshot, revision: RevisionId, tokenBudget: nat)
    ensures Build(s, revision, tokenBudget).None? <==>
      s.state.nextBoundaryRef != [] && Stoll(s.state.nextBoundaryRef).None?
  {
    hide Stoll, Fill, Items, Constraints, Evaluations, ArticleFloors, ConflictFloors, NegativeFloors;
  }

  /** The loop over the decisions. */
  method SelectDecisions(ds: seq<Decision>, budget: nat) returns (selection: Selection)
    ensures selection == Fill(DecisionItems(ds), budget)
  {
    assert Fill([], budget) == Selection(0, [], []);
    hide Ascii, Decimal, Fill;
    var used: nat, candidates, omissions := 0, [], [];
    for i := 0 to |ds|
      invariant Selection(used, candidates, omissions) == Fill(DecisionItems(ds[..i]), budget)
    {
      var d := ds[i];
      assert ds[..i + 1][..i] == ds[..i];
      var candidate := BundleCandidate(Ascii("decision"), Decimal(d.id),
        (if d.status == Lifecycle.Accepted then Ascii("accepted: ") else Ascii("lifecycle: ")) + d.title);
      var what := Ascii("decision ") + Decimal(d.id);
      assert Item(candidate, what) == DecisionItem(d);
      hide DecisionItem;
      FillStep(DecisionItems(ds[..i]), Item(candidate, what), budget);
      var cost := (|candidate.summary| + 3) / 4;
      if used + cost <= budget {
        candidates := candidates + [candidate];
        used := used + cost;
      } else {
        omissions := omissions + [what];
      }
    }
    assert ds[..|ds|] == ds;
    selection := Selection(used, candidates, omissions);
  }

  /** The loop over the memory records continues where the decisions left off. */
  method SelectMemory(ms: seq<MemoryRecord>, ghost first: seq<Item>, start: Selection,
      budget: nat) returns (selection: Selection)
    requires start == Fill(first, budget)
    ensures selection == Fill(first + MemoryItems(ms), budget)
  {
    hide Ascii, Fill;
    var used: nat, candidates, omissions := start.used, start.candidates, start.omissions;
    assert first + MemoryItems([]) == first;
    for i := 0 to |ms|
      invariant Selection(used, candidates, omissions) == Fill(first + MemoryItems(ms[..i]), budget)
    {
      var m := ms[i];
      ghost var now := MemoryItems(ms[..i]);
      assert ms[..i + 1][..i] == ms[..i];
      if m.status.Active? && !m.kind.NegativeKnowledge? {
        assert first + (now + [MemoryItem(m)]) == (first + now) + [MemoryItem(m)];
        FillStep(first + now, MemoryItem(m), budget);
        var cost := (|m.statement| + 3) / 4;
        if used + cost <= budget {
          candidates := candidates + [BundleCandidate(Ascii("memory"), m.title, m.statement)];
          used := used + cost;
        } else {
          omissions := omissions + [Ascii("memory ") + m.title];
        }
      } else {
        assert now + [] == now;
      }
    }
    assert ms[..|ms|] == ms;
    selection := Selection(used, candidates, omissions);
  }

  method CollectFloors(s: Snapshot) returns (floors: Option<seq<Str>>)
    ensures floors == Floors(s)
  {
    hide Ascii, Stoll, BoundaryFloor;
    var out: seq<Str> := [Ascii("governance: ") + s.rootPrincipal];
    ghost var start := out;
    for i := 0 to |s.articles|
      invariant out == start + ArticleFloors(s.articles[..i])
    {
      assert s.articles[..i + 1][..i] == s.articles[..i];
      out := out + [Ascii("constitution: ") + s.articles[i]];
    }
    assert s.articles[..|s.articles|] == s.articles;
    out := out + [Ascii("objective: ") + s.state.objective];
    if s.state.nextBoundaryRef != [] {
      var id := Stoll(s.state.nextBoundaryRef);
      if id.None? {
        return None;
      }
      var at := Search(s.obligations, (o: Obligation) => o.id == id.value);
      if at.Some? {
        out := out + [BoundaryFloor(s.state.nextBoundaryRef, s.obligations[at.value])];
      }
    }
    assert out == start + ArticleFloors(s.articles) + [Ascii("objective: ") + s.state.objective] + BoundaryFloors(s).value;
    hide ArticleFloors;
    ghost var upper := out;
    for i := 0 to |s.conflicts|
      invariant out == upper + ConflictFloors(s.conflicts[..i])
    {
      var c := s.conflicts[i];
      assert s.conflicts[..i + 1][..i] == s.conflicts[..i];
      if c.status == ConflictStatus.Open {
        out := out + [Ascii("OPEN CONFLICT ") + c.id + Ascii(": ") + c.description];
      }
    }
    assert s.conflicts[..|s.conflicts|] == s.conflicts;
    upper := out;
    for i := 0 to |s.memory|
      invariant out == upper + NegativeFloors(s.memory[..i])
    {
      var m := s.memory[i];
      assert s.memory[..i + 1][..i] == s.memory[..i];
      if m.kind.NegativeKnowledge? && m.status.Active? {
        out := out + [Ascii("negative knowledge: ") + m.statement];
      }
    }
    assert s.memory[..|s.memory|] == s.memory;
    floors := Some(out);
  }

  method CollectConstraints(s: Snapshot) returns (out: seq<Str>)
    ensures out == Constraints(s)
  {
    hide Ascii;
    out := [];
    for i := 0 to |s.policy.handoff|
      invariant out == PolicyConstraints(s.policy.handoff[..i])
    {
      var row := s.policy.handoff[i];
      assert s.policy.handoff[..i + 1][..i] == s.policy.handoff[..i];
      if row.required == Handoff.Review {
        out := out + [Ascii("H2 review evidence is mandatory for this operation class")];
      }
      if row.rootPrincipalOnly {
        out := out + [Ascii("root-principal governance class")];
      }
    }
    assert s.policy.handoff[..|s.policy.handoff|] == s.policy.handoff;
    out := out + [Ascii("typed handoffs are never verbally waived (ADR-0036)"),
        Ascii("unattended automation is read-only (ADR-0036)")];
  }

  method EvaluateObligations(os: seq<Obligation>) returns (out: seq<(i64, Evaluation)>)
    ensures out == Evaluations(os)
  {
    out := [];
    for i := 0 to |os|
      invariant out == Evaluations(os[..i])
    {
      assert os[..i + 1][..i] == os[..i];
      out := out + [Evaluate(os[i])];
    }
    assert os[..|os|] == os;
  }

  method BuildBundle(s: Snapshot, revision: RevisionId, tokenBudget: nat) returns (bundle: Option<ContextBundle>)
    ensures bundle == Build(s, revision, tokenBudget)
  {
    hide Floors, Constraints, Fill, Evaluations, DecisionItems, MemoryItems;
    var floors := CollectFloors(s);
    if floors.None? {
      return None;
    }
    var constraints := CollectConstraints(s);
    var budget := if tokenBudget == 0 then DEFAULT_BUDGET else tokenBudget;
    var decisions := SelectDecisions(s.decisions, budget);
    var selection := SelectMemory(s.memory, DecisionItems(s.decisions), decisions, budget);
    var obligations := EvaluateObligations(s.obligations);
    bundle := Some(ContextBundle(revision, floors.value, constraints, selection.candidates, obligations,
        selection.omissions));
  }

  lemma FillStep(items: seq<Item>, item: Item, budget: nat)
    ensures Fill(items + [item], budget) == Take(Fill(items, budget), item, budget)
  {
    assert (items + [item])[..|items|] == items;
  }

  /** The floors name the next boundary, with the statement of an obligation of that id. */
  predicate BoundaryShown(s: Snapshot, bundle: ContextBundle) {
    var ref := s.state.nextBoundaryRef;
    exists i :: 0 <= i < |s.obligations| && Decimal(s.obligations[i].id) == ref
      && BoundaryFloor(ref, s.obligations[i]) in bundle.mandatoryInputs
  }

  /** In a sound snapshot the bundle always exists, and a next boundary that is set shows among its floors. */
  lemma SoundBundleIsTotal(s: Snapshot, revision: RevisionId, tokenBudget: nat)
    requires Sound(s)
    ensures Build(s, revision, tokenBudget).Some?
    ensures s.state.nextBoundaryRef != [] ==> BoundaryShown(s, Build(s, revision, tokenBudget).value)
  {
    hide ArticleFloors, ConflictFloors, NegativeFloors, Fill, Items, Evaluations, PolicyConstraints, Stoll, Decimal, Find;
    if s.state.nextBoundaryRef != [] {
      BoundaryReads(s);
      var i := FindObligation(s.obligations, Stoll(s.state.nextBoundaryRef).value).value;
      var floor := BoundaryFloor(s.state.nextBoundaryRef, s.obligations[i]);
      assert floor in BoundaryFloors(s).value;
      assert floor in Floors(s).value;
    }
  }

  lemma BoundaryReads(s: Snapshot)
    requires Coherent(s) && s.state.nextBoundaryRef != []
    ensures Stoll(s.state.nextBoundaryRef).Some?
    ensures var at := FindObligation(s.obligations, Stoll(s.state.nextBoundaryRef).value);
      at.Some? && Decimal(s.obligations[at.value].id) == s.state.nextBoundaryRef
  {
    hide Stoll, Decimal;
    var k :| 0 <= k < |s.obligations| && NamesBoundary(s.obligations[k], s.state.nextBoundaryRef);
    StollOfDecimal(s.obligations[k].id);
  }

  /** Floors and constraints are the same for every query. */
  lemma FloorsIgnoreTheBudget(s: Snapshot, revision: RevisionId, m: nat, n: nat)
    requires Build(s, revision, m).Some?
    ensures Build(s, revision, n).Some?
    ensures Build(s, revision, n).value.mandatoryInputs == Build(s, revision, m).value.mandatoryInputs
    ensures Build(s, revision, n).value.protectedConstraints == Build(s, revision, m).value.protectedConstraints
  {
  }

  // ---- restored snapshots give the same bundle ----

  lemma {:induction false} CanonItems(ms: seq<MemoryRecord>)
    ensures MemoryItems(Mapped(ms, CanonMemory)) == MemoryItems(ms) && NegativeFloors(Mapped(ms,
      CanonMemory)) == NegativeFloors(ms)
  {
    if ms != [] {
      CanonItems(ms[..|ms| - 1]);
      assert Mapped(ms, CanonMemory)[..|ms| - 1] == Mapped(ms[..|ms| - 1], CanonMemory);
    }
  }

  lemma {:induction false} CanonEvaluations(os: seq<Obligation>)
    ensures Evaluations(Mapped(os, CanonObligation)) == Evaluations(os)
  {
    if os != [] {
      CanonEvaluations(os[..|os| - 1]);
      assert Mapped(os, CanonObligation)[..|os| - 1] == Mapped(os[..|os| - 1], CanonObligation);
    }
  }

  lemma RestoredBundleIsSame(s: Snapshot, u: Snapshot, revision: RevisionId, tokenBudget: nat)
    requires Canon(s) == Canon(u)
    ensures Build(s, revision, tokenBudget) == Build(u, revision, tokenBudget)
  {
    CanonBundle(s, revision, tokenBudget);
    CanonBundle(u, revision, tokenBudget);
    hide Build;
  }

  lemma CanonBundle(s: Snapshot, revision: RevisionId, tokenBudget: nat)
    ensures Build(Canon(s), revision, tokenBudget) == Build(s, revision, tokenBudget)
  {
    hide ArticleFloors, ConflictFloors, NegativeFloors, Fill, Evaluations, PolicyConstraints, Stoll, DecisionItems,
        MemoryItems, BoundaryFloor;
    CanonItems(s.memory);
    CanonEvaluations(s.obligations);
    var ref := s.state.nextBoundaryRef;
    if Stoll(ref).Some? {
      CanonFinds(s, Stoll(ref).value);
    }
    CanonStatements(s, ref);
  }

  lemma CanonStatements(s: Snapshot, ref: Str)
    ensures forall i :: 0 <= i < |s.obligations| ==> BoundaryFloor(ref, Canon(s).obligations[i]) == BoundaryFloor(ref, s.obligations[i])
  {
  }
}
