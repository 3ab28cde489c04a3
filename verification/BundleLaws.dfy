/** What a bundle holds, entry by entry and from the records of the snapshot alone (build_bundle and resolve_view in
    src/persistence.cpp). */
module BundleLaws {
  import opened Prelude
  import opened Cognition
  import opened Text
  import opened Transactions
  import opened Gates
  import opened Bundle

  // ---- where the chosen records stand ----

  /** The places of the elements to keep. */
  function Where<T>(xs: seq<T>, keep: T -> bool): seq<nat> {
    if xs == [] then [] else Where(xs[..|xs| - 1], keep) + if keep(xs[|xs| - 1]) then [|xs| - 1] else []
  }

  /** Exactly those places, each once and in order. */
  ghost predicate Picks<T>(xs: seq<T>, keep: T -> bool, places: seq<nat>) {
    && (forall p :: p in places <==> 0 <= p < |xs| && keep(xs[p]))
    && (forall i, j :: 0 <= i < j < |places| ==> places[i] < places[j])
    && (forall i :: 0 <= i < |places| ==> places[i] < |xs| && keep(xs[places[i]]))
  }

  lemma {:induction false} WhereAreThose<T>(xs: seq<T>, keep: T -> bool)
    ensures Picks(xs, keep, Where(xs, keep))
  {
    if xs != [] {
      var init := xs[..|xs| - 1];
      WhereAreThose(init, keep);
      assert forall p :: 0 <= p < |init| ==> init[p] == xs[p];
      var before, places := Where(init, keep), Where(xs, keep);
      forall i | 0 <= i < |places| ensures places[i] < |xs| && keep(xs[places[i]]) {
        if i < |before| {
          assert places[i] == before[i];
        }
      }
    }
  }

  function OpenConflicts(s: Snapshot): seq<nat> { Where(s.conflicts, (c: Conflict) => c.status == ConflictStatus.Open) }
  function Warnings(s: Snapshot): seq<nat> { Where(s.memory,
      (m: MemoryRecord) => m.kind.NegativeKnowledge? && m.status.Active?) }

  // ---- the floors ----

  /** The obligation the next boundary names: the first of its number. */
  predicate BoundaryAt(s: Snapshot, i: nat) {
    && s.state.nextBoundaryRef != [] && i < |s.obligations| && Stoll(s.state.nextBoundaryRef) == Some(s.obligations[i].id)
    && forall j :: 0 <= j < i ==> s.obligations[j].id != s.obligations[i].id
  }

  ghost predicate ShowsBoundary(s: Snapshot) { exists i: nat :: BoundaryAt(s, i) }

  predicate ArticleFloorsAre(articles: seq<Str>, floors: seq<Str>) {
    |floors| == |articles| && forall i :: 0 <= i < |articles| ==> floors[i] == Ascii("constitution: ") + articles[i]
  }

  ghost predicate BoundaryFloorsAre(s: Snapshot, floors: seq<Str>) {
    && |floors| == (if ShowsBoundary(s) then 1 else 0)
    && forall i: nat :: BoundaryAt(s, i) ==>
         && |floors| == 1
         && floors[0] == Ascii("next boundary: obligation ") + s.state.nextBoundaryRef + Ascii(": ") + s.obligations[i].statement
  }

  predicate ConflictFloorsAre(cs: seq<Conflict>, places: seq<nat>, floors: seq<Str>) {
    && |floors| == |places|
    && forall i :: 0 <= i < |places| ==>
         places[i] < |cs| && floors[i] == Ascii("OPEN CONFLICT ") + cs[places[i]].id + Ascii(": ") + cs[places[i]].description
  }

  predicate WarningFloorsAre(ms: seq<MemoryRecord>, places: seq<nat>, floors: seq<Str>) {
    && |floors| == |places|
    && forall i :: 0 <= i < |places| ==>
         places[i] < |ms| && floors[i] == Ascii("negative knowledge: ") + ms[places[i]].statement
  }

  lemma {:induction false} ArticlesListed(articles: seq<Str>)
    ensures ArticleFloorsAre(articles, ArticleFloors(articles))
  {
    hide Ascii;
    if articles != [] {
      ArticlesListed(articles[..|articles| - 1]);
    }
  }

  lemma {:induction false} ConflictsListed(cs: seq<Conflict>)
    ensures ConflictFloorsAre(cs, Where(cs, (c: Conflict) => c.status == ConflictStatus.Open), ConflictFloors(cs))
  {
    hide Ascii;
    if cs != [] {
      ConflictsListed(cs[..|cs| - 1]);
    }
  }

  lemma {:induction false} WarningsListed(ms: seq<MemoryRecord>)
    ensures WarningFloorsAre(ms, Where(ms, (m: MemoryRecord) => m.kind.NegativeKnowledge? && m.status.Active?),
      NegativeFloors(ms))
  {
    hide Ascii;
    if ms != [] {
      WarningsListed(ms[..|ms| - 1]);
    }
  }

  lemma BoundaryListed(s: Snapshot)
    requires BoundaryFloors(s).Some?
    ensures BoundaryFloorsAre(s, BoundaryFloors(s).value)
  {
    hide Stoll, Ascii;
    if s.state.nextBoundaryRef != [] {
      var id := Stoll(s.state.nextBoundaryRef).value;
      var at := FindObligation(s.obligations, id);
      forall i: nat | BoundaryAt(s, i) ensures at == Some(i) {
        assert at.Some?;
      }
      if at.Some? {
        assert BoundaryAt(s, at.value);
      }
    }
  }

  /** The floors of a bundle stand in this order: governance, the articles, the objective, the next boundary when it
      names an obligation, every open conflict and every active warning; and nothing else is a floor. */
  lemma FloorsExactly(s: Snapshot, revision: RevisionId, tokenBudget: nat)
    requires Build(s, revision, tokenBudget).Some?
    ensures var floors := Build(s, revision, tokenBudget).value.mandatoryInputs;
      var articles, boundary := |s.articles|, if ShowsBoundary(s) then 1 else 0;
      var conflicts, warnings := |OpenConflicts(s)|, |Warnings(s)|;
      && |floors| == 2 + articles + boundary + conflicts + warnings
      && floors[0] == Ascii("governance: ") + s.rootPrincipal
      && ArticleFloorsAre(s.articles, floors[1..1 + articles])
      && floors[1 + articles] == Ascii("objective: ") + s.state.objective
      && BoundaryFloorsAre(s, floors[2 + articles..2 + articles + boundary])
      && ConflictFloorsAre(s.conflicts, OpenConflicts(s),
          floors[2 + articles + boundary..2 + articles + boundary + conflicts])
      && WarningFloorsAre(s.memory, Warnings(s), floors[2 + articles + boundary + conflicts..])
    ensures Picks(s.conflicts, (c: Conflict) => c.status == ConflictStatus.Open, OpenConflicts(s))
    ensures Picks(s.memory, (m: MemoryRecord) => m.kind.NegativeKnowledge? && m.status.Active?, Warnings(s))
  {
    hide Ascii, Stoll, Fill, Items, Constraints, Evaluations, BoundaryFloors, ArticleFloors, ConflictFloors,
        NegativeFloors, Where,
      Picks, ShowsBoundary, BoundaryAt;
    ArticlesListed(s.articles);
    BoundaryListed(s);
    ConflictsListed(s.conflicts);
    WarningsListed(s.memory);
    WhereAreThose(s.conflicts, (c: Conflict) => c.status == ConflictStatus.Open);
    WhereAreThose(s.memory, (m: MemoryRecord) => m.kind.NegativeKnowledge? && m.status.Active?);
    FloorsSplit([Ascii("governance: ") + s.rootPrincipal], ArticleFloors(s.articles),
        [Ascii("objective: ") + s.state.objective],
      BoundaryFloors(s).value, ConflictFloors(s.conflicts), NegativeFloors(s.memory));
  }

  lemma FloorsSplit(a: seq<Str>, b: seq<Str>, c: seq<Str>, d: seq<Str>, e: seq<Str>, f: seq<Str>)
    requires |a| == 1 && |c| == 1
    ensures var all := a + b + c + d + e + f; var n, m, k := |b|, |d|, |e|;
      && all[0] == a[0] && all[1..1 + n] == b && all[1 + n] == c[0] && all[2 + n..2 + n + m] == d
      && all[2 + n + m..2 + n + m + k] == e && all[2 + n + m + k..] == f
  {
  }

  // ---- the candidates ----

  function ListedMemory(s: Snapshot): seq<nat> {
    Where(s.memory, (m: MemoryRecord) => m.status.Active? && !m.kind.NegativeKnowledge?)
  }

  predicate DecisionItemsAre(ds: seq<Decision>, items: seq<Item>) {
    && |items| == |ds|
    && forall i :: 0 <= i < |ds| ==> DecisionItemIs(ds[i], items[i])
  }

  predicate DecisionItemIs(d: Decision, item: Item) {
    && item.candidate.kind == Ascii("decision") && item.candidate.id == Decimal(d.id)
    && item.candidate.summary == Ascii(if d.status == Lifecycle.Accepted then "accepted: " else "lifecycle: ") + d.title
    && item.what == Ascii("decision ") + Decimal(d.id)
  }

  predicate MemoryItemIs(m: MemoryRecord, item: Item) {
    && item.candidate == BundleCandidate(Ascii("memory"), m.title,
        m.statement) && item.what == Ascii("memory ") + m.title
  }

  predicate MemoryItemsAre(ms: seq<MemoryRecord>, places: seq<nat>, items: seq<Item>) {
    && |items| == |places|
    && forall i :: 0 <= i < |places| ==> places[i] < |ms| && MemoryItemIs(ms[places[i]], items[i])
  }

  lemma ItemOfDecision(d: Decision)
    ensures DecisionItemIs(d, DecisionItem(d))
  {
    hide Decimal;
  }

  lemma {:induction false} DecisionsItemized(ds: seq<Decision>)
    ensures DecisionItemsAre(ds, DecisionItems(ds))
  {
    hide Ascii, Decimal, DecisionItem, DecisionItemIs;
    if ds != [] {
      DecisionsItemized(ds[..|ds| - 1]);
      ItemOfDecision(ds[|ds| - 1]);
    }
  }

  lemma {:induction false} MemoryItemized(ms: seq<MemoryRecord>)
    ensures MemoryItemsAre(ms, Where(ms, (m: MemoryRecord) => m.status.Active? && !m.kind.NegativeKnowledge?),
      MemoryItems(ms))
  {
    hide Ascii;
    if ms != [] {
      MemoryItemized(ms[..|ms| - 1]);
    }
  }

  /** Considered are every decision and then every active memory record that is not a warning, each once and in order.
      */
  lemma ItemsExactly(s: Snapshot)
    ensures |Items(s)| == |s.decisions| + |ListedMemory(s)|
    ensures DecisionItemsAre(s.decisions, Items(s)[..|s.decisions|])
    ensures MemoryItemsAre(s.memory, ListedMemory(s), Items(s)[|s.decisions|..])
    ensures Picks(s.memory, (m: MemoryRecord) => m.status.Active? && !m.kind.NegativeKnowledge?, ListedMemory(s))
  {
    hide Ascii, Decimal, Where, Picks, DecisionItems, MemoryItems;
    DecisionsItemized(s.decisions);
    MemoryItemized(s.memory);
    WhereAreThose(s.memory, (m: MemoryRecord) => m.status.Active? && !m.kind.NegativeKnowledge?);
    assert Items(s)[..|s.decisions|] == DecisionItems(s.decisions);
    assert Items(s)[|s.decisions|..] == MemoryItems(s.memory);
  }

  /** The tokens of a list of candidates: each costs the least number of tokens of four characters that hold its
      summary. */
  predicate CostsLeast(summary: Str, n: nat) { |summary| <= 4 * n < |summary| + 4 }

  ghost predicate TokensAre(candidates: seq<BundleCandidate>, total: nat) {
    exists costs: seq<nat> :: |costs| == |candidates| && total == Sum(costs) && AllCostLeast(candidates, costs)
  }

  predicate AllCostLeast(candidates: seq<BundleCandidate>, costs: seq<nat>)
    requires |costs| == |candidates|
  {
    forall i :: 0 <= i < |costs| ==> CostsLeast(candidates[i].summary, costs[i])
  }

  function Sum(costs: seq<nat>): nat { if costs == [] then 0 else Sum(costs[..|costs| - 1]) + costs[|costs| - 1] }

  predicate TakenAre(items: seq<Item>, mask: seq<bool>, candidates: seq<BundleCandidate>, omissions: seq<Str>)
    requires |mask| == |items|
  {
    var chosen, left := Where(mask, (b: bool) => b), Where(mask, (b: bool) => !b);
    && |candidates| == |chosen| && |omissions| == |left|
    && (forall i :: 0 <= i < |chosen| ==> chosen[i] < |items| && candidates[i] == items[chosen[i]].candidate)
    && (forall i :: 0 <= i < |left| ==> left[i] < |items| && omissions[i] == items[left[i]].what)
  }

  lemma {:induction false} FillTakes(items: seq<Item>, budget: nat)
    ensures TakenAre(items, Taken(items, budget), Fill(items, budget).candidates, Fill(items, budget).omissions)
  {
    if items != [] {
      var init := items[..|items| - 1];
      FillTakes(init, budget);
      var mask := Taken(items, budget);
      assert mask[..|mask| - 1] == Taken(init, budget);
      hide Cost;
    }
  }

  lemma {:induction false} FillCosts(items: seq<Item>, budget: nat)
    ensures TokensAre(Fill(items, budget).candidates, Fill(items, budget).used)
  {
    if items == [] {
      assert AllCostLeast([], []) && Sum([]) == 0;
    } else {
      var init, last := items[..|items| - 1], items[|items| - 1];
      FillCosts(init, budget);
      var before := Fill(init, budget);
      var costs: seq<nat> :|
        |costs| == |before.candidates| && before.used == Sum(costs) && AllCostLeast(before.candidates, costs);
      var more := costs + [Cost(last)];
      assert more[..|more| - 1] == costs;
      if before.used + Cost(last) <= budget {
        assert Fill(items, budget).candidates == before.candidates + [last.candidate];
        assert AllCostLeast(Fill(items, budget).candidates, more);
      }
    }
  }

  /** What a budget buys: every item is a candidate or an omission, in order; the candidates stay within the budget, and
      none of the omissions would still fit. */
  lemma SelectionExactly(s: Snapshot, revision: RevisionId, tokenBudget: nat) returns (mask: seq<bool>, total: nat)
    requires Build(s, revision, tokenBudget).Some?
    ensures |mask| == |Items(s)|
    ensures var b := Build(s, revision, tokenBudget).value;
      && TakenAre(Items(s), mask, b.candidates, b.omissions) && TokensAre(b.candidates, total)
      && total <= (if tokenBudget == 0 then 512 else tokenBudget)
      && forall i :: 0 <= i < |mask| && !mask[i] ==>
           |Items(s)[i].candidate.summary| > 4 * ((if tokenBudget == 0 then 512 else tokenBudget) - total)
  {
    hide Floors, Constraints, Items, Evaluations, Fill, Taken, TakenAre, TokensAre;
    var budget := if tokenBudget == 0 then DEFAULT_BUDGET else tokenBudget;
    mask, total := Taken(Items(s), budget), Fill(Items(s), budget).used;
    FillTakes(Items(s), budget);
    FillCosts(Items(s), budget);
    FillFits(Items(s), budget);
  }

  // ---- constraints and obligations ----

  /** Two marks a row: whether it asks for a review, and whether it is the root principal's alone. */
  function Marks(rows: seq<HandoffPolicy>): (marks: seq<bool>)
    ensures |marks| == 2 * |rows|
  {
    seq(2 * |rows|, k requires 0 <= k < 2 * |rows| =>
      if k % 2 == 0 then rows[k / 2].required == Handoff.Review else rows[k / 2].rootPrincipalOnly)
  }

  const REVIEW_TEXT := "H2 review evidence is mandatory for this operation class"
  const ROOT_TEXT := "root-principal governance class"

  predicate MarkTexts(places: seq<nat>, texts: seq<Str>) {
    && |texts| == |places|
    && forall i :: 0 <= i < |places| ==> texts[i] == MarkText(places[i])
  }

  lemma WhereSnoc<T>(xs: seq<T>, x: T, keep: T -> bool)
    ensures Where(xs + [x], keep) == Where(xs, keep) + if keep(x) then [|xs|] else []
  {
    assert (xs + [x])[..|xs|] == xs;
  }

  function MarkText(place: nat): Str { Ascii(if place % 2 == 0 then REVIEW_TEXT else ROOT_TEXT) }

  lemma MarkSnoc(places: seq<nat>, texts: seq<Str>, place: nat)
    requires MarkTexts(places, texts)
    ensures MarkTexts(places + [place], texts + [MarkText(place)])
  {
    hide Ascii;
  }

  lemma RowListed(places: seq<nat>, texts: seq<Str>, row: HandoffPolicy, n: nat)
    requires MarkTexts(places, texts) && n % 2 == 0
    ensures MarkTexts(places + (if row.required == Handoff.Review then [n] else [])
      + (if row.rootPrincipalOnly then [n + 1] else []), texts + RowConstraints(row))
  {
    hide Ascii, MarkTexts;
    MarkSnoc(places, texts, n);
    var more, told := if row.required == Handoff.Review then [n] else [],
        if row.required == Handoff.Review then [MarkText(n)] else [];
    assert places + [] == places && texts + [] == texts;
    assert MarkTexts(places + more, texts + told);
    MarkSnoc(places + more, texts + told, n + 1);
    var root := if row.rootPrincipalOnly then [MarkText(n + 1)] else [];
    assert RowConstraints(row) == told + root;
    assert texts + RowConstraints(row) == texts + told + root;
    assert places + more + [] == places + more && texts + told + [] == texts + told;
  }

  lemma MarksSnoc(rows: seq<HandoffPolicy>, row: HandoffPolicy)
    ensures Marks(rows + [row]) == Marks(rows) + [row.required == Handoff.Review] + [row.rootPrincipalOnly]
  {
    var all := rows + [row];
    forall k | 0 <= k < 2 * |rows| ensures Marks(all)[k] == Marks(rows)[k] {
      assert all[k / 2] == rows[k / 2];
    }
    assert all[2 * |rows| / 2] == row && all[(2 * |rows| + 1) / 2] == row;
  }

  function MarkPlaces(rows: seq<HandoffPolicy>): seq<nat> { Where(Marks(rows), (b: bool) => b) }

  lemma MarkPlacesSnoc(rows: seq<HandoffPolicy>, row: HandoffPolicy)
    ensures MarkPlaces(rows + [row]) == MarkPlaces(rows) + (if row.required == Handoff.Review then [2 * |rows|] else [])
      + (if row.rootPrincipalOnly then [2 * |rows| + 1] else [])
  {
    hide Marks, Where;
    MarksSnoc(rows, row);
    WhereSnoc(Marks(rows), row.required == Handoff.Review, (b: bool) => b);
    WhereSnoc(Marks(rows) + [row.required == Handoff.Review], row.rootPrincipalOnly, (b: bool) => b);
  }

  lemma PolicyConstraintsSnoc(rows: seq<HandoffPolicy>, row: HandoffPolicy)
    ensures PolicyConstraints(rows + [row]) == PolicyConstraints(rows) + RowConstraints(row)
  {
    hide RowConstraints;
    assert (rows + [row])[..|rows|] == rows;
  }

  lemma {:induction false} ConstraintsListed(rows: seq<HandoffPolicy>)
    ensures MarkTexts(MarkPlaces(rows), PolicyConstraints(rows))
  {
    if rows == [] {
      assert MarkPlaces([]) == [] && PolicyConstraints([]) == [];
    } else {
      hide Marks, Where, PolicyConstraints, MarkTexts, RowConstraints, MarkPlaces;
      var init, row := rows[..|rows| - 1], rows[|rows| - 1];
      assert rows == init + [row];
      ConstraintsListed(init);
      MarkPlacesSnoc(init, row);
      PolicyConstraintsSnoc(init, row);
      RowListed(MarkPlaces(init), PolicyConstraints(init), row, 2 * |init|);
    }
  }

  /** The constraints: row by row what the policy asks for, and the two that always hold. */
  lemma ConstraintsExactly(s: Snapshot, revision: RevisionId, tokenBudget: nat)
    requires Build(s, revision, tokenBudget).Some?
    ensures var texts := Build(s, revision, tokenBudget).value.protectedConstraints;
      var places := MarkPlaces(s.policy.handoff);
      && |texts| == |places| + 2 && MarkTexts(places, texts[..|places|])
      && texts[|places|] == Ascii("typed handoffs are never verbally waived (ADR-0036)")
      && texts[|places| + 1] == Ascii("unattended automation is read-only (ADR-0036)")
    ensures Picks(Marks(s.policy.handoff), (b: bool) => b, MarkPlaces(s.policy.handoff))
  {
    hide Ascii, Floors, Fill, Items, Evaluations, Marks, Where, PolicyConstraints, Picks;
    ConstraintsListed(s.policy.handoff);
    WhereAreThose(Marks(s.policy.handoff), (b: bool) => b);
    var texts, listed := Constraints(s), PolicyConstraints(s.policy.handoff);
    assert texts[..|listed|] == listed;
  }

  /** Finished work is met, blocked work unmet, and the rest unknown. */
  predicate EvaluatedAs(o: Obligation, e: (i64, Evaluation)) {
    && e.0 == o.id
    && (e.1 == Met <==> o.status in {Done, Cancelled, ObligationStatus.Superseded})
    && (e.1 == Unmet <==> o.status == Blocked)
    && (e.1 == Evaluation.Unknown <==> o.status in {ObligationStatus.Open, Deferred})
  }

  predicate AllEvaluated(os: seq<Obligation>, es: seq<(i64, Evaluation)>) {
    |es| == |os| && forall i :: 0 <= i < |os| ==> EvaluatedAs(os[i], es[i])
  }

  lemma {:induction false} ObligationsEvaluated(os: seq<Obligation>)
    ensures AllEvaluated(os, Evaluations(os))
  {
    if os != [] {
      ObligationsEvaluated(os[..|os| - 1]);
    }
  }

  /** Every obligation is evaluated, in order, and the bundle names the revision it was built from. */
  lemma ObligationsExactly(s: Snapshot, revision: RevisionId, tokenBudget: nat)
    requires Build(s, revision, tokenBudget).Some?
    ensures AllEvaluated(s.obligations, Build(s, revision, tokenBudget).value.obligations)
    ensures Build(s, revision, tokenBudget).value.snapshot == revision
  {
    hide Ascii, Floors, Fill, Items, Constraints, Evaluations;
    ObligationsEvaluated(s.obligations);
  }

  // ---- views ----

  predicate ProfileExists(ps: seq<ProfileRecord>, id: Str) { exists i :: 0 <= i < |ps| && ps[i].id == id }

  /** View `i` is the first of the id. */
  predicate FirstView(s: Snapshot, id: Str, i: nat) {
    i < |s.views| && s.views[i].id == id && forall j :: 0 <= j < i ==> s.views[j].id != id
  }

  predicate RefsExist(s: Snapshot, refs: seq<Str>) {
    refs != [] && forall k :: 0 <= k < |refs| ==> ProfileExists(s.profiles, refs[k])
  }

  /** An id resolves to the first view that carries it, if that names profiles and all of them exist. */
  lemma ResolvesExactly(s: Snapshot, id: Str)
    ensures Resolve(s, id) == NotFound <==> forall i :: 0 <= i < |s.views| ==> s.views[i].id != id
    ensures forall i: nat :: FirstView(s, id, i) ==>
      Resolve(s, id) == if RefsExist(s, s.views[i].profileRefs) then Resolution.Resolved(s.views[i]) else InvalidRefs
  {
    forall name: Str ensures ProfileExists(s.profiles, name) <==> FindProfile(s.profiles, name).Some? {}
    hide ProfileExists, FindProfile;
    var at := Find(s.views, (v: ViewSpec) => v.id == id);
    forall i: nat | FirstView(s, id, i) ensures at == Some(i) {
      assert at.Some?;
    }
  }
}
