/** What readers of a promoted handle may rely on over every run (resolve_view and build_bundle on canonical
    snapshots, src/persistence.cpp). */
module ReadPlane {
  import opened Prelude
  import opened Cognition
  import opened SnapshotCodecLaws
  import opened Text
  import opened Transactions
  import opened Gates
  import opened Ledger
  import opened Genesis
  import opened History
  import opened Service
  import opened Reachable
  import opened ServiceLaws
  import Bundle

  lemma SoundCanon(s: Snapshot)
    ensures Sound(Canon(s)) <==> Sound(s)
  {
    CanonCoherent(s);
    assert forall i :: 0 <= i < |s.obligations| ==> Canon(s).obligations[i] == CanonObligation(s.obligations[i]);
  }

  /** Every promoted entry holds a sound snapshot. */
  lemma PromotedIsSound(w: World, es: seq<Event>, i: nat)
    requires Sane(w) && AllFit(w, es) && i < |Run(w, es).live| && Run(w, es).live[i].quarantine.Promoted?
    ensures Sound(Run(w, es).live[i].state)
  {
    hide Sane, AllFit, Run, RunLog, Sound, Canon, Replay, RevisionHolds, SizedThrough, KeysHold, IsLedger;
    RunsHold(w, es);
    var v, log := Run(w, es), RunLog(w, es);
    assert Anchored(w, v.store, log, v.live[i]);
    var k :| 0 <= k < |v.store.revisions| && k <= |log| && AnchoredAt(w, v.store, log, v.live[i], k);
    LedgerPrefix(w, log, k);
    GenesisSound(w);
    LedgerIsSound(w, log[..k]);
    SoundCanon(v.live[i].state);
    SoundCanon(Replay(w.genesis, log[..k]));
  }

  /** So resolving a view there never fails on references, and finds every view that exists. */
  lemma PromotedViewsResolve(w: World, es: seq<Event>, i: nat, id: Str)
    requires Sane(w) && AllFit(w, es) && i < |Run(w, es).live| && Run(w, es).live[i].quarantine.Promoted?
    ensures Bundle.Resolve(Run(w, es).live[i].state, id) != Bundle.InvalidRefs
    ensures Bundle.Resolve(Run(w, es).live[i].state, id).Resolved? <==>
      exists j :: 0 <= j < |Run(w, es).live[i].state.views| && Run(w, es).live[i].state.views[j].id == id
  {
    hide Sane, AllFit, Run, Sound, Bundle.Resolve;
    PromotedIsSound(w, es, i);
    Bundle.SoundViewsResolve(Run(w, es).live[i].state, id);
  }

  /** ... and the bundle always exists, with the next boundary among its floors when one is set. */
  lemma PromotedBundleIsTotal(w: World, es: seq<Event>, i: nat, tokenBudget: nat)
    requires Sane(w) && AllFit(w, es) && i < |Run(w, es).live| && Run(w, es).live[i].quarantine.Promoted?
    ensures var m := Run(w, es).live[i];
      var bundle := Bundle.Build(m.state, m.revision, tokenBudget);
      && bundle.Some?
      && (m.state.state.nextBoundaryRef != [] ==> Bundle.BoundaryShown(m.state, bundle.value))
  {
    hide Sane, AllFit, Run, Sound, Bundle.Build, Bundle.BoundaryShown;
    PromotedIsSound(w, es, i);
    Bundle.SoundBundleIsTotal(Run(w, es).live[i].state, Run(w, es).live[i].revision, tokenBudget);
  }
}
