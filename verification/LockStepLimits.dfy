/**
 Where lock-step ends: what exactly happens when a client skips the two checks that
 `LockStep.Guarded` asks for, and a whole run in which a stalled operator loses it.
 */
module LockStepLimits {
  import opened Base
  import opened Journal
  import opened JournalHistory
  import opened Routing
  import opened LockStep

  /** With real identifiers a marker names its transition. */
  lemma MarkerNamesTransition(cells: Cells, p: Point, q: Point)
    requires cells.Distinct() && p.generation > 0 && p.transitionId != "" && q.transitionId != ""
    requires RouteState(cells, p) == RouteState(cells, q)
    requires p.transitionId != "none" && q.transitionId != "none"
    ensures p == q
  {
    RouteStateDetermines(cells, p, q);
    assert RouteState(cells, p)[MARKER] == RouteState(cells, q)[MARKER];
  }

  predicate RealId(id: string) { id != "" && id != "none" }

  /** Transition identifiers are real and never shared by two manifests. */
  predicate IdNamesClaim(authority: Option<Item>, m: Manifest) {
    authority.Some? && authority.value.claim.Some? ==>
      var claim := authority.value.claim.value;
      && RealId(claim.transitionId)
      && (claim.transitionId == m.authority.transitionId ==> claim == ClaimOf(m))
  }

  /**
   The second read of `route_target_step` decides: a forward batch that lands on the current
   zone keeps lock-step if and only if that read still showed the generation the manifest expects.
   */
  lemma SecondReadDecides(cells: Cells, actions: seq<Action>, a: Action)
    requires cells.Distinct() && a.SendsForward? && RealId(a.manifest.authority.transitionId)
    requires var n := Play(cells, actions, true);
             && Permitted(cells, n, a)
             && var read := ReadAt(n.journal, a.readAt).value;
             && var move := Forward(a.manifest, read.generation, read.lastCompleted).AsMove();
             && ApplyBatch(BatchFor(cells, move), n.zone).Some?
             && IdNamesClaim(n.journal.store.authority, a.manifest)
    ensures var n := Play(cells, actions, true);
            var read := ReadAt(n.journal, a.readAt).value;
            var move := Forward(a.manifest, read.generation, read.lastCompleted).AsMove();
            InStep(cells, n.journal.store.authority, ApplyBatch(BatchFor(cells, move), n.zone).value) <==>
            read.generation == a.manifest.authority.expectedGeneration
  {
    hide Play, ApplyBatch, BatchFor, RouteState, Consistent, Sound;
    PlayKeepsInvariant(cells, actions);
    var n := Play(cells, actions, true);
    var read := ReadAt(n.journal, a.readAt).value;
    var s := Forward(a.manifest, read.generation, read.lastCompleted);
    ReadPrecedesLatest(n.journal, a.readAt);
    LatestIsSound(n.journal);
    if Guarded(n, a) {
      SentIsJustified(cells, n, a);
      LandingKeepsInStep(cells, n.journal.store.authority.value, n.zone, s);
    } else {
      StaleForwardBreaks(cells, n.journal.store.authority.value, read, n.zone, s);
    }
  }

  lemma ReadPrecedesLatest(w: World, i: nat)
    requires Consistent(w) && ReadAt(w, i).Some?
    ensures w.store.authority.Some? && Later(ReadAt(w, i).value, w.store.authority.value)
  {
    hide Follows, Later, Replay;
    HistoryIsLater(w.history, i - 1, |w.history| - 1);
  }

  lemma StaleForwardBreaks(cells: Cells, item: Item, read: Item, zone: Zone, s: Sent)
    requires cells.Distinct() && s.Forward? && s.AsMove().Valid() && RealId(s.manifest.authority.transitionId)
    requires Sound(item) && Later(read, item) && InStep(cells, Some(item), zone)
    requires s.generation == read.generation != s.manifest.authority.expectedGeneration
    requires ApplyBatch(BatchFor(cells, s.AsMove()), zone).Some?
    requires IdNamesClaim(Some(item), s.manifest)
    ensures !InStep(cells, Some(item), ApplyBatch(BatchFor(cells, s.AsMove()), zone).value)
  {
    hide ApplyBatch, BatchFor, RouteState, GenerationOf;
    var move := s.AsMove();
    var at := PointOf(cells, item, zone);
    BatchLandsOnlyWhereBuilt(cells, move, at);
    RouteStateDetermines(cells, at, move.from);
    var landed := RouteState(cells, move.to);
    if InStep(cells, Some(item), landed) {
      var p := PointOf(cells, item, landed);
      RouteStateDetermines(cells, p, move.to);
      var there := Point(item.activeRegion.Other(), item.generation + 1, item.claim.value.transitionId);
      var here := Point(item.activeRegion, item.generation, item.lastCompleted);
      var back := Point(item.activeRegion, item.generation + 2, item.claim.value.transitionId);
      RouteStateDetermines(cells, here, move.to);
      RouteStateDetermines(cells, back, move.to);
      assert landed == RouteState(cells, there);
      MarkerNamesTransition(cells, there, move.to);
    }
  }

  /**
   The same for a rollback batch, whichever branch of `route_source_rollback_step` sends it and
   however old its journal read: one that lands keeps lock-step if and only if the journal,
   read again at that moment, stands at ROUTING_SOURCE_ROLLBACK under the manifest's own claim.
   */
  lemma RereadDecidesRollback(cells: Cells, actions: seq<Action>, a: Action)
    requires cells.Distinct() && a.SendsBack? && RealId(a.manifest.authority.transitionId)
    requires var n := Play(cells, actions, true);
             && Permitted(cells, n, a)
             && ApplyBatch(BatchFor(cells, Back(a.manifest).AsMove()), n.zone).Some?
             && IdNamesClaim(n.journal.store.authority, a.manifest)
    ensures var n := Play(cells, actions, true);
            && n.journal.store.authority.Some?
            && var item := n.journal.store.authority.value;
            InStep(cells, Some(item), ApplyBatch(BatchFor(cells, Back(a.manifest).AsMove()), n.zone).value) <==>
            item.phase == RoutingSourceRollback && item.claim == Some(ClaimOf(a.manifest))
  {
    hide Play, ApplyBatch, BatchFor, RouteState, Consistent, Sound;
    PlayKeepsInvariant(cells, actions);
    var n := Play(cells, actions, true);
    ReadPrecedesLatest(n.journal, a.claimAt);
    LatestIsSound(n.journal);
    BackLanding(cells, n.journal.store.authority.value, n.zone, a.manifest);
  }

  lemma BackLanding(cells: Cells, item: Item, zone: Zone, m: Manifest)
    requires cells.Distinct() && Back(m).AsMove().Valid() && RealId(m.authority.transitionId)
    requires Sound(item) && InStep(cells, Some(item), zone) && IdNamesClaim(Some(item), m)
    requires ApplyBatch(BatchFor(cells, Back(m).AsMove()), zone).Some?
    ensures InStep(cells, Some(item), ApplyBatch(BatchFor(cells, Back(m).AsMove()), zone).value) <==>
            item.phase == RoutingSourceRollback && item.claim == Some(ClaimOf(m))
  {
    hide ApplyBatch, BatchFor, RouteState, GenerationOf;
    var move := Back(m).AsMove();
    var at := PointOf(cells, item, zone);
    BatchLandsOnlyWhereBuilt(cells, move, at);
    RouteStateDetermines(cells, at, move.from);
    var landed := RouteState(cells, move.to);
    if item.phase == RoutingSourceRollback && item.claim == Some(ClaimOf(m)) {
      LandingKeepsInStep(cells, item, zone, Back(m));
    } else if InStep(cells, Some(item), landed) {
      var p := PointOf(cells, item, landed);
      RouteStateDetermines(cells, p, move.to);
      if item.claim.Some? {
        var id := item.claim.value.transitionId;
        var there := Point(item.activeRegion.Other(), item.generation + 1, id);
        var back := Point(item.activeRegion, item.generation + 2, id);
        RouteStateDetermines(cells, there, move.to);
        RouteStateDetermines(cells, back, move.to);
        if landed == RouteState(cells, there) { MarkerNamesTransition(cells, there, move.to); }
        if landed == RouteState(cells, back) { MarkerNamesTransition(cells, back, move.to); }
      }
      assert false;
    }
  }

  /** A run carried on from a given world, by guarded actions. */
  function PlayOn(cells: Cells, n: Net, more: seq<Action>): Net
    requires cells.Distinct()
  {
    if |more| == 0 then n
    else
      var before := PlayOn(cells, n, more[..|more| - 1]);
      var a := more[|more| - 1];
      if Guarded(before, a) then Act(cells, before, a) else before
  }

  /**
   And once that reread was made before sending, the batch is harmless for good: however late
   it lands in any guarded continuation, DNS stays in step.
   */
  lemma RereadRollbackIsHarmlessForGood(cells: Cells, actions: seq<Action>, a: Action, more: seq<Action>)
    requires cells.Distinct() && a.SendsBack? && Permitted(cells, Play(cells, actions, true), a)
    requires var n := Play(cells, actions, true);
             && n.journal.store.authority.Some?
             && n.journal.store.authority.value.phase == RoutingSourceRollback
             && n.journal.store.authority.value.claim == Some(ClaimOf(a.manifest))
    ensures var n := PlayOn(cells, Act(cells, Play(cells, actions, true), a), more);
            InStep(cells, n.journal.store.authority, n.zone)
  {
    hide Play, InStep, Sound, RouteState, Consistent, PlayOn, Permitted;
    var n := Play(cells, actions, true);
    PlayKeepsInvariant(cells, actions);
    LatestIsSound(n.journal);
    OwnClaimJustifies(n.journal.store.authority.value, a.manifest);
    PlayOnKeepsInvariant(cells, Act(cells, n, a), more);
  }

  lemma OwnClaimJustifies(item: Item, m: Manifest)
    requires Sound(item) && item.phase == RoutingSourceRollback && item.claim == Some(ClaimOf(m))
    ensures Justified(item, Back(m))
  {
  }

  lemma {:induction false} PlayOnKeepsInvariant(cells: Cells, n: Net, more: seq<Action>)
    requires cells.Distinct() && NetInvariant(cells, n)
    ensures NetInvariant(cells, PlayOn(cells, n, more))
  {
    hide NetInvariant, Act, Guarded;
    if |more| > 0 {
      var before := PlayOn(cells, n, more[..|more| - 1]);
      PlayOnKeepsInvariant(cells, n, more[..|more| - 1]);
      if Guarded(before, more[|more| - 1]) { ActKeepsInvariant(cells, before, more[|more| - 1]); }
    }
  }

  /**
   The resume branch of `route_source_rollback_step` runs without an authority check. With the
   journal in VERIFYING_SOURCE_ROLLBACK its batch lands exactly for a manifest of the reverse
   direction, one generation on, that reuses the transition identifier; and then lock-step is lost.
   */
  lemma ResumedRollbackLandsOnlyForAReusedId(cells: Cells, item: Item, zone: Zone, m: Manifest)
    requires cells.Distinct() && Sound(item) && item.phase == VerifyingSourceRollback
    requires InStep(cells, Some(item), zone) && Back(m).AsMove().Valid()
    requires RealId(m.authority.transitionId) && RealId(item.claim.value.transitionId)
    ensures var landed := ApplyBatch(BatchFor(cells, Back(m).AsMove()), zone);
            && (landed.Some? <==>
                  && m.authority.transitionId == item.claim.value.transitionId
                  && m.authority.expectedGeneration == item.generation + 1
                  && m.Target() == item.activeRegion)
            && (landed.Some? ==> !InStep(cells, Some(item), landed.value))
            && (item.claim == Some(ClaimOf(m)) ==> landed.None?)
  {
    hide ApplyBatch, BatchFor, RouteState, GenerationOf;
    var move := Back(m).AsMove();
    var back := Point(item.activeRegion, item.generation + 2, item.claim.value.transitionId);
    BatchLandsOnlyWhereBuilt(cells, move, back);
    RouteStateDetermines(cells, back, move.from);
    RouteStateDetermines(cells, back, move.to);
    if RouteState(cells, back) == RouteState(cells, move.from) { MarkerNamesTransition(cells, back, move.from); }
  }

  /** A single live operator meets the guard: nothing commits between its claim and its second read. */
  lemma SingleOperatorIsGuarded(cells: Cells, n: Net, a: Action)
    requires Consistent(n.journal) && Permitted(cells, n, a)
    requires a.SendsForward? && a.claimAt == a.readAt
    ensures Guarded(n, a)
  {
    hide Follows, RouteState, Replay;
    HistoryIsSound(n.journal.history, a.claimAt - 1);
  }

  /** The marker bound: at expected generation 1,000,000,000 a cutover can be routed but never routed back. */
  lemma MarkerBoundBlocksRollback(cells: Cells, m: Manifest)
    requires m.authority.expectedGeneration <= 1_000_000_000
    ensures var g := m.authority.expectedGeneration;
            && ExpectedRouteState(cells.Of(m.Target()), g + 1, m.authority.transitionId, true).Ok?
            && (ExpectedRouteState(cells.Of(m.Source()), g + 2, m.authority.transitionId, true).Ok? <==> g < 1_000_000_000)
  {
  }
}
