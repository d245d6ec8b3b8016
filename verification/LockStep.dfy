/**
 Journal and DNS together, under any number of concurrent clients. A client may stall
 between any two actions and a Route 53 batch may land at any later time or never.
 */
module LockStep {
  import opened Base
  import opened Journal
  import opened JournalHistory
  import opened Routing

  /** A batch some client has sent: the forward move, or the move back after a failed cutover. */
  datatype Sent =
    | Forward(manifest: Manifest, generation: nat, lastCompleted: string)
    | Back(manifest: Manifest)
  {
    function AsMove(): Move {
      var m := manifest;
      match this
      case Forward(_, g, last) =>
        Move(Point(m.Source(), g, last), Point(m.Target(), g + 1, m.authority.transitionId))
      case Back(_) =>
        Move(Point(m.Target(), m.authority.expectedGeneration + 1, m.authority.transitionId),
             Point(m.Source(), m.authority.expectedGeneration + 2, m.authority.transitionId))
    }
  }

  /** `seen` lists every state the zone has had, so a client's read is an index into it. */
  datatype Net = Net(journal: World, zone: Zone, seen: seq<Zone>, sent: seq<Sent>)

  /**
   One atomic action of one client. `claimAt` and `readAt` say which journal states its two
   reads returned, `seenAt` which zone state its DNS read returned.
   */
  datatype Action =
    | Commits(attempt: Attempt, seenAt: nat)
    | SendsForward(manifest: Manifest, claimAt: nat, readAt: nat, seenAt: nat)
    | SendsBack(manifest: Manifest, claimAt: nat, seenAt: nat)
    | Lands(index: nat)

  function Start(cells: Cells): Net {
    var zone := RouteState(cells, Point(Primary, 0, ""));
    Net(World(EmptyStore, []), zone, [zone], [])
  }

  function ReadAt(w: World, i: nat): Option<Item> {
    if i <= |w.history| then ItemBefore(w.history, i) else None
  }

  /** The two phase advances that follow a DNS read, and the generation that read must have shown. */
  predicate AdvanceIsObserved(cells: Cells, n: Net, r: Request, seenAt: nat) {
    var m := r.manifest;
    && (r.kind == Advance(RoutingTarget, VerifyingStableRoute) ==>
          && seenAt < |n.seen|
          && n.seen[seenAt] == RouteState(cells, Point(m.Target(), m.authority.expectedGeneration + 1, m.authority.transitionId)))
    && (r.kind == Advance(RoutingSourceRollback, VerifyingSourceRollback) ==>
          && seenAt < |n.seen|
          && n.seen[seenAt] == RouteState(cells, Point(m.Source(), m.authority.expectedGeneration + 2, m.authority.transitionId)))
  }

  /** What the routing steps themselves check before each action. */
  predicate Permitted(cells: Cells, n: Net, a: Action) {
    match a
    case Commits(attempt, seenAt) =>
      AdvanceIsObserved(cells, n, attempt.tx.request, seenAt)
    case SendsForward(m, claimAt, readAt, seenAt) =>
      var claimed, read := ReadAt(n.journal, claimAt), ReadAt(n.journal, readAt);
      && claimAt <= readAt
      && claimed.Some? && claimed.value.phase == RoutingTarget && claimed.value.claim == Some(ClaimOf(m))
      && read.Some?
      && seenAt < |n.seen|
      && n.seen[seenAt] == RouteState(cells, Point(m.Source(), read.value.generation, read.value.lastCompleted))
      && read.value.generation + 1 <= MAX_MARKER_GENERATION
    case SendsBack(m, claimAt, seenAt) =>
      var claimed := ReadAt(n.journal, claimAt);
      && claimed.Some?
      && (|| (claimed.value.phase == RoutingSourceRollback && claimed.value.claim == Some(ClaimOf(m)))
          || claimed.value.phase == VerifyingSourceRollback)
      && seenAt < |n.seen|
      && n.seen[seenAt] == RouteState(cells, Sent.Back(m).AsMove().from)
      && m.authority.expectedGeneration + 2 <= MAX_MARKER_GENERATION
    case Lands(index) => index < |n.sent|
  }

  /**
   What the code leaves to its caller. `route_target_step` takes its generation from a second
   read without rechecking it, and the resume branch of `route_source_rollback_step` does not
   compare the journal's authority with its manifest's.
   */
  predicate Guarded(n: Net, a: Action) {
    match a
    case SendsForward(m, _, readAt, _) =>
      var read := ReadAt(n.journal, readAt);
      read.Some? && read.value.generation == m.authority.expectedGeneration
    case SendsBack(m, claimAt, _) =>
      var claimed := ReadAt(n.journal, claimAt);
      claimed.Some? && claimed.value.claim == Some(ClaimOf(m))
    case _ => true
  }

  function Land(cells: Cells, n: Net, s: Sent): Net
    requires cells.Distinct()
  {
    if !s.AsMove().Valid() then n
    else match ApplyBatch(BatchFor(cells, s.AsMove()), n.zone)
      case None => n
      case Some(zone) => n.(zone := zone, seen := n.seen + [zone])
  }

  function Act(cells: Cells, n: Net, a: Action): Net
    requires cells.Distinct()
  {
    if !Permitted(cells, n, a) then n
    else match a
      case Commits(attempt, _) => n.(journal := Step(n.journal, attempt))
      case SendsForward(m, _, readAt, _) =>
        var read := ReadAt(n.journal, readAt).value;
        n.(sent := n.sent + [Forward(m, read.generation, read.lastCompleted)])
      case SendsBack(m, _, _) => n.(sent := n.sent + [Back(m)])
      case Lands(index) => Land(cells, n, n.sent[index])
  }

  /** Any finite run; `guarded` also drops the actions that `Guarded` excludes. */
  function Play(cells: Cells, actions: seq<Action>, guarded: bool): Net
    requires cells.Distinct()
  {
    if |actions| == 0 then Start(cells)
    else
      var n := Play(cells, actions[..|actions| - 1], guarded);
      var a := actions[|actions| - 1];
      if guarded && !Guarded(n, a) then n else Act(cells, n, a)
  }

  // ----- Lock-step -----

  /** The zone that belongs to each journal phase; two in the two routing phases, one otherwise. */
  predicate InStep(cells: Cells, authority: Option<Item>, zone: Zone) {
    match authority
    case None => zone == RouteState(cells, Point(Primary, 0, ""))
    case Some(item) =>
      var here := RouteState(cells, Point(item.activeRegion, item.generation, item.lastCompleted));
      if item.claim.None? then zone == here
      else
        var id := item.claim.value.transitionId;
        var there := RouteState(cells, Point(item.activeRegion.Other(), item.generation + 1, id));
        var back := RouteState(cells, Point(item.activeRegion, item.generation + 2, id));
        var rank := Rank(item.phase);
        if rank < Rank(RoutingTarget) then zone == here
        else if rank == Rank(RoutingTarget) then zone == here || zone == there
        else if rank < Rank(RoutingSourceRollback) then zone == there
        else if rank == Rank(RoutingSourceRollback) then zone == there || zone == back
        else zone == back
  }

  /** Manifest `m` has reached `phase`, or its transition is over. Never undone. */
  predicate Reached(item: Item, m: Manifest, phase: Phase) {
    var g := m.authority.expectedGeneration;
    || (item.generation == g && item.claim == Some(ClaimOf(m)) && Rank(phase) <= Rank(item.phase))
    || (if Rank(phase) > Rank(VerifyingStableRoute) then g + 2 <= item.generation else g < item.generation)
  }

  lemma ReachedIsKept(a: Item, b: Item, m: Manifest, phase: Phase)
    requires Sound(a) && Later(a, b) && Reached(a, m, phase)
    ensures Reached(b, m, phase)
  {
  }

  predicate Justified(item: Item, s: Sent) {
    match s
    case Forward(m, g, last) =>
      && g == m.authority.expectedGeneration
      && Reached(item, m, RoutingTarget)
      && (item.generation == g ==> item.lastCompleted == last)
    case Back(m) => Reached(item, m, RoutingSourceRollback)
  }

  predicate NetInvariant(cells: Cells, n: Net)
  {
    && Consistent(n.journal)
    && InStep(cells, n.journal.store.authority, n.zone)
    && (forall z :: z in n.seen ==> GenerationOf(z) <= GenerationOf(n.zone))
    && (forall s :: s in n.sent ==> n.journal.store.authority.Some? && Justified(n.journal.store.authority.value, s))
  }

  /** What a commit changes of the fields that name a zone. */
  predicate Moves(before: Option<Item>, e: Entry) {
    var r := e.tx.request;
    match r.kind
    case Initialize =>
      before.None? && e.item.generation == 0 && e.item.activeRegion == Primary && e.item.claim.None?
    case ClaimFence =>
      && before.Some? && before.value.claim.None? && e.item.claim.Some? && Rank(e.item.phase) == 1
      && SamePlace(before.value, e.item)
    case Advance(from, to) =>
      && before.Some? && before.value.claim.Some? && e.item.claim == before.value.claim
      && before.value.phase == from && e.item.phase == to && Rank(to) == Rank(from) + 1
      && SamePlace(before.value, e.item)
      && before.value.generation == r.manifest.authority.expectedGeneration
    case Complete =>
      && before.Some? && before.value.claim.Some? && before.value.phase == VerifyingStableRoute && e.item.claim.None?
      && e.item.generation == before.value.generation + 1 && e.item.activeRegion == before.value.activeRegion.Other()
      && e.item.lastCompleted == before.value.claim.value.transitionId
    case RollBack =>
      && before.Some? && before.value.claim.Some? && before.value.phase == VerifyingSourceRollback && e.item.claim.None?
      && e.item.generation == before.value.generation + 2 && e.item.activeRegion == before.value.activeRegion
      && e.item.lastCompleted == before.value.claim.value.transitionId
  }

  predicate SamePlace(a: Item, b: Item) {
    a.generation == b.generation && a.activeRegion == b.activeRegion && a.lastCompleted == b.lastCompleted
  }

  lemma CommitMoves(before: Option<Item>, e: Entry)
    requires Follows(before, e) && (before.Some? ==> Sound(before.value))
    ensures Moves(before, e)
  {
  }

  lemma OpeningKeepsInStep(cells: Cells, before: Option<Item>, e: Entry, zone: Zone)
    requires e.tx.request.kind.Initialize? || e.tx.request.kind.ClaimFence?
    requires Moves(before, e) && InStep(cells, before, zone)
    ensures InStep(cells, Some(e.item), zone)
  {
    hide RouteState;
    if before.None? { FirstPoint(cells, e.item); }
  }

  lemma OutcomeKeepsInStep(cells: Cells, before: Option<Item>, e: Entry, zone: Zone)
    requires e.tx.request.kind.Complete? || e.tx.request.kind.RollBack?
    requires Moves(before, e) && InStep(cells, before, zone)
    ensures InStep(cells, Some(e.item), zone)
  {
    hide RouteState;
  }

  lemma AdvanceKeepsInStep(cells: Cells, before: Option<Item>, e: Entry, zone: Zone)
    requires cells.Distinct() && e.tx.request.kind.Advance?
    requires Moves(before, e) && InStep(cells, before, zone)
    requires e.tx.request.kind == Advance(RoutingTarget, VerifyingStableRoute) ==>
               GenerationOf(zone) > e.tx.request.manifest.authority.expectedGeneration
    requires e.tx.request.kind == Advance(RoutingSourceRollback, VerifyingSourceRollback) ==>
               GenerationOf(zone) > e.tx.request.manifest.authority.expectedGeneration + 1
    ensures InStep(cells, Some(e.item), zone)
  {
    hide RouteState, GenerationOf;
    var item := before.value;
    var here := Point(item.activeRegion, item.generation, item.lastCompleted);
    var there := Point(item.activeRegion.Other(), item.generation + 1, item.claim.value.transitionId);
    if item.phase == RoutingTarget { RouteStateDetermines(cells, here, here); }
    if item.phase == RoutingSourceRollback { RouteStateDetermines(cells, there, there); }
  }

  lemma CommitKeepsInStep(cells: Cells, before: Option<Item>, e: Entry, zone: Zone)
    requires cells.Distinct()
    requires Follows(before, e) && (before.Some? ==> Sound(before.value))
    requires InStep(cells, before, zone)
    requires e.tx.request.kind == Advance(RoutingTarget, VerifyingStableRoute) ==>
               GenerationOf(zone) > e.tx.request.manifest.authority.expectedGeneration
    requires e.tx.request.kind == Advance(RoutingSourceRollback, VerifyingSourceRollback) ==>
               GenerationOf(zone) > e.tx.request.manifest.authority.expectedGeneration + 1
    ensures InStep(cells, Some(e.item), zone)
  {
    hide RouteState, GenerationOf, Follows, Sound, Moves, InStep;
    CommitMoves(before, e);
    match e.tx.request.kind
    case Advance(_, _) => AdvanceKeepsInStep(cells, before, e, zone);
    case Complete => OutcomeKeepsInStep(cells, before, e, zone);
    case RollBack => OutcomeKeepsInStep(cells, before, e, zone);
    case _ => OpeningKeepsInStep(cells, before, e, zone);
  }

  /** At generation zero the route does not depend on the last transition. */
  lemma FirstPoint(cells: Cells, item: Item)
    requires item.generation == 0
    ensures RouteState(cells, Point(item.activeRegion, 0, item.lastCompleted)) == RouteState(cells, Point(item.activeRegion, 0, ""))
  {
  }

  lemma LandingKeepsInStep(cells: Cells, item: Item, zone: Zone, s: Sent)
    requires cells.Distinct() && s.AsMove().Valid()
    requires Sound(item) && InStep(cells, Some(item), zone) && Justified(item, s)
    requires ApplyBatch(BatchFor(cells, s.AsMove()), zone).Some?
    ensures InStep(cells, Some(item), ApplyBatch(BatchFor(cells, s.AsMove()), zone).value)
    ensures GenerationOf(zone) < GenerationOf(ApplyBatch(BatchFor(cells, s.AsMove()), zone).value)
  {
    hide RouteState, GenerationOf, ApplyBatch, BatchFor;
    var move := s.AsMove();
    var at := PointOf(cells, item, zone);
    BatchLandsOnlyWhereBuilt(cells, move, at);
    RouteStateDetermines(cells, at, move.from);
    RouteStateDetermines(cells, move.to, move.to);
  }

  /** A zone in step is the route state of some point. */
  ghost function PointOf(cells: Cells, item: Item, zone: Zone): (p: Point)
    requires InStep(cells, Some(item), zone)
    ensures zone == RouteState(cells, p)
    ensures p.generation - item.generation in {0, 1, 2}
    ensures p.generation == item.generation ==> item.claim.None? || Rank(item.phase) <= Rank(RoutingTarget)
    ensures p.generation == item.generation + 1 ==>
              item.claim.Some? && Rank(RoutingTarget) <= Rank(item.phase) <= Rank(RoutingSourceRollback)
    ensures p.generation == item.generation + 2 ==> item.claim.Some? && Rank(RoutingSourceRollback) <= Rank(item.phase)
  {
    var here := Point(item.activeRegion, item.generation, item.lastCompleted);
    if zone == RouteState(cells, here) && (item.claim.None? || Rank(item.phase) <= Rank(RoutingTarget)) then here
    else
      var id := item.claim.value.transitionId;
      var there := Point(item.activeRegion.Other(), item.generation + 1, id);
      if zone == RouteState(cells, there) && Rank(item.phase) <= Rank(RoutingSourceRollback) then there
      else Point(item.activeRegion, item.generation + 2, id)
  }

  lemma CommitIsFollows(w: World, a: Attempt)
    requires Consistent(w)
    ensures Step(w, a) != w ==>
              && Step(w, a).store.authority.Some?
              && Follows(w.store.authority, Entry(a.tx, Step(w, a).store.authority.value))
  {
    hide Sound, Later, Serial, Replay;
    if Planned(a, w.history) && Commit(a.tx, w.store).Some? {
      CommitsExactlyWhenFresh(w, a);
    }
  }

  lemma LatestIsSound(w: World)
    requires Consistent(w) && w.store.authority.Some?
    ensures Sound(w.store.authority.value)
  {
    hide Sound, Follows;
    HistoryIsSound(w.history, |w.history| - 1);
  }

  lemma CommitKeepsInvariant(cells: Cells, n: Net, a: Attempt, seenAt: nat)
    requires cells.Distinct() && NetInvariant(cells, n)
    requires AdvanceIsObserved(cells, n, a.tx.request, seenAt)
    ensures NetInvariant(cells, n.(journal := Step(n.journal, a)))
  {
    hide Follows, InStep, Sound, RouteState, GenerationOf, Consistent, Step, Later, Reached;
    StepKeepsConsistent(n.journal, a);
    CommitIsFollows(n.journal, a);
    if Step(n.journal, a) != n.journal {
      var before := n.journal.store.authority;
      var e := Entry(a.tx, Step(n.journal, a).store.authority.value);
      if before.Some? { LatestIsSound(n.journal); }
      var m := a.tx.request.manifest;
      var there := Point(m.Target(), m.authority.expectedGeneration + 1, m.authority.transitionId);
      var back := Point(m.Source(), m.authority.expectedGeneration + 2, m.authority.transitionId);
      RouteStateDetermines(cells, there, there);
      RouteStateDetermines(cells, back, back);
      CommitKeepsInStep(cells, before, e, n.zone);
      FollowsIsSound(before, e);
      forall s | s in n.sent
        ensures Justified(e.item, s)
      {
        JustifiedIsKept(before.value, e.item, s);
      }
    }
  }

  lemma JustifiedIsKept(a: Item, b: Item, s: Sent)
    requires Sound(a) && Later(a, b) && Justified(a, s)
    ensures Justified(b, s)
  {
    hide Reached, Sound;
    ReachedIsKept(a, b, s.manifest, if s.Forward? then RoutingTarget else RoutingSourceRollback);
    if s.Forward? && b.generation == s.generation { ReachedNotLate(a, s); }
  }

  lemma ReachedNotLate(a: Item, s: Sent)
    requires s.Forward? && Justified(a, s)
    ensures a.generation >= s.generation
  {
  }

  /** A guarded forward batch is sent only once its manifest has reached the routing phase. */
  lemma ForwardIsJustified(claimed: Item, read: Item, latest: Item, m: Manifest)
    requires Sound(claimed) && Later(claimed, read) && Later(read, latest) && Later(claimed, latest)
    requires claimed.phase == RoutingTarget && claimed.claim == Some(ClaimOf(m))
    requires read.generation == m.authority.expectedGeneration
    ensures Justified(latest, Forward(m, read.generation, read.lastCompleted))
  {
  }

  lemma BackIsJustified(claimed: Item, latest: Item, m: Manifest)
    requires Sound(claimed) && Later(claimed, latest)
    requires claimed.phase == RoutingSourceRollback || claimed.phase == VerifyingSourceRollback
    requires claimed.claim == Some(ClaimOf(m))
    ensures Justified(latest, Back(m))
  {
  }

  lemma SentIsJustified(cells: Cells, n: Net, a: Action)
    requires Consistent(n.journal) && Permitted(cells, n, a) && Guarded(n, a)
    requires a.SendsForward? || a.SendsBack?
    ensures n.journal.store.authority.Some?
    ensures a.SendsForward? ==>
              var read := ReadAt(n.journal, a.readAt).value;
              Justified(n.journal.store.authority.value, Forward(a.manifest, read.generation, read.lastCompleted))
    ensures a.SendsBack? ==> Justified(n.journal.store.authority.value, Back(a.manifest))
  {
    hide Follows, RouteState, Replay, Sound, Later, Justified, Serial;
    var h := n.journal.history;
    var last := |h| - 1;
    HistoryIsSound(h, a.claimAt - 1);
    HistoryIsLater(h, a.claimAt - 1, last);
    var claimed := ReadAt(n.journal, a.claimAt).value;
    var latest := n.journal.store.authority.value;
    if a.SendsForward? {
      HistoryIsLater(h, a.claimAt - 1, a.readAt - 1);
      HistoryIsLater(h, a.readAt - 1, last);
      ForwardIsJustified(claimed, ReadAt(n.journal, a.readAt).value, latest, a.manifest);
    } else {
      BackIsJustified(claimed, latest, a.manifest);
    }
  }

  lemma LandKeepsInvariant(cells: Cells, n: Net, s: Sent)
    requires cells.Distinct() && NetInvariant(cells, n) && s in n.sent
    ensures NetInvariant(cells, Land(cells, n, s))
  {
    hide Consistent, InStep, Sound, GenerationOf, RouteState, ApplyBatch, BatchFor, Justified;
    LatestIsSound(n.journal);
    if s.AsMove().Valid() && ApplyBatch(BatchFor(cells, s.AsMove()), n.zone).Some? {
      LandingKeepsInStep(cells, n.journal.store.authority.value, n.zone, s);
    }
  }

  lemma StartIsInStep(cells: Cells)
    requires cells.Distinct()
    ensures NetInvariant(cells, Start(cells))
  {
    EmptyIsConsistent();
  }

  lemma ActKeepsInvariant(cells: Cells, n: Net, a: Action)
    requires cells.Distinct() && NetInvariant(cells, n) && Guarded(n, a)
    ensures NetInvariant(cells, Act(cells, n, a))
  {
    hide Consistent, InStep, Sound, GenerationOf, RouteState, ApplyBatch, BatchFor, Justified, Guarded, Step, AdvanceIsObserved;
    if Permitted(cells, n, a) {
      match a
      case Commits(attempt, seenAt) => CommitKeepsInvariant(cells, n, attempt, seenAt);
      case SendsForward(_, _, _, _) => SentIsJustified(cells, n, a);
      case SendsBack(_, _, _) => SentIsJustified(cells, n, a);
      case Lands(index) => LandKeepsInvariant(cells, n, n.sent[index]);
    }
  }

  lemma {:induction false} PlayKeepsInvariant(cells: Cells, actions: seq<Action>)
    requires cells.Distinct()
    ensures NetInvariant(cells, Play(cells, actions, true))
  {
    hide NetInvariant, Act, Guarded;
    if |actions| == 0 {
      StartIsInStep(cells);
    } else {
      var n := Play(cells, actions[..|actions| - 1], true);
      PlayKeepsInvariant(cells, actions[..|actions| - 1]);
      if Guarded(n, actions[|actions| - 1]) { ActKeepsInvariant(cells, n, actions[|actions| - 1]); }
    }
  }

  /** The marker names the cell the aliases point at, the primary exactly at even generations. */
  predicate MarkerTellsTheTruth(cells: Cells, zone: Zone) {
    MARKER in zone ==>
      && zone[MARKER].Witness?
      && (zone[MARKER].activeRegion.Primary? <==> zone[MARKER].generation % 2 == 0)
      && API in zone && zone[API] == Alias(cells.Of(zone[MARKER].activeRegion).stableApi)
      && UI in zone && zone[UI] == Alias(cells.Of(zone[MARKER].activeRegion).stableUi)
  }

  lemma ZoneInStepTellsTheTruth(cells: Cells, item: Item, zone: Zone)
    requires Sound(item) && InStep(cells, Some(item), zone)
    ensures MarkerTellsTheTruth(cells, zone)
  {
    hide Parses;
  }

  /**
   Lock-step: over every guarded run of any number of clients, DNS is the state that the
   journal phase names, and the marker obeys the generation-parity law.
   */
  lemma DnsFollowsJournal(cells: Cells, actions: seq<Action>)
    requires cells.Distinct()
    ensures var n := Play(cells, actions, true);
            InStep(cells, n.journal.store.authority, n.zone) && MarkerTellsTheTruth(cells, n.zone)
  {
    hide Play, InStep, Sound, RouteState, Consistent, MarkerTellsTheTruth;
    PlayKeepsInvariant(cells, actions);
    var n := Play(cells, actions, true);
    match n.journal.store.authority
    case Some(item) =>
      LatestIsSound(n.journal);
      ZoneInStepTellsTheTruth(cells, item, n.zone);
    case None => FirstZoneTellsTheTruth(cells, n.zone);
  }

  lemma FirstZoneTellsTheTruth(cells: Cells, zone: Zone)
    requires InStep(cells, None, zone)
    ensures MarkerTellsTheTruth(cells, zone)
  {
  }
}
