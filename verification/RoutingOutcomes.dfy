/**
 When the two commands that move DNS succeed, told from the stored item, the manifest, the
 clock and the zone; and that a command lost on its way can be run again.
 */
module RoutingOutcomes {
  import opened Base
  import opened Journal
  import opened JournalHistory
  import opened JournalOutcomes
  import opened Routing
  import opened LockStep

  function ClaimOfRouting(m: Manifest, now: nat): Request {
    Request(Advance(TargetIngressVerifiedNotRouted, RoutingTarget), m, now, None)
  }

  function RecordOfRouting(m: Manifest, now: nat, digest: string): Request {
    Request(Advance(RoutingTarget, VerifyingStableRoute), m, now, Some(digest))
  }

  function ClaimOfRollback(m: Manifest, now: nat): Request {
    Request(Advance(SourceIngressVerifiedNotRouted, RoutingSourceRollback), m, now, None)
  }

  function RecordOfRollback(m: Manifest, now: nat, digest: string): Request {
    Request(Advance(RoutingSourceRollback, VerifyingSourceRollback), m, now, Some(digest))
  }

  function Before(m: Manifest, item: Item): Point { Point(m.Source(), item.generation, item.lastCompleted) }

  function Routed(m: Manifest): Point { Point(m.Target(), m.authority.expectedGeneration + 1, m.authority.transitionId) }

  function Returned(m: Manifest): Point { Point(m.Source(), m.authority.expectedGeneration + 2, m.authority.transitionId) }

  // When the two routing commands succeed, told from the state they start in.

  predicate MoveForwardSucceeds(cells: Cells, zone: Zone, store: Store, m: Manifest, now: nat, digest: string) {
    var (claimed, routing) := Execute(ClaimOfRouting(m, now), store);
    && claimed.Ok? && routing.authority.Some? && Routed(m).generation <= MAX_MARKER_GENERATION
    && (zone == RouteState(cells, Before(m, routing.authority.value)) || zone == RouteState(cells, Routed(m)))
    && Execute(RecordOfRouting(m, now, digest), routing).0.Ok?
  }

  predicate RouteTargetSucceeds(cells: Cells, zone: Zone, store: Store, m: Manifest, now: nat, digest: string) {
    && m.HasRoutingAuthority() && store.authority.Some? && Parses(store.authority.value)
    && if store.authority.value.phase == VerifyingStableRoute
       then Routed(m).generation <= MAX_MARKER_GENERATION && zone == RouteState(cells, Routed(m))
       else MoveForwardSucceeds(cells, zone, store, m, now, digest)
  }

  predicate MoveBackSucceeds(cells: Cells, zone: Zone, store: Store, m: Manifest, now: nat, digest: string) {
    && Returned(m).generation <= MAX_MARKER_GENERATION
    && (zone == RouteState(cells, Routed(m)) || zone == RouteState(cells, Returned(m)))
    && Execute(RecordOfRollback(m, now, digest), store).0.Ok?
  }

  predicate RouteSourceRollbackSucceeds(cells: Cells, zone: Zone, store: Store, m: Manifest, now: nat, digest: string) {
    && m.HasReactivationAuthority() && store.authority.Some? && Parses(store.authority.value)
    && if store.authority.value.phase == VerifyingSourceRollback
       then MoveBackSucceeds(cells, zone, store, m, now, digest)
       else && Execute(ClaimOfRollback(m, now), store).0.Ok?
            && MoveBackSucceeds(cells, zone, Execute(ClaimOfRollback(m, now), store).1, m, now, digest)
  }

  /** An accepted request and the store it leaves. */
  predicate Granted(r: Request, s: Store, s': Store) {
    Execute(r, s).0.Ok? && s' == Execute(r, s).1
  }

  /** A granted claim of the routing phase is recorded whenever it is carried through at once. */
  lemma RoutingIsRecorded(w: World, m: Manifest, now: nat, digest: string)
    requires Consistent(w)
    ensures var claim, record := ClaimOfRouting(m, now), RecordOfRouting(m, now, digest);
            var claimed := Execute(claim, w.store).1;
            Execute(claim, w.store).0.Ok? ==>
              && w.store.authority.Some? && Owns(claimed, m, RoutingTarget)
              && claimed.authority.value.lastCompleted == w.store.authority.value.lastCompleted
              && Execute(record, claimed).0.Ok? && Owns(Execute(record, claimed).1, m, VerifyingStableRoute)
  {
    hide Consistent, Recorded, Execute;
    if w.store.authority.Some? {
      ClaimThenRecord(w, m, TargetIngressVerifiedNotRouted, RoutingTarget, VerifyingStableRoute, now, Some(digest));
    } else {
      NothingAccepted(w, TargetIngressVerifiedNotRouted, RoutingTarget, m, now, None);
    }
  }

  /** The same for the way back, with or without a claim of its own. */
  lemma RollbackIsRecorded(w: World, m: Manifest, now: nat, digest: string)
    requires Consistent(w)
    ensures var claim, record := ClaimOfRollback(m, now), RecordOfRollback(m, now, digest);
            var claimed := Execute(claim, w.store).1;
            && (Execute(claim, w.store).0.Ok? ==>
                  && w.store.authority.Some? && Owns(claimed, m, RoutingSourceRollback)
                  && Execute(record, claimed).0.Ok? && Owns(Execute(record, claimed).1, m, VerifyingSourceRollback))
            && (Execute(record, w.store).0.Ok? && w.store.authority.Some?
                && w.store.authority.value.phase == VerifyingSourceRollback ==>
                  Execute(record, w.store).1 == w.store && Owns(w.store, m, VerifyingSourceRollback))
  {
    hide Consistent, Recorded, Execute;
    if w.store.authority.Some? {
      ClaimThenRecord(w, m, SourceIngressVerifiedNotRouted, RoutingSourceRollback, VerifyingSourceRollback, now, Some(digest));
      PhaseRequest(w, m, RoutingSourceRollback, VerifyingSourceRollback, now, Some(digest));
    } else {
      NothingAccepted(w, SourceIngressVerifiedNotRouted, RoutingSourceRollback, m, now, None);
    }
  }

  /** What a forward move that nobody interferes with leaves behind, wherever it stops. */
  predicate MovedForward(cells: Cells, n: Net, n': Net, m: Manifest, now: nat, digest: string, ok: bool) {
    var claim, record := ClaimOfRouting(m, now), RecordOfRouting(m, now, digest);
    var s, s' := n.journal.store, n'.journal.store;
    && (n'.zone == n.zone || n'.zone == RouteState(cells, Routed(m)))
    && (!ok ==> (s' == s && n'.zone == n.zone) || Granted(claim, s, s'))
    && (ok ==>
          && Granted(claim, s, Execute(claim, s).1) && Granted(record, Execute(claim, s).1, s')
          && Execute(claim, s).1.authority.Some?
          && n'.zone == RouteState(cells, Routed(m))
          && n'.sent == n.sent + if n.zone == n'.zone then [] else
               [Forward(m, m.authority.expectedGeneration, Execute(claim, s).1.authority.value.lastCompleted)])
  }

  // ----- Success -----

  /** Claiming and recording the forward move, from the journal it starts in. */
  lemma MoveForwardExactlyWhen(cells: Cells, zone: Zone, w: World, m: Manifest, now: nat, digest: string)
    requires Consistent(w)
    ensures MoveForwardSucceeds(cells, zone, w.store, m, now, digest) <==>
              && 2 <= m.authority.schemaVersion <= 4 && now < m.authority.expiresAt
              && m.authority.expectedGeneration + 1 <= MAX_MARKER_GENERATION
              && w.store.authority.Some?
              && var item := w.store.authority.value;
              && item.phase in {TargetIngressVerifiedNotRouted, RoutingTarget} && item.claim == Some(ClaimOf(m))
              && (|| zone == RouteState(cells, Point(m.Source(), item.generation, item.lastCompleted))
                  || zone == RouteState(cells, Point(m.Target(), m.authority.expectedGeneration + 1, m.authority.transitionId)))
  {
    hide Consistent, Recorded, RouteState, Execute;
    if w.store.authority.Some? {
      ClaimThenRecord(w, m, TargetIngressVerifiedNotRouted, RoutingTarget, VerifyingStableRoute, now, Some(digest));
    } else {
      NothingAccepted(w, TargetIngressVerifiedNotRouted, RoutingTarget, m, now, None);
    }
  }

  /**
   An undisturbed `route-target` succeeds exactly under the manifest's own live claim at
   TARGET_INGRESS_VERIFIED_NOT_ROUTED or ROUTING_TARGET with DNS at the source or already at the
   target, or at VERIFYING_STABLE_ROUTE with DNS at the target; the marker must be in bounds.
   */
  lemma RouteTargetExactlyWhen(cells: Cells, zone: Zone, w: World, m: Manifest, now: nat, digest: string)
    requires Consistent(w)
    ensures RouteTargetSucceeds(cells, zone, w.store, m, now, digest) <==>
              && 3 <= m.authority.schemaVersion <= 4 && w.store.authority.Some?
              && m.authority.expectedGeneration + 1 <= MAX_MARKER_GENERATION
              && var item := w.store.authority.value;
              && var routed := RouteState(cells, Point(m.Target(), m.authority.expectedGeneration + 1, m.authority.transitionId));
              && var unrouted := RouteState(cells, Point(m.Source(), item.generation, item.lastCompleted));
                 match item.phase
                 case TargetIngressVerifiedNotRouted =>
                   item.claim == Some(ClaimOf(m)) && now < m.authority.expiresAt && (zone == unrouted || zone == routed)
                 case RoutingTarget =>
                   item.claim == Some(ClaimOf(m)) && now < m.authority.expiresAt && (zone == unrouted || zone == routed)
                 case VerifyingStableRoute => zone == routed
                 case _ => false
  {
    hide Consistent, RouteState, MoveForwardSucceeds, Parses;
    MoveForwardExactlyWhen(cells, zone, w, m, now, digest);
    if w.store.authority.Some? { LatestParses(w); }
  }

  /**
   An undisturbed `route-source-rollback` succeeds exactly under a live schema-4 manifest's own
   claim with DNS at the target or already back at the source and the marker in bounds: from
   SOURCE_INGRESS_VERIFIED_NOT_ROUTED, from ROUTING_SOURCE_ROLLBACK, and from
   VERIFYING_SOURCE_ROLLBACK with the recorded evidence.
   */
  lemma RouteSourceRollbackExactlyWhen(cells: Cells, zone: Zone, w: World, m: Manifest, now: nat, digest: string)
    requires Consistent(w)
    ensures RouteSourceRollbackSucceeds(cells, zone, w.store, m, now, digest) <==>
              && m.authority.schemaVersion == 4 && now < m.authority.expiresAt && w.store.authority.Some?
              && m.authority.expectedGeneration + 2 <= MAX_MARKER_GENERATION
              && w.store.authority.value.claim == Some(ClaimOf(m))
              && (|| zone == RouteState(cells, Point(m.Target(), m.authority.expectedGeneration + 1, m.authority.transitionId))
                  || zone == RouteState(cells, Point(m.Source(), m.authority.expectedGeneration + 2, m.authority.transitionId)))
              && match w.store.authority.value.phase
                 case SourceIngressVerifiedNotRouted => true
                 case RoutingSourceRollback => true
                 case VerifyingSourceRollback => Recorded(w.store, m, digest)
                 case _ => false
  {
    hide Consistent, Recorded, RouteState, Execute, Parses;
    if w.store.authority.Some? {
      ClaimThenRecord(w, m, SourceIngressVerifiedNotRouted, RoutingSourceRollback, VerifyingSourceRollback, now, Some(digest));
      PhaseRequest(w, m, RoutingSourceRollback, VerifyingSourceRollback, now, Some(digest));
      LatestParses(w);
    }
  }

  // ----- Running a command again -----

  /** Wherever `route-target` stops, it would still succeed at every clock at which it would have. */
  lemma RouteTargetStands(cells: Cells, zone: Zone, zone': Zone, w: World, w': World, m: Manifest, now: nat, digest: string)
    requires Consistent(w) && Consistent(w') && w.store.authority.Some?
    requires Stops(Advance(TargetIngressVerifiedNotRouted, RoutingTarget), Advance(RoutingTarget, VerifyingStableRoute),
                   m, now, Some(digest), w.store, w'.store)
    requires zone' == RouteState(cells, Routed(m)) || (zone' == zone && !Owns(w'.store, m, VerifyingStableRoute))
    ensures forall later: nat ::
              RouteTargetSucceeds(cells, zone, w.store, m, later, digest) ==>
                RouteTargetSucceeds(cells, zone', w'.store, m, later, digest)
  {
    hide Accepted, Left, Consistent, Recorded, RouteTargetSucceeds, RouteState;
    ClaimThenRecord(w, m, TargetIngressVerifiedNotRouted, RoutingTarget, VerifyingStableRoute, now, Some(digest));
    forall later: nat | RouteTargetSucceeds(cells, zone, w.store, m, later, digest)
      ensures RouteTargetSucceeds(cells, zone', w'.store, m, later, digest)
    {
      RouteTargetExactlyWhen(cells, zone, w, m, later, digest);
      RouteTargetExactlyWhen(cells, zone', w', m, later, digest);
    }
  }

  lemma MovedStands(cells: Cells, n: Net, n': Net, m: Manifest, now: nat, digest: string, ok: bool)
    requires Consistent(n.journal) && Consistent(n'.journal) && MovedForward(cells, n, n', m, now, digest, ok)
    ensures forall later: nat ::
              RouteTargetSucceeds(cells, n.zone, n.journal.store, m, later, digest) ==>
                RouteTargetSucceeds(cells, n'.zone, n'.journal.store, m, later, digest)
  {
    hide Execute, Consistent, RouteTargetSucceeds, RouteState;
    RoutingIsRecorded(n.journal, m, now, digest);
    if n'.zone != n.zone || n'.journal.store != n.journal.store {
      RouteTargetStands(cells, n.zone, n'.zone, n.journal, n'.journal, m, now, digest);
    }
  }

  lemma RouteSourceRollbackStands(cells: Cells, zone: Zone, zone': Zone, w: World, w': World, m: Manifest, now: nat, digest: string)
    requires Consistent(w) && Consistent(w') && w.store.authority.Some?
    requires || w'.store == w.store
             || Stops(Advance(SourceIngressVerifiedNotRouted, RoutingSourceRollback),
                      Advance(RoutingSourceRollback, VerifyingSourceRollback), m, now, Some(digest), w.store, w'.store)
    requires zone' == zone || zone' == RouteState(cells, Returned(m))
    ensures forall later: nat ::
              RouteSourceRollbackSucceeds(cells, zone, w.store, m, later, digest) ==>
                RouteSourceRollbackSucceeds(cells, zone', w'.store, m, later, digest)
  {
    hide Accepted, Left, Consistent, Recorded, RouteSourceRollbackSucceeds, RouteState;
    ClaimThenRecord(w, m, SourceIngressVerifiedNotRouted, RoutingSourceRollback, VerifyingSourceRollback, now, Some(digest));
    forall later: nat | RouteSourceRollbackSucceeds(cells, zone, w.store, m, later, digest)
      ensures RouteSourceRollbackSucceeds(cells, zone', w'.store, m, later, digest)
    {
      RouteSourceRollbackExactlyWhen(cells, zone, w, m, later, digest);
      RouteSourceRollbackExactlyWhen(cells, zone', w', m, later, digest);
    }
  }

  /**
   In lock-step DNS is never what stops a live command: whenever the manifest's own claim stands at
   a phase a move starts from, and its marker is in bounds, the move succeeds.
   */
  lemma LiveClaimRoutes(cells: Cells, n: Net, m: Manifest, now: nat, digest: string)
    requires NetInvariant(cells, n) && now < m.authority.expiresAt
    requires n.journal.store.authority.Some? && n.journal.store.authority.value.claim == Some(ClaimOf(m))
    ensures var phase := n.journal.store.authority.value.phase;
            && (phase in {TargetIngressVerifiedNotRouted, RoutingTarget} && 3 <= m.authority.schemaVersion <= 4
                && m.authority.expectedGeneration + 1 <= MAX_MARKER_GENERATION ==>
                  RouteTargetSucceeds(cells, n.zone, n.journal.store, m, now, digest))
            && (phase in {SourceIngressVerifiedNotRouted, RoutingSourceRollback} && m.authority.schemaVersion == 4
                && m.authority.expectedGeneration + 2 <= MAX_MARKER_GENERATION ==>
                  RouteSourceRollbackSucceeds(cells, n.zone, n.journal.store, m, now, digest))
  {
    hide Consistent, Recorded, RouteState, RouteTargetSucceeds, RouteSourceRollbackSucceeds;
    RouteTargetExactlyWhen(cells, n.zone, n.journal, m, now, digest);
    RouteSourceRollbackExactlyWhen(cells, n.zone, n.journal, m, now, digest);
    LatestItemIsSound(n.journal);
  }
}
