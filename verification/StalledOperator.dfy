/**
 Two whole runs in which lock-step is lost. In each, one client stalls between a journal
 read and its DNS read while another carries transitions on, and then sends its batch.
 */
module StalledOperator {
  import opened Base
  import opened Journal
  import opened JournalHistory
  import opened Routing
  import opened LockStep
  import opened Rehearsal

  const FIRST: Manifest :=
    Manifest(Authority("a6e0d2b1-0000-4000-8000-000000000001", Failover, 0, "approvals", 3600, 4), "evidence")
  const SECOND: Manifest :=
    Manifest(Authority("a6e0d2b1-0000-4000-8000-000000000002", Failover, 2, "approvals", 3600, 4), "evidence")
  const ASTRAY := Point(Recovery, 3, FIRST.authority.transitionId)

  /**
   A client stalls after its ROUTING_TARGET claim, and its transition is cut over and rolled
   back meanwhile. Its batch then takes traffic to the fenced recovery cell under generation 3
   while the journal is stable on the primary at 2.
   */
  lemma StalledOperatorBreaksLockStep(cells: Cells) returns (actions: seq<Action>)
    requires cells.Distinct()
    ensures var n := Play(cells, actions, false);
            && n.journal.store.authority.Some?
            && n.journal.store.authority.value.phase == Stable
            && n.journal.store.authority.value.activeRegion == Primary
            && n.journal.store.authority.value.generation == 2
            && n.zone == RouteState(cells, ASTRAY)
            && !InStep(cells, n.journal.store.authority, n.zone)
  {
    hide Play, RouteState, Consistent;
    actions := Begins(cells, FIRST);
    actions := ReachRouting(cells, actions, FIRST, "");
    var claimed := Play(cells, actions, false).journal;
    actions := CutOverAndBack(cells, actions, FIRST, "");
    actions := RollsBack(cells, actions, FIRST, "", SECOND);
    var n := Play(cells, actions, false);
    LatestIsRead(claimed);
    LatestIsRead(n.journal);
    OldReadIsKept(claimed, n.journal, |claimed.history|);
    var stale := SendsForward(FIRST, |claimed.history|, |n.journal.history|, |n.seen| - 1);
    PlayAppend(cells, actions, stale);
    actions := actions + [stale];
    actions := Landing(cells, actions, Move(Returned(FIRST), ASTRAY));
    RouteStateDetermines(cells, ASTRAY, Returned(FIRST));
  }

  /** The first transition is rolled back and the second cut over, after a read made in between. */
  lemma ResumedTooEarly(cells: Cells) returns (actions: seq<Action>, readAt: nat)
    requires cells.Distinct()
    ensures var n := Play(cells, actions, false);
            && Stands(n, SECOND, FIRST.authority.transitionId, VerifyingStableRoute)
            && Shows(cells, n, Routed(SECOND))
            && ReadAt(n.journal, readAt).Some?
            && ReadAt(n.journal, readAt).value.phase == VerifyingSourceRollback
  {
    hide Play, RouteState, Consistent;
    actions := Begins(cells, FIRST);
    actions := ReachRouting(cells, actions, FIRST, "");
    actions := CutOverAndBack(cells, actions, FIRST, "");
    var resumed := Play(cells, actions, false).journal;
    readAt := |resumed.history|;
    LatestIsRead(resumed);
    actions := RollsBack(cells, actions, FIRST, "", SECOND);
    actions := ReachRouting(cells, actions, SECOND, FIRST.authority.transitionId);
    actions := CutOver(cells, actions, SECOND, FIRST.authority.transitionId);
    OldReadIsKept(resumed, Play(cells, actions, false).journal, readAt);
  }

  /**
   A client resumes the second manifest's rollback while the journal still verifies the first
   one's, and stalls. The first is sealed and the second cut over; the client now finds the
   zone its batch starts from, and takes traffic off a target the journal is verifying.
   */
  lemma StalledResumeBreaksLockStep(cells: Cells) returns (actions: seq<Action>)
    requires cells.Distinct()
    ensures var n := Play(cells, actions, false);
            && n.journal.store.authority.Some?
            && n.journal.store.authority.value.phase == VerifyingStableRoute
            && n.journal.store.authority.value.claim == Some(ClaimOf(SECOND))
            && n.zone == RouteState(cells, Returned(SECOND))
            && !InStep(cells, n.journal.store.authority, n.zone)
  {
    hide Play, RouteState, Consistent;
    var readAt;
    actions, readAt := ResumedTooEarly(cells);
    var n := Play(cells, actions, false);
    var stale := SendsBack(SECOND, readAt, |n.seen| - 1);
    PlayAppend(cells, actions, stale);
    actions := actions + [stale];
    actions := Landing(cells, actions, Move(Routed(SECOND), Returned(SECOND)));
    RouteStateDetermines(cells, Routed(SECOND), Returned(SECOND));
  }
}
