/**
 Building runs of `LockStep` action by action: one manifest walks from a stable journal
 through a cutover and back. The witness runs are put together from these pieces.
 */
module Rehearsal {
  import opened Base
  import opened Journal
  import opened JournalHistory
  import opened Routing
  import opened LockStep

  /** A manifest that may do everything, alive at time zero. */
  predicate Able(m: Manifest) {
    m.authority.schemaVersion == 4 && 0 < m.authority.expiresAt && m.authority.expectedGeneration + 2 <= MAX_MARKER_GENERATION
  }

  /** The journal while `m`'s transition, which follows `last`, is at `phase`. */
  predicate Stands(n: Net, m: Manifest, last: string, phase: Phase) {
    && Consistent(n.journal)
    && n.journal.store.authority.Some?
    && var item := n.journal.store.authority.value;
    && item.phase == phase
    && item.generation == m.authority.expectedGeneration
    && item.activeRegion == m.Source()
    && item.lastCompleted == last
    && item.claim == if phase.Stable? then None else Some(ClaimOf(m))
  }

  function Before(m: Manifest, last: string): Point { Point(m.Source(), m.authority.expectedGeneration, last) }

  function Routed(m: Manifest): Point { Point(m.Target(), m.authority.expectedGeneration + 1, m.authority.transitionId) }

  function Returned(m: Manifest): Point { Point(m.Source(), m.authority.expectedGeneration + 2, m.authority.transitionId) }

  /** DNS shows this point now. */
  predicate Shows(cells: Cells, n: Net, p: Point) {
    n.zone == RouteState(cells, p) && |n.seen| > 0 && n.seen[|n.seen| - 1] == n.zone
  }

  predicate Longer(n: Net, n': Net) {
    n.journal.history <= n'.journal.history && n.seen <= n'.seen && n.sent <= n'.sent
  }

  /** An action played after a run, with the DNS side as it was. */
  predicate Extends(n: Net, n': Net) {
    && n'.zone == n.zone && n'.seen == n.seen && n'.sent == n.sent
    && n.journal.history <= n'.journal.history
  }

  lemma PlayAppend(cells: Cells, actions: seq<Action>, a: Action)
    requires cells.Distinct()
    ensures Play(cells, actions + [a], false) == Act(cells, Play(cells, actions, false), a)
  {
    assert (actions + [a])[..|actions|] == actions;
  }

  /** A request planned on the current authority commits when it is sent at once. */
  lemma CommitNow(cells: Cells, actions: seq<Action>, r: Request, seenAt: nat) returns (longer: seq<Action>)
    requires cells.Distinct()
    requires var n := Play(cells, actions, false);
             && Consistent(n.journal)
             && PlanFor(r, n.journal.store.authority).Write?
             && (r.kind.Initialize? ==> n.journal.store.authority.None?)
             && AdvanceIsObserved(cells, n, r, seenAt)
    ensures var n, n' := Play(cells, actions, false), Play(cells, longer, false);
            && Extends(n, n') && Consistent(n'.journal)
            && n'.journal.store.authority == Some(Updated(PlanFor(r, n.journal.store.authority).tx, n.journal.store.authority))
            && |n'.journal.history| == |n.journal.history| + 1
  {
    hide Play, ConditionHolds, Updated, EventOf, Serial, Replay, AdvanceIsObserved;
    var n := Play(cells, actions, false);
    var attempt := Attempt(PlanFor(r, n.journal.store.authority).tx, |n.journal.history|);
    PlanKeepsRequest(r, n.journal.store.authority);
    CommitsExactlyWhenFresh(n.journal, attempt);
    StepKeepsConsistent(n.journal, attempt);
    longer := actions + [Commits(attempt, seenAt)];
    PlayAppend(cells, actions, Commits(attempt, seenAt));
  }

  lemma PlanKeepsRequest(r: Request, read: Option<Item>)
    ensures PlanFor(r, read).Write? ==> PlanFor(r, read).tx.request == r
  {
  }

  /** The operator carries `m` from one phase to the next. */
  lemma Advances(cells: Cells, actions: seq<Action>, m: Manifest, last: string, from: Phase, to: Phase, seenAt: nat)
    returns (longer: seq<Action>)
    requires cells.Distinct() && Able(m) && Stands(Play(cells, actions, false), m, last, from) && Allowed(from, to)
    requires AdvanceIsObserved(cells, Play(cells, actions, false), Request(Advance(from, to), m, 0, None), seenAt)
    ensures Stands(Play(cells, longer, false), m, last, to)
    ensures Extends(Play(cells, actions, false), Play(cells, longer, false))
  {
    hide Play, Consistent, AdvanceIsObserved;
    longer := CommitNow(cells, actions, Request(Advance(from, to), m, 0, None), seenAt);
  }

  /** The same for the advances that follow no DNS read. */
  lemma Walks(cells: Cells, actions: seq<Action>, m: Manifest, last: string, from: Phase, to: Phase)
    returns (longer: seq<Action>)
    requires cells.Distinct() && Able(m) && Stands(Play(cells, actions, false), m, last, from) && Allowed(from, to)
    requires from != RoutingTarget && from != RoutingSourceRollback
    ensures Stands(Play(cells, longer, false), m, last, to)
    ensures Extends(Play(cells, actions, false), Play(cells, longer, false))
  {
    hide Play, Stands, Extends;
    longer := Advances(cells, actions, m, last, from, to, 0);
  }

  /** A first journal, stable on the primary. */
  lemma Begins(cells: Cells, m: Manifest) returns (actions: seq<Action>)
    requires cells.Distinct() && Able(m) && m.authority.direction.Failover? && m.authority.expectedGeneration == 0
    ensures var n := Play(cells, actions, false);
            Stands(n, m, "", Stable) && Shows(cells, n, Before(m, "")) && n.sent == []
  {
    hide Play, Consistent, RouteState;
    actions := PlayNothing(cells);
    actions := CommitNow(cells, actions, Request(Initialize, m, 0, None), 0);
  }

  lemma PlayNothing(cells: Cells) returns (actions: seq<Action>)
    requires cells.Distinct()
    ensures Play(cells, actions, false) == Start(cells) && Consistent(Start(cells).journal)
  {
    actions := [];
    EmptyIsConsistent();
  }

  lemma Claims(cells: Cells, start: seq<Action>, m: Manifest, last: string) returns (actions: seq<Action>)
    requires cells.Distinct() && Able(m) && Stands(Play(cells, start, false), m, last, Stable)
    ensures Stands(Play(cells, actions, false), m, last, FencingSource)
    ensures Extends(Play(cells, start, false), Play(cells, actions, false))
  {
    hide Play, Consistent;
    actions := CommitNow(cells, start, Request(ClaimFence, m, 0, None), 0);
  }

  /** Claim, and walk to ROUTING_TARGET. */
  lemma ReachRouting(cells: Cells, start: seq<Action>, m: Manifest, last: string) returns (actions: seq<Action>)
    requires cells.Distinct() && Able(m) && Stands(Play(cells, start, false), m, last, Stable)
    ensures Stands(Play(cells, actions, false), m, last, RoutingTarget)
    ensures Extends(Play(cells, start, false), Play(cells, actions, false))
  {
    hide Play, Stands;
    actions := Claims(cells, start, m, last);
    actions := Walks(cells, actions, m, last, FencingSource, SourceFenced);
    actions := Walks(cells, actions, m, last, SourceFenced, ActivatingTarget);
    actions := Walks(cells, actions, m, last, ActivatingTarget, TargetActiveNotRouted);
    actions := Walks(cells, actions, m, last, TargetActiveNotRouted, ReconcilingTargetJobs);
    actions := Walks(cells, actions, m, last, ReconcilingTargetJobs, TargetJobsReconciledNotRouted);
    actions := Walks(cells, actions, m, last, TargetJobsReconciledNotRouted, VerifyingTargetIngress);
    actions := Walks(cells, actions, m, last, VerifyingTargetIngress, TargetIngressVerifiedNotRouted);
    actions := Walks(cells, actions, m, last, TargetIngressVerifiedNotRouted, RoutingTarget);
  }

  /** The batch sent last lands, moving the zone from one point to the next. */
  lemma Landing(cells: Cells, actions: seq<Action>, move: Move) returns (longer: seq<Action>)
    requires cells.Distinct() && move.Valid()
    requires var n := Play(cells, actions, false);
             |n.sent| > 0 && n.sent[|n.sent| - 1].AsMove() == move && n.zone == RouteState(cells, move.from)
    ensures var n, n' := Play(cells, actions, false), Play(cells, longer, false);
            && Shows(cells, n', move.to) && n'.seen == n.seen + [n'.zone]
            && n'.sent == n.sent && n'.journal == n.journal
  {
    hide Play, RouteState, ApplyBatch, BatchFor;
    var index := |Play(cells, actions, false).sent| - 1;
    longer := actions + [Lands(index)];
    PlayAppend(cells, actions, Lands(index));
    BatchLandsOnlyWhereBuilt(cells, move, move.from);
  }

  lemma SendsCutover(cells: Cells, start: seq<Action>, m: Manifest, last: string) returns (actions: seq<Action>)
    requires cells.Distinct() && Able(m)
    requires Stands(Play(cells, start, false), m, last, RoutingTarget) && Shows(cells, Play(cells, start, false), Before(m, last))
    ensures var n, n' := Play(cells, start, false), Play(cells, actions, false);
            n' == n.(sent := n.sent + [Forward(m, m.authority.expectedGeneration, last)])
  {
    hide Play, RouteState, Consistent;
    var n := Play(cells, start, false);
    LatestIsRead(n.journal);
    var forward := SendsForward(m, |n.journal.history|, |n.journal.history|, |n.seen| - 1);
    actions := start + [forward];
    PlayAppend(cells, start, forward);
  }

  /** `m` is routed forward. */
  lemma CutOver(cells: Cells, start: seq<Action>, m: Manifest, last: string) returns (actions: seq<Action>)
    requires cells.Distinct() && Able(m)
    requires Stands(Play(cells, start, false), m, last, RoutingTarget) && Shows(cells, Play(cells, start, false), Before(m, last))
    ensures Stands(Play(cells, actions, false), m, last, VerifyingStableRoute)
    ensures Shows(cells, Play(cells, actions, false), Routed(m)) && Longer(Play(cells, start, false), Play(cells, actions, false))
  {
    hide Play, RouteState, Consistent;
    actions := SendsCutover(cells, start, m, last);
    actions := Landing(cells, actions, Move(Before(m, last), Routed(m)));
    actions := Advances(cells, actions, m, last, RoutingTarget, VerifyingStableRoute, |Play(cells, actions, false).seen| - 1);
  }

  /** Its smoke test fails: the target is fenced and the source reactivated. */
  lemma WalkBack(cells: Cells, start: seq<Action>, m: Manifest, last: string) returns (actions: seq<Action>)
    requires cells.Distinct() && Able(m) && Stands(Play(cells, start, false), m, last, VerifyingStableRoute)
    ensures Stands(Play(cells, actions, false), m, last, RoutingSourceRollback)
    ensures Extends(Play(cells, start, false), Play(cells, actions, false))
  {
    hide Play, Stands;
    actions := Walks(cells, start, m, last, VerifyingStableRoute, FencingFailedTarget);
    actions := Walks(cells, actions, m, last, FencingFailedTarget, FailedTargetFenced);
    actions := Walks(cells, actions, m, last, FailedTargetFenced, ReactivatingSource);
    actions := Walks(cells, actions, m, last, ReactivatingSource, SourceReactivatedNotRouted);
    actions := Walks(cells, actions, m, last, SourceReactivatedNotRouted, VerifyingSourceIngress);
    actions := Walks(cells, actions, m, last, VerifyingSourceIngress, SourceIngressVerifiedNotRouted);
    actions := Walks(cells, actions, m, last, SourceIngressVerifiedNotRouted, RoutingSourceRollback);
  }

  /** Its rollback batch is sent under its own claim. */
  lemma SendsRollback(cells: Cells, start: seq<Action>, m: Manifest, last: string) returns (actions: seq<Action>)
    requires cells.Distinct() && Able(m)
    requires Stands(Play(cells, start, false), m, last, RoutingSourceRollback) && Shows(cells, Play(cells, start, false), Routed(m))
    ensures var n, n' := Play(cells, start, false), Play(cells, actions, false);
            n' == n.(sent := n.sent + [Back(m)])
  {
    hide Play, RouteState, Consistent;
    var n := Play(cells, start, false);
    LatestIsRead(n.journal);
    var back := SendsBack(m, |n.journal.history|, |n.seen| - 1);
    actions := start + [back];
    PlayAppend(cells, start, back);
  }

  /** It is routed back. */
  lemma RouteBack(cells: Cells, start: seq<Action>, m: Manifest, last: string) returns (actions: seq<Action>)
    requires cells.Distinct() && Able(m)
    requires Stands(Play(cells, start, false), m, last, RoutingSourceRollback) && Shows(cells, Play(cells, start, false), Routed(m))
    ensures Stands(Play(cells, actions, false), m, last, VerifyingSourceRollback)
    ensures Shows(cells, Play(cells, actions, false), Returned(m)) && Longer(Play(cells, start, false), Play(cells, actions, false))
  {
    hide Play, RouteState, Consistent;
    actions := SendsRollback(cells, start, m, last);
    actions := Landing(cells, actions, Move(Routed(m), Returned(m)));
    actions := Advances(cells, actions, m, last, RoutingSourceRollback, VerifyingSourceRollback, |Play(cells, actions, false).seen| - 1);
  }

  /** The rollback is sealed; `next` is any manifest for the generation that follows. */
  lemma RollsBack(cells: Cells, start: seq<Action>, m: Manifest, last: string, next: Manifest) returns (actions: seq<Action>)
    requires cells.Distinct() && Able(m) && Stands(Play(cells, start, false), m, last, VerifyingSourceRollback)
    requires next.Source() == m.Source() && next.authority.expectedGeneration == m.authority.expectedGeneration + 2
    ensures Stands(Play(cells, actions, false), next, m.authority.transitionId, Stable)
    ensures Extends(Play(cells, start, false), Play(cells, actions, false))
  {
    hide Play, Consistent;
    actions := CommitNow(cells, start, Request(RollBack, m, 0, Some("smoke")), 0);
  }

  /** From a stable journal all the way to a routed rollback. */
  lemma CutOverAndBack(cells: Cells, start: seq<Action>, m: Manifest, last: string) returns (actions: seq<Action>)
    requires cells.Distinct() && Able(m)
    requires Stands(Play(cells, start, false), m, last, RoutingTarget) && Shows(cells, Play(cells, start, false), Before(m, last))
    ensures Stands(Play(cells, actions, false), m, last, VerifyingSourceRollback)
    ensures Shows(cells, Play(cells, actions, false), Returned(m)) && Longer(Play(cells, start, false), Play(cells, actions, false))
  {
    hide Play, Stands, RouteState;
    actions := CutOver(cells, start, m, last);
    actions := WalkBack(cells, actions, m, last);
    actions := RouteBack(cells, actions, m, last);
  }

  lemma LatestIsRead(w: World)
    requires Consistent(w)
    ensures ReadAt(w, |w.history|) == w.store.authority
  {
  }

  lemma OldReadIsKept(w: World, w': World, i: nat)
    requires w.history <= w'.history && i <= |w.history|
    ensures ReadAt(w', i) == ReadAt(w, i)
  {
  }
}
