/**
 When the commands that fence, activate and restore a cell succeed, told from the stored
 item, the manifest, the clock and the two cells; and that wherever such a command stops,
 running it again can still succeed.
 */
module StepOutcomes {
  import opened Base
  import opened Journal
  import opened JournalHistory
  import opened JournalOutcomes
  import opened Runtime
  import opened Transition

  predicate Present(order: seq<Resource>, cell: Cell) {
    forall r :: r in order ==> r in cell
  }

  // When each command succeeds, told from the state it starts in.

  predicate FenceSourceSucceeds(plans: Plans, s: State, m: Manifest, order: seq<Resource>, now: nat, digest: string) {
    && m.HasReactivationAuthority() && s.store.authority.Some? && Parses(s.store.authority.value)
    && (s.store.authority.value.phase == Stable ==> s.Of(m.Source()) == plans.Of(m.Source()))
    && Accepted(ClaimFence, m, now, None, s.store)
    && Present(order, s.Of(m.Source()))
    && Accepted(Advance(FencingSource, SourceFenced), m, now, Some(digest), Left(ClaimFence, m, now, None, s.store))
  }

  predicate FenceFailedTargetSucceeds(s: State, m: Manifest, order: seq<Resource>, now: nat, digest: string) {
    && m.HasReactivationAuthority() && s.store.authority.Some? && Parses(s.store.authority.value)
    && var record, claim := Advance(FencingFailedTarget, FailedTargetFenced), Advance(VerifyingStableRoute, FencingFailedTarget);
    if s.store.authority.value.phase == FailedTargetFenced
    then AllFenced(s.Of(m.Target()), order) && Accepted(record, m, now, Some(digest), s.store)
    else && Accepted(claim, m, now, None, s.store) && Present(order, s.Of(m.Target()))
         && Accepted(record, m, now, Some(digest), Left(claim, m, now, None, s.store))
  }

  predicate ActivateTargetSucceeds(s: State, m: Manifest, order: seq<Resource>, succeeded: bool, now: nat) {
    var claim := Advance(SourceFenced, ActivatingTarget);
    && Accepted(claim, m, now, None, s.store) && AllFenced(s.Of(m.Source()), order) && succeeded
    && Accepted(Advance(ActivatingTarget, TargetActiveNotRouted), m, now, None, Left(claim, m, now, None, s.store))
  }

  predicate ActivatePrimarySucceeds(plans: Plans, s: State, m: Manifest, sourceOrder: seq<Resource>, targetOrder: seq<Resource>,
                                    now: nat, digest: string)
  {
    && m.HasReactivationAuthority() && m.authority.direction.Failback? && s.store.authority.Some?
    && var record, claim := Advance(ActivatingTarget, TargetActiveNotRouted), Advance(SourceFenced, ActivatingTarget);
    && AllFenced(s.Of(m.Source()), sourceOrder)
    && if s.store.authority.value.phase == TargetActiveNotRouted
       then Matches(s.Of(m.Target()), plans.Of(m.Target()), targetOrder) && Accepted(record, m, now, Some(digest), s.store)
       else && Accepted(claim, m, now, None, s.store)
            && (s.store.authority.value.phase == SourceFenced ==> AllFenced(s.Of(m.Target()), targetOrder))
            && Present(targetOrder, s.Of(m.Target())) && Present(targetOrder, plans.Of(m.Target()))
            && Accepted(record, m, now, Some(digest), Left(claim, m, now, None, s.store))
  }

  predicate ReactivateSourceSucceeds(plans: Plans, s: State, m: Manifest, targetOrder: seq<Resource>, sourceOrder: seq<Resource>,
                                     now: nat, digest: string)
  {
    && m.HasReactivationAuthority() && s.store.authority.Some?
    && var record, claim := Advance(ReactivatingSource, SourceReactivatedNotRouted), Advance(FailedTargetFenced, ReactivatingSource);
    && AllFenced(s.Of(m.Target()), targetOrder)
    && if s.store.authority.value.phase == SourceReactivatedNotRouted
       then Matches(s.Of(m.Source()), plans.Of(m.Source()), sourceOrder) && Accepted(record, m, now, Some(digest), s.store)
       else && Accepted(claim, m, now, None, s.store)
            && (s.store.authority.value.phase == FailedTargetFenced ==> AllFenced(s.Of(m.Source()), sourceOrder))
            && Present(sourceOrder, s.Of(m.Source())) && Present(sourceOrder, plans.Of(m.Source()))
            && Accepted(record, m, now, Some(digest), Left(claim, m, now, None, s.store))
  }

  predicate Matches(cell: Cell, plan: Cell, order: seq<Resource>) {
    forall r :: r in order ==> r in cell && r in plan && cell[r] == plan[r]
  }

  // ----- Success -----

  /**
   An undisturbed `fence-source` succeeds exactly under a live schema-4 manifest whose resources
   are all there: from the stable journal at its generation and source with the plan served, from
   its own claim at FENCING_SOURCE, and from SOURCE_FENCED with the evidence recorded there.
   */
  lemma FenceSourceExactlyWhen(plans: Plans, s: State, w: World, m: Manifest, order: seq<Resource>, now: nat, digest: string)
    requires Consistent(w) && w.store == s.store
    ensures FenceSourceSucceeds(plans, s, m, order, now, digest) <==>
              && m.authority.schemaVersion == 4 && now < m.authority.expiresAt && s.store.authority.Some?
              && (forall r :: r in order ==> r in s.Of(m.Source()))
              && var item := s.store.authority.value;
                 match item.phase
                 case Stable =>
                   && item.generation == m.authority.expectedGeneration && item.activeRegion == m.Source()
                   && s.Of(m.Source()) == plans.Of(m.Source())
                 case FencingSource => item.claim == Some(ClaimOf(m))
                 case SourceFenced => item.claim == Some(ClaimOf(m)) && Recorded(s.store, m, digest)
                 case _ => false
  {
    hide Accepted, Left, Consistent, Recorded, Parses;
    if s.store.authority.Some? {
      FenceThenRecord(w, m, now, digest);
      LatestParses(w);
    }
  }

  /**
   An undisturbed `fence-failed-target` succeeds exactly under a live schema-4 manifest's own claim
   at VERIFYING_STABLE_ROUTE or FENCING_FAILED_TARGET with every resource there, or at
   FAILED_TARGET_FENCED with the recorded evidence and every resource closed.
   */
  lemma FenceFailedTargetExactlyWhen(s: State, w: World, m: Manifest, order: seq<Resource>, now: nat, digest: string)
    requires Consistent(w) && w.store == s.store
    ensures FenceFailedTargetSucceeds(s, m, order, now, digest) <==>
              && m.authority.schemaVersion == 4 && now < m.authority.expiresAt && s.store.authority.Some?
              && var item, target := s.store.authority.value, s.Of(m.Target());
              && item.claim == Some(ClaimOf(m))
              && match item.phase
                 case VerifyingStableRoute => forall r :: r in order ==> r in target
                 case FencingFailedTarget => forall r :: r in order ==> r in target
                 case FailedTargetFenced =>
                   && Recorded(s.store, m, digest)
                   && forall r :: r in order ==> r in target && target[r] == FencedSetting(r)
                 case _ => false
  {
    hide Accepted, Left, Consistent, Recorded, Parses;
    if s.store.authority.Some? {
      ClaimThenRecord(w, m, VerifyingStableRoute, FencingFailedTarget, FailedTargetFenced, now, Some(digest));
      PhaseRequest(w, m, FencingFailedTarget, FailedTargetFenced, now, Some(digest));
      LatestParses(w);
    }
  }

  /**
   An undisturbed failover activation succeeds exactly when the deployment does, under a live
   manifest's own claim at SOURCE_FENCED or ACTIVATING_TARGET with every source resource closed.
   */
  lemma ActivateTargetExactlyWhen(s: State, w: World, m: Manifest, order: seq<Resource>, succeeded: bool, now: nat)
    requires Consistent(w) && w.store == s.store
    ensures ActivateTargetSucceeds(s, m, order, succeeded, now) <==>
              && 2 <= m.authority.schemaVersion <= 4 && now < m.authority.expiresAt && succeeded
              && s.store.authority.Some? && s.store.authority.value.claim == Some(ClaimOf(m))
              && s.store.authority.value.phase in {SourceFenced, ActivatingTarget}
              && forall r :: r in order ==> r in s.Of(m.Source()) && s.Of(m.Source())[r] == FencedSetting(r)
  {
    hide Accepted, Left, Consistent;
    if s.store.authority.Some? {
      ClaimThenRecord(w, m, SourceFenced, ActivatingTarget, TargetActiveNotRouted, now, None);
    } else {
      NothingAccepted(w, SourceFenced, ActivatingTarget, m, now, None);
    }
  }

  /**
   An undisturbed failback activation succeeds exactly under a live schema-4 failback manifest's own
   claim with every resource of the recovery cell closed: from SOURCE_FENCED while the primary is
   closed too, from ACTIVATING_TARGET whatever part of it is restored, and from
   TARGET_ACTIVE_NOT_ROUTED with the recorded evidence and the whole plan in place.
   */
  lemma ActivatePrimaryExactlyWhen(plans: Plans, s: State, w: World, m: Manifest,
                                   sourceOrder: seq<Resource>, targetOrder: seq<Resource>, now: nat, digest: string)
    requires Consistent(w) && w.store == s.store
    ensures ActivatePrimarySucceeds(plans, s, m, sourceOrder, targetOrder, now, digest) <==>
              && m.authority.schemaVersion == 4 && m.authority.direction == Failback && now < m.authority.expiresAt
              && s.store.authority.Some?
              && var item, source, target := s.store.authority.value, s.Of(m.Source()), s.Of(m.Target());
              && item.claim == Some(ClaimOf(m))
              && (forall r :: r in sourceOrder ==> r in source && source[r] == FencedSetting(r))
              && (forall r :: r in targetOrder ==> r in target && r in plans.Of(m.Target()))
              && match item.phase
                 case SourceFenced => forall r :: r in targetOrder ==> target[r] == FencedSetting(r)
                 case ActivatingTarget => true
                 case TargetActiveNotRouted =>
                   Recorded(s.store, m, digest) && forall r :: r in targetOrder ==> target[r] == plans.Of(m.Target())[r]
                 case _ => false
  {
    hide Accepted, Left, Consistent, Recorded;
    if s.store.authority.Some? {
      ClaimThenRecord(w, m, SourceFenced, ActivatingTarget, TargetActiveNotRouted, now, Some(digest));
      PhaseRequest(w, m, ActivatingTarget, TargetActiveNotRouted, now, Some(digest));
    }
  }

  /**
   An undisturbed `reactivate-source` succeeds exactly under a live schema-4 manifest's own claim
   with every resource of the failed target closed: from FAILED_TARGET_FENCED while the source is
   closed too, from REACTIVATING_SOURCE whatever part of it is restored, and from
   SOURCE_REACTIVATED_NOT_ROUTED with the recorded evidence and the whole plan in place.
   */
  lemma ReactivateSourceExactlyWhen(plans: Plans, s: State, w: World, m: Manifest,
                                    targetOrder: seq<Resource>, sourceOrder: seq<Resource>, now: nat, digest: string)
    requires Consistent(w) && w.store == s.store
    ensures ReactivateSourceSucceeds(plans, s, m, targetOrder, sourceOrder, now, digest) <==>
              && m.authority.schemaVersion == 4 && now < m.authority.expiresAt
              && s.store.authority.Some?
              && var item, source, target := s.store.authority.value, s.Of(m.Source()), s.Of(m.Target());
              && item.claim == Some(ClaimOf(m))
              && (forall r :: r in targetOrder ==> r in target && target[r] == FencedSetting(r))
              && (forall r :: r in sourceOrder ==> r in source && r in plans.Of(m.Source()))
              && match item.phase
                 case FailedTargetFenced => forall r :: r in sourceOrder ==> source[r] == FencedSetting(r)
                 case ReactivatingSource => true
                 case SourceReactivatedNotRouted =>
                   Recorded(s.store, m, digest) && forall r :: r in sourceOrder ==> source[r] == plans.Of(m.Source())[r]
                 case _ => false
  {
    hide Accepted, Left, Consistent, Recorded;
    if s.store.authority.Some? {
      ClaimThenRecord(w, m, FailedTargetFenced, ReactivatingSource, SourceReactivatedNotRouted, now, Some(digest));
      PhaseRequest(w, m, ReactivatingSource, SourceReactivatedNotRouted, now, Some(digest));
    }
  }

  // ----- Running a command again -----

  /** Wherever `fence-source` stops, it would still succeed at every clock at which it would have. */
  lemma FenceSourceStands(plans: Plans, s: State, s': State, w: World, m: Manifest, order: seq<Resource>, now: nat, digest: string)
    requires Consistent(w) && w.store == s.store && s.store.authority.Some?
    requires Stops(ClaimFence, Advance(FencingSource, SourceFenced), m, now, Some(digest), s.store, s'.store)
    requires s'.Of(m.Source()).Keys == s.Of(m.Source()).Keys
    ensures forall later: nat ::
              FenceSourceSucceeds(plans, s, m, order, later, digest) ==>
                FenceSourceSucceeds(plans, s', m, order, later, digest)
  {
    hide Accepted, Left, Consistent, Recorded, FenceSourceSucceeds;
    FenceThenRecord(w, m, now, digest);
    var w' := StoppedWorld(w, ClaimFence, Advance(FencingSource, SourceFenced), m, now, Some(digest), s'.store);
    forall later: nat | FenceSourceSucceeds(plans, s, m, order, later, digest)
      ensures FenceSourceSucceeds(plans, s', m, order, later, digest)
    {
      FenceSourceExactlyWhen(plans, s, w, m, order, later, digest);
      FenceSourceExactlyWhen(plans, s', w', m, order, later, digest);
    }
  }

  lemma FenceFailedTargetStands(s: State, s': State, w: World, m: Manifest, order: seq<Resource>, now: nat, digest: string)
    requires Consistent(w) && w.store == s.store && s.store.authority.Some?
    requires Stops(Advance(VerifyingStableRoute, FencingFailedTarget), Advance(FencingFailedTarget, FailedTargetFenced),
                   m, now, Some(digest), s.store, s'.store)
    requires s'.Of(m.Target()).Keys == s.Of(m.Target()).Keys
    requires s'.store.authority.Some? && s'.store.authority.value.phase == FailedTargetFenced ==> Fenced(s'.Of(m.Target()))
    ensures forall later: nat ::
              FenceFailedTargetSucceeds(s, m, order, later, digest) ==>
                FenceFailedTargetSucceeds(s', m, order, later, digest)
  {
    hide Accepted, Left, Consistent, Recorded, FenceFailedTargetSucceeds;
    ClaimThenRecord(w, m, VerifyingStableRoute, FencingFailedTarget, FailedTargetFenced, now, Some(digest));
    var w' := StoppedWorld(w, Advance(VerifyingStableRoute, FencingFailedTarget), Advance(FencingFailedTarget, FailedTargetFenced),
                           m, now, Some(digest), s'.store);
    forall later: nat | FenceFailedTargetSucceeds(s, m, order, later, digest)
      ensures FenceFailedTargetSucceeds(s', m, order, later, digest)
    {
      FenceFailedTargetExactlyWhen(s, w, m, order, later, digest);
      FenceFailedTargetExactlyWhen(s', w', m, order, later, digest);
    }
  }

  lemma ActivateTargetStands(s: State, s': State, w: World, m: Manifest, order: seq<Resource>, succeeded: bool, now: nat)
    requires Consistent(w) && w.store == s.store && s.store.authority.Some?
    requires Accepted(Advance(SourceFenced, ActivatingTarget), m, now, None, s.store)
    requires s'.store == Left(Advance(SourceFenced, ActivatingTarget), m, now, None, s.store)
    requires s'.Of(m.Source()) == s.Of(m.Source())
    ensures forall later: nat ::
              ActivateTargetSucceeds(s, m, order, succeeded, later) ==>
                ActivateTargetSucceeds(s', m, order, succeeded, later)
  {
    hide Accepted, Left, Consistent, ActivateTargetSucceeds;
    ClaimThenRecord(w, m, SourceFenced, ActivatingTarget, TargetActiveNotRouted, now, None);
    var w' := StoppedWorld(w, Advance(SourceFenced, ActivatingTarget), Advance(ActivatingTarget, TargetActiveNotRouted),
                           m, now, None, s'.store);
    forall later: nat | ActivateTargetSucceeds(s, m, order, succeeded, later)
      ensures ActivateTargetSucceeds(s', m, order, succeeded, later)
    {
      ActivateTargetExactlyWhen(s, w, m, order, succeeded, later);
      ActivateTargetExactlyWhen(s', w', m, order, succeeded, later);
    }
  }

  lemma ActivatePrimaryStands(plans: Plans, s: State, s': State, w: World, m: Manifest,
                              sourceOrder: seq<Resource>, targetOrder: seq<Resource>, now: nat, digest: string)
    requires Consistent(w) && w.store == s.store && s.store.authority.Some?
    requires Stops(Advance(SourceFenced, ActivatingTarget), Advance(ActivatingTarget, TargetActiveNotRouted),
                   m, now, Some(digest), s.store, s'.store)
    requires s'.Of(m.Source()) == s.Of(m.Source()) && s'.Of(m.Target()).Keys == s.Of(m.Target()).Keys
    requires Owns(s'.store, m, TargetActiveNotRouted) ==> s'.Of(m.Target()) == plans.Of(m.Target())
    ensures forall later: nat ::
              ActivatePrimarySucceeds(plans, s, m, sourceOrder, targetOrder, later, digest) ==>
                ActivatePrimarySucceeds(plans, s', m, sourceOrder, targetOrder, later, digest)
  {
    hide Accepted, Left, Consistent, Recorded, ActivatePrimarySucceeds;
    ClaimThenRecord(w, m, SourceFenced, ActivatingTarget, TargetActiveNotRouted, now, Some(digest));
    var w' := StoppedWorld(w, Advance(SourceFenced, ActivatingTarget), Advance(ActivatingTarget, TargetActiveNotRouted),
                           m, now, Some(digest), s'.store);
    forall later: nat | ActivatePrimarySucceeds(plans, s, m, sourceOrder, targetOrder, later, digest)
      ensures ActivatePrimarySucceeds(plans, s', m, sourceOrder, targetOrder, later, digest)
    {
      ActivatePrimaryExactlyWhen(plans, s, w, m, sourceOrder, targetOrder, later, digest);
      ActivatePrimaryExactlyWhen(plans, s', w', m, sourceOrder, targetOrder, later, digest);
    }
  }

  lemma ReactivateSourceStands(plans: Plans, s: State, s': State, w: World, m: Manifest,
                               targetOrder: seq<Resource>, sourceOrder: seq<Resource>, now: nat, digest: string)
    requires Consistent(w) && w.store == s.store && s.store.authority.Some?
    requires Stops(Advance(FailedTargetFenced, ReactivatingSource), Advance(ReactivatingSource, SourceReactivatedNotRouted),
                   m, now, Some(digest), s.store, s'.store)
    requires s'.Of(m.Target()) == s.Of(m.Target()) && s'.Of(m.Source()).Keys == s.Of(m.Source()).Keys
    requires Owns(s'.store, m, SourceReactivatedNotRouted) ==> s'.Of(m.Source()) == plans.Of(m.Source())
    ensures forall later: nat ::
              ReactivateSourceSucceeds(plans, s, m, targetOrder, sourceOrder, later, digest) ==>
                ReactivateSourceSucceeds(plans, s', m, targetOrder, sourceOrder, later, digest)
  {
    hide Accepted, Left, Consistent, Recorded, ReactivateSourceSucceeds;
    ClaimThenRecord(w, m, FailedTargetFenced, ReactivatingSource, SourceReactivatedNotRouted, now, Some(digest));
    var w' := StoppedWorld(w, Advance(FailedTargetFenced, ReactivatingSource), Advance(ReactivatingSource, SourceReactivatedNotRouted),
                           m, now, Some(digest), s'.store);
    forall later: nat | ReactivateSourceSucceeds(plans, s, m, targetOrder, sourceOrder, later, digest)
      ensures ReactivateSourceSucceeds(plans, s', m, targetOrder, sourceOrder, later, digest)
    {
      ReactivateSourceExactlyWhen(plans, s, w, m, targetOrder, sourceOrder, later, digest);
      ReactivateSourceExactlyWhen(plans, s', w', m, targetOrder, sourceOrder, later, digest);
    }
  }

  /** The journal of a run of the operator is one that clients can reach. */
  lemma {:induction false} ExecutionJournal(plans: Plans, recovery: Cell, actions: seq<Action>) returns (w: World)
    ensures Consistent(w) && w.store == Execution(plans, recovery, actions).store
  {
    hide Consistent, Execute, Next, Enabled;
    if |actions| == 0 {
      w := World(EmptyStore, []);
      EmptyIsConsistent();
    } else {
      var s := Execution(plans, recovery, actions[..|actions| - 1]);
      var a := actions[|actions| - 1];
      w := ExecutionJournal(plans, recovery, actions[..|actions| - 1]);
      NextJournal(plans, s, a);
      if a.Calls? && Enabled(plans, s, a) { w := CallKeepsConsistent(w, a.request); }
    }
  }

  lemma NextJournal(plans: Plans, s: State, a: Action)
    ensures Next(plans, s, a).store == if a.Calls? && Enabled(plans, s, a) then Execute(a.request, s.store).1 else s.store
  {
    hide Execute, Gate, Fenced;
  }
}
