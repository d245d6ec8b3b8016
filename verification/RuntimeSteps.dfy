/**
 The commands that fence, activate and restore a cell, as one operator runs them. Each write
 to a single resource may fail, take effect unreported, or be the last thing before a crash;
 every command is a run of `Transition` wherever it stops.
 */
module RuntimeSteps {
  import opened Base
  import opened Journal
  import opened JournalHistory
  import opened JournalOutcomes
  import opened Runtime
  import opened Transition
  import opened StepOutcomes

  /** The resource list of a command names everything that can run in the cell. */
  predicate Covers(order: seq<Resource>, cell: Cell) {
    forall r :: r in cell ==> r in order
  }

  /** Where an accepted phase request leaves the journal, written now or earlier. */
  lemma AdvanceAccepted(r: Request, s: Store)
    requires r.kind.Advance? && Execute(r, s).0.Ok?
    ensures s.authority.Some?
    ensures var s' := Execute(r, s).1;
            && s'.authority.Some? && s'.authority.value.phase == r.kind.to
            && s'.authority.value.claim == Some(ClaimOf(r.manifest))
  {
  }

  lemma ClaimAccepted(r: Request, s: Store)
    requires r.kind.ClaimFence? && Execute(r, s).0.Ok?
    ensures var s' := Execute(r, s).1;
            && s'.authority.Some? && s'.authority.value.claim == Some(ClaimOf(r.manifest))
            && (s'.authority.value.phase == FencingSource || s'.authority.value.phase == SourceFenced)
  {
  }

  /** Repeating the step that led to the current phase writes nothing. */
  lemma RepeatWritesNothing(r: Request, s: Store)
    requires r.kind.Advance? && s.authority.Some? && s.authority.value.phase == r.kind.to
    ensures Execute(r, s).1 == s
  {
  }

  /** What each completed phase says about the two cells. */
  lemma PhaseSays(plans: Plans, s: State, m: Manifest)
    requires Invariant(plans, s) && s.store.authority.Some? && s.store.authority.value.claim == Some(ClaimOf(m))
    ensures s.store.authority.value.activeRegion == m.Source()
    ensures var phase := s.store.authority.value.phase;
            && (phase == SourceFenced ==> Fenced(s.Of(m.Source())) && Fenced(s.Of(m.Target())))
            && (phase == TargetActiveNotRouted ==> Fenced(s.Of(m.Source())) && s.Of(m.Target()) == plans.Of(m.Target()))
            && (phase == FailedTargetFenced ==> Fenced(s.Of(m.Source())) && Fenced(s.Of(m.Target())))
            && (phase == SourceReactivatedNotRouted ==> Fenced(s.Of(m.Target())) && s.Of(m.Source()) == plans.Of(m.Source()))
  {
  }

  class Operator {
    const plans: Plans
    ghost const recovery: Cell
    var state: State
    ghost var trace: seq<Action>
    /** Whether a process has been lost or a provider call has failed. */
    ghost var disturbed: bool

    ghost predicate Valid()
      reads this
    {
      Fenced(recovery) && state == Execution(plans, recovery, trace)
    }

    constructor (plans: Plans, recovery: Cell)
      requires Fenced(recovery)
      ensures Valid() && this.plans == plans && this.recovery == recovery && state == Start(plans, recovery) && !disturbed
    {
      this.plans, this.recovery, this.state, this.trace, this.disturbed := plans, recovery, Start(plans, recovery), [], false;
    }

    method Take(a: Action)
      requires Valid() && Enabled(plans, state, a)
      modifies this`state, this`trace
      ensures Valid() && state == Next(plans, old(state), a)
    {
      hide Next, Enabled;
      ghost var longer := trace + [a];
      assert longer[..|trace|] == trace;
      state := Next(plans, state, a);
      trace := longer;
    }

    /** The process is lost, or carries on. */
    method Lost() returns (lost: bool)
      requires Valid()
      modifies this
      ensures Valid() && state == if lost then old(state).(op := Idle) else old(state)
      ensures disturbed == (old(disturbed) || lost)
    {
      lost := *;
      disturbed := disturbed || lost;
      if lost { Take(Crashes); }
    }

    /** One journal call at the point of the command where its proof is complete. */
    method CallJournal(r: Request) returns (result: Result<bool>)
      requires Valid() && Gate(state.op, r)
      modifies this`state, this`trace
      ensures Valid() && (result, state.store) == Execute(r, old(state).store)
      ensures state == old(state).(store := state.store, op := Idle)
    {
      hide Execute, Gate;
      result := Execute(r, state.store).0;
      Take(Calls(r));
    }

    /** One provider call that closes a path; a reported success took effect. */
    method FenceOne(r: Resource) returns (reported: bool)
      requires Valid() && state.op.Fencing?
      modifies this
      ensures Valid() && state.store == old(state).store && state.op == old(state).op
      ensures var region := state.op.region;
              && state.Of(region).Keys == old(state).Of(region).Keys
              && (state.Of(region) == old(state).Of(region)
                  || (r in old(state).Of(region) && state.Of(region) == old(state).Of(region)[r := FencedSetting(r)]))
              && (reported ==> r in state.Of(region) && state.Of(region)[r] == FencedSetting(r))
      ensures old(disturbed) ==> disturbed
      ensures !disturbed ==> (reported <==> r in old(state).Of(state.op.region))
    {
      hide Execution, Fenced, OwnsPhase, Gate;
      var applied;
      applied, reported := *, *;
      disturbed := disturbed || !applied || !reported;
      if applied && r in state.Of(state.op.region) {
        Take(WritesFence(r));
      } else {
        reported := false;
      }
    }

    /** Every resource is attempted; the failures are collected. */
    method FenceAll(m: Manifest, region: Region, order: seq<Resource>) returns (failures: seq<Resource>, lost: bool)
      requires Valid() && state.op == Fencing(m, region)
      modifies this
      ensures Valid() && state.store == old(state).store
      ensures state.op == (if lost then Idle else Fencing(m, region))
      ensures state.Of(region).Keys == old(state).Of(region).Keys
      ensures !lost ==> forall r :: r in order && r !in failures ==>
                r in state.Of(region) && state.Of(region)[r] == FencedSetting(r)
      ensures (old(disturbed) ==> disturbed) && (lost ==> disturbed)
      ensures !disturbed ==> (failures == [] <==> Present(order, old(state).Of(region)))
    {
      hide Execution, Fenced, OwnsPhase, Gate, Next, Enabled;
      failures, lost := [], false;
      ghost var keys := state.Of(region).Keys;
      for i := 0 to |order|
        invariant Valid() && state.store == old(state).store && state.op == Fencing(m, region)
        invariant state.Of(region).Keys == keys
        invariant forall j :: 0 <= j < i && order[j] !in failures ==>
                    order[j] in state.Of(region) && state.Of(region)[order[j]] == FencedSetting(order[j])
        invariant old(disturbed) ==> disturbed
        invariant !disturbed ==> (failures == [] <==> forall j :: 0 <= j < i ==> order[j] in keys)
      {
        var reported := FenceOne(order[i]);
        if !reported { failures := failures + [order[i]]; }
        lost := Lost();
        if lost { return; }
      }
    }

    /** Read every listed resource back; on a covered cell that proves it fenced. */
    method VerifyFence(region: Region, order: seq<Resource>) returns (ok: bool)
      requires Covers(order, state.Of(region))
      ensures ok <==> AllFenced(state.Of(region), order)
      ensures ok ==> Fenced(state.Of(region))
    {
      var cell := state.Of(region);
      for i := 0 to |order|
        invariant forall j :: 0 <= j < i ==> order[j] in cell && cell[order[j]] == FencedSetting(order[j])
      {
        if order[i] !in cell || cell[order[i]] != FencedSetting(order[i]) {
          return false;
        }
      }
      return true;
    }

    /** One provider call that restores a reviewed setting; a reported success took effect. */
    method RestoreOne(r: Resource, region: Region) returns (reported: bool)
      requires Valid() && Raising(state.op) == Some(region)
      modifies this
      ensures Valid() && state.store == old(state).store && state.op == old(state).op && state.deploying == old(state).deploying
      ensures state.Of(region).Keys == old(state).Of(region).Keys && state.Of(region.Other()) == old(state).Of(region.Other())
      ensures || state.Of(region) == old(state).Of(region)
              || (r in old(state).Of(region) && r in plans.Of(region)
                  && state.Of(region) == old(state).Of(region)[r := plans.Of(region)[r]])
      ensures reported ==> r in state.Of(region) && r in plans.Of(region) && state.Of(region)[r] == plans.Of(region)[r]
      ensures old(disturbed) ==> disturbed
      ensures !disturbed ==> (reported <==> r in old(state).Of(region) && r in plans.Of(region))
    {
      hide Execution, Fenced, OwnsPhase, Gate;
      var applied;
      applied, reported := *, *;
      disturbed := disturbed || !applied || !reported;
      if applied && r in state.Of(region) && r in plans.Of(region) {
        Take(WritesPlan(r));
      } else {
        reported := false;
      }
    }

    /** Restore the reviewed setting of every resource, collecting the failures. */
    method RestoreAll(order: seq<Resource>, region: Region) returns (failures: seq<Resource>, lost: bool)
      requires Valid() && Raising(state.op) == Some(region)
      modifies this
      ensures Valid() && state.store == old(state).store && state.deploying == old(state).deploying
      ensures state.op == (if lost then Idle else old(state).op)
      ensures state.Of(region).Keys == old(state).Of(region).Keys && state.Of(region.Other()) == old(state).Of(region.Other())
      ensures !lost ==> forall r :: r in order && r !in failures ==>
                r in state.Of(region) && r in plans.Of(region) && state.Of(region)[r] == plans.Of(region)[r]
      ensures (old(disturbed) ==> disturbed) && (lost ==> disturbed)
      ensures !disturbed ==>
                (failures == [] <==> Present(order, old(state).Of(region)) && Present(order, plans.Of(region)))
    {
      hide Execution, Fenced, OwnsPhase, Gate, Next, Enabled, Raising;
      failures, lost := [], false;
      ghost var keys := state.Of(region).Keys;
      for i := 0 to |order|
        invariant Valid() && state.store == old(state).store && state.deploying == old(state).deploying
        invariant state.op == old(state).op
        invariant state.Of(region).Keys == keys && state.Of(region.Other()) == old(state).Of(region.Other())
        invariant forall j :: 0 <= j < i && order[j] !in failures ==>
                    && order[j] in state.Of(region) && order[j] in plans.Of(region)
                    && state.Of(region)[order[j]] == plans.Of(region)[order[j]]
        invariant old(disturbed) ==> disturbed
        invariant !disturbed ==> (failures == [] <==> forall j :: 0 <= j < i ==> order[j] in keys && order[j] in plans.Of(region))
      {
        var reported := RestoreOne(order[i], region);
        if !reported { failures := failures + [order[i]]; }
        lost := Lost();
        if lost { return; }
      }
    }

    /** Prove that a cell carries exactly its reviewed settings. */
    method VerifyPlan(region: Region, order: seq<Resource>) returns (ok: bool)
      requires Covers(order, state.Of(region)) && Covers(order, plans.Of(region))
      ensures ok <==> Matches(state.Of(region), plans.Of(region), order)
      ensures ok ==> state.Of(region) == plans.Of(region)
    {
      var cell, plan := state.Of(region), plans.Of(region);
      for i := 0 to |order|
        invariant forall j :: 0 <= j < i ==> order[j] in cell && order[j] in plan && cell[order[j]] == plan[order[j]]
      {
        if order[i] !in cell || order[i] !in plan || cell[order[i]] != plan[order[i]] {
          return false;
        }
      }
      return true;
    }

    /** The loop and its proof, shared by the two restoring commands. */
    method RestoreCell(order: seq<Resource>, region: Region) returns (ok: bool)
      requires Valid() && Raising(state.op) == Some(region)
      requires Covers(order, state.Of(region)) && Covers(order, plans.Of(region))
      modifies this
      ensures Valid() && state.store == old(state).store && state.deploying == old(state).deploying
      ensures state.op == (if ok then old(state).op else Idle) && (ok ==> state.Of(region) == plans.Of(region))
      ensures state.Of(region).Keys == old(state).Of(region).Keys && state.Of(region.Other()) == old(state).Of(region.Other())
      ensures old(disturbed) ==> disturbed
      ensures !disturbed ==> (ok <==> Present(order, old(state).Of(region)) && Present(order, plans.Of(region)))
    {
      hide Execution, Fenced, OwnsPhase, Gate, Next, Enabled, Raising;
      var failures, lost := RestoreAll(order, region);
      if lost { return false; }
      ok := VerifyPlan(region, order);
      if failures != [] || !ok {
        Abandon();
        return false;
      }
    }

    /** An exception inside a command: nothing more happens in this process. */
    method Abandon()
      requires Valid()
      modifies this`state, this`trace
      ensures Valid() && state == old(state).(op := Idle)
    {
      Take(Crashes);
    }

    /** Repeating a completed step: the journal answers and nothing is written. */
    method RepeatJournal(r: Request) returns (result: Result<bool>)
      requires Valid() && state.op == Idle && r.kind.Advance?
      requires state.store.authority.Some? && state.store.authority.value.phase == r.kind.to
      ensures Execute(r, state.store) == (result, state.store)
      ensures result.Ok? ==> state.store.authority.value.claim == Some(ClaimOf(r.manifest))
    {
      RepeatWritesNothing(r, state.store);
      result := Execute(r, state.store).0;
      if result.Ok? { AdvanceAccepted(r, state.store); }
    }

    /** `fence-source`: claim, close every execution path of the source, prove it, record it. */
    method FenceSourceStep(m: Manifest, order: seq<Resource>, now: nat, digest: string) returns (ok: bool)
      requires Valid() && state.op == Idle && Covers(order, state.Of(m.Source()))
      modifies this
      ensures Valid() && state.op == Idle
      ensures ok ==> OwnsPhase(state, m, SourceFenced) && Fenced(state.Of(m.Source())) && Fenced(state.Of(m.Target()))
      ensures old(disturbed) ==> disturbed
      ensures !disturbed ==> (ok <==> FenceSourceSucceeds(plans, old(state), m, order, now, digest))
      ensures forall later: nat ::
                FenceSourceSucceeds(plans, old(state), m, order, later, digest) ==>
                  FenceSourceSucceeds(plans, state, m, order, later, digest)
    {
      hide Execution, Execute, Fenced, Parses, Next, Enabled, Invariant, Consistent, AllFenced, Present, Matches, Covers, Sound, Recorded;
      ghost var start := state;
      ghost var w := ExecutionJournal(plans, recovery, trace);
      if !m.HasReactivationAuthority() || state.store.authority.None? || !Parses(state.store.authority.value) {
        return false;
      }
      if state.store.authority.value.phase == Stable && state.Of(m.Source()) != plans.Of(m.Source()) {
        return false;
      }
      var claim := Request(ClaimFence, m, now, None);
      ghost var before := state.store;
      var claimed := CallJournal(claim);
      if claimed.Refused? {
        RefusalWritesNothing(claim, before);
        return false;
      }
      ClaimAccepted(claim, before);
      ok := FenceAndRecord(m, m.Source(), FencingSource, SourceFenced, order, now, digest);
      FenceSourceStands(plans, start, state, w, m, order, now, digest);
      if ok {
        RunKeepsInvariant(plans, recovery, trace);
        PhaseSays(plans, state, m);
      }
    }

    /** `fence-failed-target`: the same for a routed target that failed its verification. */
    method FenceFailedTargetStep(m: Manifest, order: seq<Resource>, now: nat, digest: string) returns (ok: bool)
      requires Valid() && state.op == Idle && Covers(order, state.Of(m.Target()))
      modifies this
      ensures Valid() && state.op == Idle
      ensures ok ==> OwnsPhase(state, m, FailedTargetFenced) && Fenced(state.Of(m.Source())) && Fenced(state.Of(m.Target()))
      ensures old(disturbed) ==> disturbed
      ensures !disturbed ==> (ok <==> FenceFailedTargetSucceeds(old(state), m, order, now, digest))
      ensures forall later: nat ::
                FenceFailedTargetSucceeds(old(state), m, order, later, digest) ==>
                  FenceFailedTargetSucceeds(state, m, order, later, digest)
    {
      hide Execution, Execute, Fenced, Parses, Next, Enabled, Invariant, Consistent, AllFenced, Present, Matches, Covers, Sound, Recorded;
      ghost var start := state;
      ghost var w := ExecutionJournal(plans, recovery, trace);
      if !m.HasReactivationAuthority() || state.store.authority.None? || !Parses(state.store.authority.value) {
        return false;
      }
      if state.store.authority.value.phase == FailedTargetFenced {
        ok := VerifyFence(m.Target(), order);
        if !ok { return; }
        RepeatWritesNothing(Request(Advance(FencingFailedTarget, FailedTargetFenced), m, now, Some(digest)), state.store);
        ok := RecordFence(m, m.Target(), FencingFailedTarget, FailedTargetFenced, now, digest);
      } else {
        ok := Advanced(Request(Advance(VerifyingStableRoute, FencingFailedTarget), m, now, None));
        if !ok { return; }
        ok := FenceAndRecord(m, m.Target(), FencingFailedTarget, FailedTargetFenced, order, now, digest);
        FenceFailedTargetStands(start, state, w, m, order, now, digest);
      }
      if ok {
        RunKeepsInvariant(plans, recovery, trace);
        PhaseSays(plans, state, m);
      }
    }

    /** One phase request; accepted means the journal stands at its phase under this manifest. */
    method Advanced(r: Request) returns (ok: bool)
      requires Valid() && r.kind.Advance? && Gate(state.op, r)
      modifies this`state, this`trace
      ensures (ok <==> Execute(r, old(state).store).0.Ok?) && state.store == Execute(r, old(state).store).1
      ensures Valid() && state.op == Idle
      ensures ok ==> old(state).store.authority.Some? && OwnsPhase(state, r.manifest, r.kind.to)
      ensures state == old(state).(store := state.store, op := Idle)
      ensures !ok ==> state.store == old(state).store
    {
      hide Execution, Gate, Fenced, Parses;
      ghost var before := state.store;
      var result := CallJournal(r);
      if result.Ok? { AdvanceAccepted(r, before); } else { RefusalWritesNothing(r, before); }
      return result.Ok?;
    }

    /** The loop, its proof and its record, shared by the two fencing commands. */
    method FenceAndRecord(m: Manifest, region: Region, from: Phase, to: Phase, order: seq<Resource>, now: nat, digest: string)
      returns (ok: bool)
      requires Valid() && state.op == Idle && Covers(order, state.Of(region))
      requires || (region == m.Source() && from == FencingSource && to == SourceFenced
                   && (OwnsPhase(state, m, FencingSource) || OwnsPhase(state, m, SourceFenced)))
               || (region == m.Target() && from == FencingFailedTarget && to == FailedTargetFenced
                   && OwnsPhase(state, m, FencingFailedTarget))
      modifies this
      ensures Valid() && state.op == Idle
      ensures ok ==> OwnsPhase(state, m, to)
      ensures old(disturbed) ==> disturbed
      ensures !disturbed ==>
                (ok <==> Present(order, old(state).Of(region)) && Accepted(Advance(from, to), m, now, Some(digest), old(state).store))
      ensures state.Of(region).Keys == old(state).Of(region).Keys && (ok ==> Fenced(state.Of(region)))
      ensures ok ==> Accepted(Advance(from, to), m, now, Some(digest), old(state).store)
      ensures state.store == if ok then Left(Advance(from, to), m, now, Some(digest), old(state).store) else old(state).store
    {
      hide Execution, Execute, Fenced, Parses;
      Take(BeginsFence(m, region));
      ok := FenceCell(m, region, order);
      if !ok { return; }
      ok := RecordFence(m, region, from, to, now, digest);
    }

    method FenceCell(m: Manifest, region: Region, order: seq<Resource>) returns (ok: bool)
      requires Valid() && state.op == Fencing(m, region) && Covers(order, state.Of(region))
      modifies this
      ensures Valid() && state.store == old(state).store && state.op == (if ok then Fencing(m, region) else Idle)
      ensures state.Of(region).Keys == old(state).Of(region).Keys && (ok ==> Fenced(state.Of(region)))
      ensures old(disturbed) ==> disturbed
      ensures !disturbed ==> (ok <==> Present(order, old(state).Of(region)))
    {
      hide Execution, Fenced, OwnsPhase, Gate, Next, Enabled;
      var failures, lost := FenceAll(m, region, order);
      if lost { return false; }
      ok := failures == [];
      if ok { ok := VerifyFence(region, order); }
      if !ok { Abandon(); }
    }

    method RecordFence(m: Manifest, region: Region, from: Phase, to: Phase, now: nat, digest: string) returns (ok: bool)
      requires Valid() && (state.op == Idle || state.op == Fencing(m, region)) && Fenced(state.Of(region))
      requires || (region == m.Source() && from == FencingSource && to == SourceFenced)
               || (region == m.Target() && from == FencingFailedTarget && to == FailedTargetFenced)
      modifies this`state, this`trace
      ensures ok <==> Accepted(Advance(from, to), m, now, Some(digest), old(state).store)
      ensures Valid() && state.op == Idle
      ensures ok ==> OwnsPhase(state, m, to)
      ensures state == old(state).(store := state.store, op := Idle)
      ensures state.store == if ok then Left(Advance(from, to), m, now, Some(digest), old(state).store) else old(state).store
    {
      hide Execution, Fenced;
      Take(ProvesFence(m, region));
      ok := Advanced(Request(Advance(from, to), m, now, Some(digest)));
    }

    /** The stack update passes through its stages; the process may be lost at any of them. */
    method DeployStages(m: Manifest, stages: seq<Cell>) returns (lost: bool)
      requires Valid() && state.op == Activating(m) && state.deploying && OwnsPhase(state, m, ActivatingTarget)
      modifies this
      ensures Valid() && state.store == old(state).store && state.Of(m.Source()) == old(state).Of(m.Source())
      ensures state.op == (if lost then Idle else Activating(m))
      ensures !lost && |stages| > 0 ==> state.Of(m.Target()) == stages[|stages| - 1]
      ensures (old(disturbed) ==> disturbed) && (lost ==> disturbed)
    {
      hide Execution, Fenced, Gate;
      RunKeepsInvariant(plans, recovery, trace);
      OwnerIsActive(state, m, ActivatingTarget);
      lost := false;
      for i := 0 to |stages|
        invariant Valid() && state.op == Activating(m) && state.deploying && OwnsPhase(state, m, ActivatingTarget)
        invariant state.store == old(state).store && state.store.authority.value.activeRegion == m.Source()
        invariant state.Of(m.Source()) == old(state).Of(m.Source())
        invariant i > 0 ==> state.Of(m.Target()) == stages[i - 1]
        invariant old(disturbed) ==> disturbed
      {
        Take(Deploys(stages[i]));
        lost := Lost();
        if lost { return; }
      }
    }

    /**
     `activate-target` of a failover. `stages` are the cells the stack update passes through;
     `succeeded` is what the deployment command reports.
     */
    method ActivateTargetStep(m: Manifest, order: seq<Resource>, stages: seq<Cell>, succeeded: bool, now: nat) returns (ok: bool)
      requires Valid() && state.op == Idle && Covers(order, state.Of(m.Source()))
      requires m.authority.direction.Failover?
      requires succeeded ==> |stages| > 0 && stages[|stages| - 1] == plans.Of(m.Target())
      modifies this
      ensures Valid() && state.op == Idle
      ensures ok ==>
                && OwnsPhase(state, m, TargetActiveNotRouted)
                && Fenced(state.Of(m.Source())) && state.Of(m.Target()) == plans.Of(m.Target())
      ensures old(disturbed) ==> disturbed
      ensures !disturbed ==> (ok <==> ActivateTargetSucceeds(old(state), m, order, succeeded, now))
      ensures ok || forall later: nat ::
                ActivateTargetSucceeds(old(state), m, order, succeeded, later) ==>
                  ActivateTargetSucceeds(state, m, order, succeeded, later)
    {
      hide Execution, Execute, Fenced, Parses, Next, Enabled, Consistent, AllFenced, Covers;
      ghost var start := state;
      ghost var w := ExecutionJournal(plans, recovery, trace);
      ok := Advanced(Request(Advance(SourceFenced, ActivatingTarget), m, now, None));
      if !ok { return; }
      ok := VerifyFence(m.Source(), order);
      if ok { ok := DeployAndRecord(m, stages, succeeded, now); }
      if !ok { ActivateTargetStands(start, state, w, m, order, succeeded, now); }
    }

    method DeployAndRecord(m: Manifest, stages: seq<Cell>, succeeded: bool, now: nat) returns (ok: bool)
      requires Valid() && state.op == Idle && m.authority.direction.Failover?
      requires OwnsPhase(state, m, ActivatingTarget) && Fenced(state.Of(m.Source()))
      requires succeeded ==> |stages| > 0 && stages[|stages| - 1] == plans.Of(m.Target())
      modifies this
      ensures Valid() && state.op == Idle
      ensures ok ==>
                && OwnsPhase(state, m, TargetActiveNotRouted)
                && Fenced(state.Of(m.Source())) && state.Of(m.Target()) == plans.Of(m.Target())
      ensures old(disturbed) ==> disturbed
      ensures !disturbed ==>
                (ok <==> succeeded && Accepted(Advance(ActivatingTarget, TargetActiveNotRouted), m, now, None, old(state).store))
      ensures state.Of(m.Source()) == old(state).Of(m.Source()) && (!ok ==> state.store == old(state).store)
    {
      hide Execution, Execute, Fenced, Parses, Invariant, Sound;
      Take(BeginsActivation(m));
      var lost := DeployStages(m, stages);
      if lost { return false; }
      if !succeeded {
        Abandon();
        return false;
      }
      Take(EndsActivation);
      ok := Advanced(Request(Advance(ActivatingTarget, TargetActiveNotRouted), m, now, None));
      if ok {
        RunKeepsInvariant(plans, recovery, trace);
        PhaseSays(plans, state, m);
      }
    }

    /** `activate-target` of a failback: restore the primary while the recovery cell stays fenced. */
    method ActivatePrimaryTargetStep(m: Manifest, sourceOrder: seq<Resource>, targetOrder: seq<Resource>, now: nat, digest: string)
      returns (ok: bool)
      requires Valid() && state.op == Idle
      requires Covers(sourceOrder, state.Of(m.Source()))
      requires Covers(targetOrder, state.Of(m.Target())) && Covers(targetOrder, plans.Of(m.Target()))
      modifies this
      ensures Valid() && state.op == Idle
      ensures ok ==>
                && OwnsPhase(state, m, TargetActiveNotRouted)
                && Fenced(state.Of(m.Source())) && state.Of(m.Target()) == plans.Of(m.Target())
      ensures old(disturbed) ==> disturbed
      ensures !disturbed ==> (ok <==> ActivatePrimarySucceeds(plans, old(state), m, sourceOrder, targetOrder, now, digest))
      ensures forall later: nat ::
                ActivatePrimarySucceeds(plans, old(state), m, sourceOrder, targetOrder, later, digest) ==>
                  ActivatePrimarySucceeds(plans, state, m, sourceOrder, targetOrder, later, digest)
    {
      hide Execution, Execute, Fenced, Parses, Next, Enabled, Invariant, Consistent, AllFenced, Present, Matches, Covers, Sound, Recorded;
      ghost var start := state;
      ghost var w := ExecutionJournal(plans, recovery, trace);
      if !m.HasReactivationAuthority() || !m.authority.direction.Failback? || state.store.authority.None? {
        return false;
      }
      var phase := state.store.authority.value.phase;
      if phase == TargetActiveNotRouted {
        ok := VerifyFence(m.Source(), sourceOrder);
        if !ok { return; }
        ok := VerifyPlan(m.Target(), targetOrder);
        if !ok { return; }
        var repeated := RepeatJournal(Request(Advance(ActivatingTarget, TargetActiveNotRouted), m, now, Some(digest)));
        return repeated.Ok?;
      }
      ok := Advanced(Request(Advance(SourceFenced, ActivatingTarget), m, now, None));
      if !ok { return; }
      ok := VerifyFence(m.Source(), sourceOrder);
      if ok && phase == SourceFenced { ok := VerifyFence(m.Target(), targetOrder); }
      if ok { ok := ActivateAndRecord(m, targetOrder, now, digest); }
      ActivatePrimaryStands(plans, start, state, w, m, sourceOrder, targetOrder, now, digest);
    }

    method ActivateAndRecord(m: Manifest, order: seq<Resource>, now: nat, digest: string) returns (ok: bool)
      requires Valid() && state.op == Idle && m.authority.direction.Failback?
      requires OwnsPhase(state, m, ActivatingTarget) && Fenced(state.Of(m.Source()))
      requires Covers(order, state.Of(m.Target())) && Covers(order, plans.Of(m.Target()))
      modifies this
      ensures Valid() && state.op == Idle
      ensures ok ==>
                && OwnsPhase(state, m, TargetActiveNotRouted)
                && Fenced(state.Of(m.Source())) && state.Of(m.Target()) == plans.Of(m.Target())
      ensures old(disturbed) ==> disturbed
      ensures !disturbed ==>
                (ok <==> && Present(order, old(state).Of(m.Target())) && Present(order, plans.Of(m.Target()))
                         && Accepted(Advance(ActivatingTarget, TargetActiveNotRouted), m, now, Some(digest), old(state).store))
      ensures state.Of(m.Source()) == old(state).Of(m.Source())
      ensures state.Of(m.Target()).Keys == old(state).Of(m.Target()).Keys
      ensures ok ==> Accepted(Advance(ActivatingTarget, TargetActiveNotRouted), m, now, Some(digest), old(state).store)
      ensures state.store ==
                if ok then Left(Advance(ActivatingTarget, TargetActiveNotRouted), m, now, Some(digest), old(state).store) else old(state).store
    {
      hide Execution, Execute, Fenced, Parses, Invariant, Sound;
      Take(BeginsActivation(m));
      ok := RestoreCell(order, m.Target());
      if !ok { return; }
      Take(EndsActivation);
      ok := Advanced(Request(Advance(ActivatingTarget, TargetActiveNotRouted), m, now, Some(digest)));
      if ok {
        RunKeepsInvariant(plans, recovery, trace);
        PhaseSays(plans, state, m);
      }
    }

    /** `reactivate-source`: re-prove the failed target fenced, then restore the source exactly. */
    method ReactivateSourceStep(m: Manifest, targetOrder: seq<Resource>, sourceOrder: seq<Resource>, now: nat, digest: string)
      returns (ok: bool)
      requires Valid() && state.op == Idle
      requires Covers(targetOrder, state.Of(m.Target()))
      requires Covers(sourceOrder, state.Of(m.Source())) && Covers(sourceOrder, plans.Of(m.Source()))
      modifies this
      ensures Valid() && state.op == Idle
      ensures ok ==>
                && OwnsPhase(state, m, SourceReactivatedNotRouted)
                && Fenced(state.Of(m.Target())) && state.Of(m.Source()) == plans.Of(m.Source())
      ensures old(disturbed) ==> disturbed
      ensures !disturbed ==> (ok <==> ReactivateSourceSucceeds(plans, old(state), m, targetOrder, sourceOrder, now, digest))
      ensures forall later: nat ::
                ReactivateSourceSucceeds(plans, old(state), m, targetOrder, sourceOrder, later, digest) ==>
                  ReactivateSourceSucceeds(plans, state, m, targetOrder, sourceOrder, later, digest)
    {
      hide Execution, Execute, Fenced, Parses, Next, Enabled, Invariant, Consistent, AllFenced, Present, Matches, Covers, Sound, Recorded;
      ghost var start := state;
      ghost var w := ExecutionJournal(plans, recovery, trace);
      if !m.HasReactivationAuthority() || state.store.authority.None? {
        return false;
      }
      var phase := state.store.authority.value.phase;
      if phase == SourceReactivatedNotRouted {
        ok := ReactivateAgain(m, targetOrder, sourceOrder, now, digest);
        return;
      }
      ok := Advanced(Request(Advance(FailedTargetFenced, ReactivatingSource), m, now, None));
      if !ok { return; }
      ok := VerifyFence(m.Target(), targetOrder);
      if ok && phase == FailedTargetFenced { ok := VerifyFence(m.Source(), sourceOrder); }
      if ok { ok := RestoreAndRecord(m, sourceOrder, now, digest); }
      ReactivateSourceStands(plans, start, state, w, m, targetOrder, sourceOrder, now, digest);
    }

    /** The completed step repeated: both proofs again, and the journal's answer. */
    method ReactivateAgain(m: Manifest, targetOrder: seq<Resource>, sourceOrder: seq<Resource>, now: nat, digest: string)
      returns (ok: bool)
      requires Valid() && state.op == Idle && Covers(targetOrder, state.Of(m.Target()))
      requires Covers(sourceOrder, state.Of(m.Source())) && Covers(sourceOrder, plans.Of(m.Source()))
      requires state.store.authority.Some? && state.store.authority.value.phase == SourceReactivatedNotRouted
      ensures ok <==>
                && AllFenced(state.Of(m.Target()), targetOrder) && Matches(state.Of(m.Source()), plans.Of(m.Source()), sourceOrder)
                && Accepted(Advance(ReactivatingSource, SourceReactivatedNotRouted), m, now, Some(digest), state.store)
      ensures ok ==>
                && OwnsPhase(state, m, SourceReactivatedNotRouted)
                && Fenced(state.Of(m.Target())) && state.Of(m.Source()) == plans.Of(m.Source())
    {
      hide Execution, Execute, Fenced, Covers, AllFenced, Matches;
      ok := VerifyFence(m.Target(), targetOrder);
      if !ok { return; }
      ok := VerifyPlan(m.Source(), sourceOrder);
      if !ok { return; }
      var repeated := RepeatJournal(Request(Advance(ReactivatingSource, SourceReactivatedNotRouted), m, now, Some(digest)));
      return repeated.Ok?;
    }

    method RestoreAndRecord(m: Manifest, order: seq<Resource>, now: nat, digest: string) returns (ok: bool)
      requires Valid() && state.op == Idle && OwnsPhase(state, m, ReactivatingSource) && Fenced(state.Of(m.Target()))
      requires Covers(order, state.Of(m.Source())) && Covers(order, plans.Of(m.Source()))
      modifies this
      ensures Valid() && state.op == Idle
      ensures ok ==>
                && OwnsPhase(state, m, SourceReactivatedNotRouted)
                && Fenced(state.Of(m.Target())) && state.Of(m.Source()) == plans.Of(m.Source())
      ensures old(disturbed) ==> disturbed
      ensures !disturbed ==>
                (ok <==> && Present(order, old(state).Of(m.Source())) && Present(order, plans.Of(m.Source()))
                         && Accepted(Advance(ReactivatingSource, SourceReactivatedNotRouted), m, now, Some(digest), old(state).store))
      ensures state.Of(m.Target()) == old(state).Of(m.Target())
      ensures state.Of(m.Source()).Keys == old(state).Of(m.Source()).Keys
      ensures ok ==> Accepted(Advance(ReactivatingSource, SourceReactivatedNotRouted), m, now, Some(digest), old(state).store)
      ensures state.store ==
                if ok then Left(Advance(ReactivatingSource, SourceReactivatedNotRouted), m, now, Some(digest), old(state).store) else old(state).store
    {
      hide Execution, Execute, Fenced, Parses, Invariant, Sound, Next, Enabled, Present;
      ok := RestoreSource(m, order);
      if !ok { return; }
      ok := Advanced(Request(Advance(ReactivatingSource, SourceReactivatedNotRouted), m, now, Some(digest)));
      if ok {
        RunKeepsInvariant(plans, recovery, trace);
        PhaseSays(plans, state, m);
      }
    }

    method RestoreSource(m: Manifest, order: seq<Resource>) returns (ok: bool)
      requires Valid() && state.op == Idle && OwnsPhase(state, m, ReactivatingSource) && Fenced(state.Of(m.Target()))
      requires Covers(order, state.Of(m.Source())) && Covers(order, plans.Of(m.Source()))
      modifies this
      ensures Valid() && state.store == old(state).store && state.op == (if ok then Restored(m) else Idle)
      ensures state.Of(m.Target()) == old(state).Of(m.Target())
      ensures state.Of(m.Source()).Keys == old(state).Of(m.Source()).Keys
      ensures old(disturbed) ==> disturbed
      ensures !disturbed ==> (ok <==> Present(order, old(state).Of(m.Source())) && Present(order, plans.Of(m.Source())))
    {
      hide Execution, Fenced, Present, Covers, OwnsPhase, Gate;
      Take(BeginsRestore(m));
      ok := RestoreCell(order, m.Source());
      if ok { Take(EndsRestore); }
    }
  }

  lemma RunKeepsInvariant(plans: Plans, recovery: Cell, actions: seq<Action>)
    requires Fenced(recovery)
    ensures Invariant(plans, Execution(plans, recovery, actions))
    ensures var s := Execution(plans, recovery, actions);
            s.store.authority.Some? ==> Sound(s.store.authority.value)
  {
    ExecutionKeepsInvariant(plans, recovery, actions);
    hide Execution, Sound;
  }

  lemma RefusalWritesNothing(r: Request, s: Store)
    requires Execute(r, s).0.Refused?
    ensures Execute(r, s).1 == s
  {
  }
}
