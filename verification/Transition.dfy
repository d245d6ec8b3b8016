/**
 Journal and runtimes together: failover, failback and rollback as one live operator runs
 them, command by command, crashing at any point and starting again. Every write to a
 single resource is a step of its own.
 */
module Transition {
  import opened Base
  import opened Journal
  import opened JournalHistory
  import opened Runtime

  /** What the operator's current command has got to. */
  datatype Op =
    | Idle
    | Fencing(manifest: Manifest, region: Region)
    | Proved(manifest: Manifest, region: Region)
    | Activating(manifest: Manifest)
    | Activated(manifest: Manifest)
    | Restoring(manifest: Manifest)
    | Restored(manifest: Manifest)

  /** The reviewed setting of every resource of each cell. */
  datatype Plans = Plans(primary: Cell, recovery: Cell) {
    function Of(region: Region): Cell { if region.Primary? then primary else recovery }
  }

  /** `deploying`: a target deployment was started and has not reported success. */
  datatype State = State(store: Store, primary: Cell, recovery: Cell, op: Op, deploying: bool) {
    function Of(region: Region): Cell { if region.Primary? then primary else recovery }

    function With(region: Region, cell: Cell): State {
      if region.Primary? then this.(primary := cell) else this.(recovery := cell)
    }
  }

  datatype Action =
    | Calls(request: Request)
    | BeginsFence(manifest: Manifest, region: Region)
    | WritesFence(resource: Resource)
    | ProvesFence(manifest: Manifest, region: Region)
    | BeginsActivation(manifest: Manifest)
    | Deploys(cell: Cell)
    | WritesPlan(resource: Resource)
    | EndsActivation
    | BeginsRestore(manifest: Manifest)
    | EndsRestore
    | Crashes

  predicate OwnsPhase(s: State, m: Manifest, phase: Phase) {
    && s.store.authority.Some?
    && s.store.authority.value.phase == phase
    && s.store.authority.value.claim == Some(ClaimOf(m))
  }

  /** What must have been proved, in the same command, before a journal call is made. */
  predicate Gate(op: Op, r: Request) {
    if r.kind == Advance(FencingSource, SourceFenced) then op == Proved(r.manifest, r.manifest.Source())
    else if r.kind == Advance(FencingFailedTarget, FailedTargetFenced) then op == Proved(r.manifest, r.manifest.Target())
    else if r.kind == Advance(ActivatingTarget, TargetActiveNotRouted) then op == Activated(r.manifest)
    else if r.kind == Advance(ReactivatingSource, SourceReactivatedNotRouted) then op == Restored(r.manifest)
    else op == Idle
  }

  /** The Region whose cell the current command is bringing up. */
  function Raising(op: Op): Option<Region> {
    match op
    case Activating(m) => if m.authority.direction.Failback? then Some(m.Target()) else None
    case Restoring(m) => Some(m.Source())
    case _ => None
  }

  predicate Enabled(plans: Plans, s: State, a: Action) {
    match a
    case Calls(r) => Gate(s.op, r)
    case BeginsFence(m, region) =>
      && s.op == Idle
      && (|| (region == m.Source() && (OwnsPhase(s, m, FencingSource) || OwnsPhase(s, m, SourceFenced)))
          || (region == m.Target() && OwnsPhase(s, m, FencingFailedTarget)))
    case WritesFence(r) => s.op.Fencing? && r in s.Of(s.op.region)
    case ProvesFence(m, region) => (s.op == Idle || s.op == Fencing(m, region)) && Fenced(s.Of(region))
    case BeginsActivation(m) => s.op == Idle && OwnsPhase(s, m, ActivatingTarget) && Fenced(s.Of(m.Source()))
    case Deploys(_) => s.deploying && s.store.authority.Some?
    case WritesPlan(r) =>
      Raising(s.op).Some? && r in s.Of(Raising(s.op).value) && r in plans.Of(Raising(s.op).value)
    case EndsActivation =>
      s.op.Activating? && s.Of(s.op.manifest.Target()) == plans.Of(s.op.manifest.Target())
    case BeginsRestore(m) => s.op == Idle && OwnsPhase(s, m, ReactivatingSource) && Fenced(s.Of(m.Target()))
    case EndsRestore => s.op.Restoring? && s.Of(s.op.manifest.Source()) == plans.Of(s.op.manifest.Source())
    case Crashes => true
  }

  /** One atomic action; one that is not enabled does not happen. */
  function Next(plans: Plans, s: State, a: Action): State {
    if !Enabled(plans, s, a) then s
    else match a
      case Calls(r) => s.(store := Execute(r, s.store).1, op := Idle)
      case BeginsFence(m, region) => s.(op := Fencing(m, region))
      case WritesFence(r) => s.With(s.op.region, s.Of(s.op.region)[r := FencedSetting(r)])
      case ProvesFence(m, region) => s.(op := Proved(m, region))
      case BeginsActivation(m) => s.(op := Activating(m), deploying := s.deploying || m.authority.direction.Failover?)
      case Deploys(cell) => s.With(s.store.authority.value.activeRegion.Other(), cell)
      case WritesPlan(r) =>
        var region := Raising(s.op).value;
        s.With(region, s.Of(region)[r := plans.Of(region)[r]])
      case EndsActivation => s.(op := Activated(s.op.manifest), deploying := false)
      case BeginsRestore(m) => s.(op := Restoring(m))
      case EndsRestore => s.(op := Restored(s.op.manifest))
      case Crashes => s.(op := Idle)
  }

  function Start(plans: Plans, recovery: Cell): State {
    State(EmptyStore, plans.primary, recovery, Idle, false)
  }

  function Execution(plans: Plans, recovery: Cell, actions: seq<Action>): State {
    if |actions| == 0 then Start(plans, recovery)
    else Next(plans, Execution(plans, recovery, actions[..|actions| - 1]), actions[|actions| - 1])
  }

  // ----- The phase-indexed invariant -----

  predicate Serving(plans: Plans, s: State, region: Region) { s.Of(region) == plans.Of(region) }

  predicate PhaseHolds(plans: Plans, s: State, active: Region, phase: Phase) {
    var other := active.Other();
    match phase
    case Stable => Fenced(s.Of(other)) && Serving(plans, s, active)
    case FencingSource => Fenced(s.Of(other))
    case SourceFenced => Fenced(s.Of(active)) && Fenced(s.Of(other))
    case ActivatingTarget => Fenced(s.Of(active))
    case FencingFailedTarget => Fenced(s.Of(active))
    case FailedTargetFenced => Fenced(s.Of(active)) && Fenced(s.Of(other))
    case ReactivatingSource => Fenced(s.Of(other))
    case _ =>
      if Rank(phase) <= Rank(VerifyingStableRoute) then Fenced(s.Of(active)) && Serving(plans, s, other)
      else Fenced(s.Of(other)) && Serving(plans, s, active)
  }

  predicate OpHolds(plans: Plans, s: State) {
    match s.op
    case Idle => true
    case Fencing(m, region) =>
      || (region == m.Source() && (OwnsPhase(s, m, FencingSource) || OwnsPhase(s, m, SourceFenced)))
      || (region == m.Target() && OwnsPhase(s, m, FencingFailedTarget))
    case Proved(_, region) => !s.deploying ==> Fenced(s.Of(region))
    case Activating(m) => OwnsPhase(s, m, ActivatingTarget)
    case Activated(m) =>
      !s.deploying && OwnsPhase(s, m, ActivatingTarget) && Serving(plans, s, m.Target())
    case Restoring(m) => OwnsPhase(s, m, ReactivatingSource)
    case Restored(m) => OwnsPhase(s, m, ReactivatingSource) && Serving(plans, s, m.Source())
  }

  predicate Invariant(plans: Plans, s: State) {
    && (match s.store.authority
        case None => PhaseHolds(plans, s, Primary, Stable) && !s.deploying
        case Some(item) =>
          && Sound(item)
          && PhaseHolds(plans, s, item.activeRegion, item.phase)
          && (s.deploying ==> item.phase == ActivatingTarget))
    && OpHolds(plans, s)
  }

  lemma ExecuteFollows(r: Request, s: Store)
    requires Execute(r, s).1 != s
    ensures var s' := Execute(r, s).1;
            && PlanFor(r, s.authority).Write?
            && s'.authority.Some?
            && Follows(s.authority, Entry(PlanFor(r, s.authority).tx, s'.authority.value))
            && PlanFor(r, s.authority).tx.request == r
  {
  }

  /** How each kind of commit moves the phase and the active Region. */
  lemma FollowsMovesPhase(before: Option<Item>, e: Entry)
    requires Follows(before, e) && (before.Some? ==> Sound(before.value))
    ensures match e.tx.request.kind
            case Initialize => before.None? && e.item.phase == Stable && e.item.activeRegion == Primary
            case ClaimFence =>
              && before.Some? && before.value.phase == Stable && e.item.phase == FencingSource
              && e.item.activeRegion == before.value.activeRegion
            case Advance(from, to) =>
              && before.Some? && before.value.phase == from && e.item.phase == to && Allowed(from, to)
              && e.item.activeRegion == before.value.activeRegion == e.tx.request.manifest.Source()
              && before.value.claim == e.item.claim == Some(ClaimOf(e.tx.request.manifest))
            case Complete =>
              && before.Some? && before.value.phase == VerifyingStableRoute && e.item.phase == Stable
              && e.item.activeRegion == before.value.activeRegion.Other()
            case RollBack =>
              && before.Some? && before.value.phase == VerifyingSourceRollback && e.item.phase == Stable
              && e.item.activeRegion == before.value.activeRegion
  {
  }

  lemma CallKeepsPhase(plans: Plans, s: State, e: Entry)
    requires Invariant(plans, s) && Gate(s.op, e.tx.request) && Follows(s.store.authority, e)
    ensures PhaseHolds(plans, s, e.item.activeRegion, e.item.phase)
    ensures s.deploying ==> e.item.phase == ActivatingTarget
  {
    hide Follows, Fenced, Sound;
    FollowsMovesPhase(s.store.authority, e);
  }

  lemma CallKeepsInvariant(plans: Plans, s: State, r: Request)
    requires Invariant(plans, s) && Gate(s.op, r)
    ensures Invariant(plans, s.(store := Execute(r, s.store).1, op := Idle))
  {
    hide Execute, Later, Follows, Sound, PhaseHolds, Gate, PlanFor;
    if Execute(r, s.store).1 != s.store {
      ExecuteFollows(r, s.store);
      var e := Entry(PlanFor(r, s.store.authority).tx, Execute(r, s.store).1.authority.value);
      FollowsIsSound(s.store.authority, e);
      CallKeepsPhase(plans, s, e);
      SameCells(plans, s, Execute(r, s.store).1, e.item.activeRegion, e.item.phase);
    } else if s.store.authority.Some? {
      SameCells(plans, s, s.store, s.store.authority.value.activeRegion, s.store.authority.value.phase);
    } else {
      SameCells(plans, s, s.store, Primary, Stable);
    }
  }

  lemma SameCells(plans: Plans, s: State, store: Store, active: Region, phase: Phase)
    ensures PhaseHolds(plans, s, active, phase) == PhaseHolds(plans, s.(store := store, op := Idle), active, phase)
  {
  }

  lemma OwnerIsActive(s: State, m: Manifest, phase: Phase)
    requires OwnsPhase(s, m, phase) && Sound(s.store.authority.value)
    ensures m.Source() == s.store.authority.value.activeRegion
  {
  }

  lemma FenceWriteKeepsInvariant(plans: Plans, s: State, r: Resource)
    requires Invariant(plans, s) && Enabled(plans, s, WritesFence(r))
    ensures Invariant(plans, Next(plans, s, WritesFence(r)))
  {
    hide Sound;
    OwnerIsActive(s, s.op.manifest, s.store.authority.value.phase);
  }

  lemma TargetWriteKeepsInvariant(plans: Plans, s: State, cell: Cell)
    requires Invariant(plans, s) && Enabled(plans, s, Deploys(cell))
    ensures Invariant(plans, Next(plans, s, Deploys(cell)))
  {
    hide Sound, Fenced;
  }

  lemma PlanWriteKeepsInvariant(plans: Plans, s: State, r: Resource)
    requires Invariant(plans, s) && Enabled(plans, s, WritesPlan(r))
    ensures Invariant(plans, Next(plans, s, WritesPlan(r)))
  {
    hide Sound, Fenced;
    OwnerIsActive(s, s.op.manifest, s.store.authority.value.phase);
  }

  /** The actions that only move the operator's command along, from proof to proof. */
  lemma CommandKeepsInvariant(plans: Plans, s: State, a: Action)
    requires Invariant(plans, s) && Enabled(plans, s, a)
    requires !a.Calls? && !a.WritesFence? && !a.Deploys? && !a.WritesPlan?
    ensures Invariant(plans, Next(plans, s, a))
  {
    hide Sound, Fenced, PhaseHolds, Gate;
    var s' := Next(plans, s, a);
    if s.store.authority.Some? {
      SameRuntimes(plans, s, s', s.store.authority.value.activeRegion, s.store.authority.value.phase);
    } else {
      SameRuntimes(plans, s, s', Primary, Stable);
    }
  }

  lemma SameRuntimes(plans: Plans, s: State, s': State, active: Region, phase: Phase)
    requires s'.primary == s.primary && s'.recovery == s.recovery
    ensures PhaseHolds(plans, s, active, phase) == PhaseHolds(plans, s', active, phase)
  {
    hide Fenced;
  }

  lemma NextKeepsInvariant(plans: Plans, s: State, a: Action)
    requires Invariant(plans, s)
    ensures Invariant(plans, Next(plans, s, a))
  {
    hide Execute, Invariant, Gate;
    if Enabled(plans, s, a) {
      match a
      case Calls(r) => CallKeepsInvariant(plans, s, r);
      case WritesFence(r) => FenceWriteKeepsInvariant(plans, s, r);
      case Deploys(cell) => TargetWriteKeepsInvariant(plans, s, cell);
      case WritesPlan(r) => PlanWriteKeepsInvariant(plans, s, r);
      case _ => CommandKeepsInvariant(plans, s, a);
    }
  }

  lemma {:induction false} ExecutionKeepsInvariant(plans: Plans, recovery: Cell, actions: seq<Action>)
    requires Fenced(recovery)
    ensures Invariant(plans, Execution(plans, recovery, actions))
  {
    hide Next;
    if |actions| > 0 {
      ExecutionKeepsInvariant(plans, recovery, actions[..|actions| - 1]);
      NextKeepsInvariant(plans, Execution(plans, recovery, actions[..|actions| - 1]), actions[|actions| - 1]);
    }
  }

  /** No split brain: in no reachable state does an execution path run in both cells. */
  lemma NoSplitBrain(plans: Plans, recovery: Cell, actions: seq<Action>, r1: Resource, r2: Resource)
    requires Fenced(recovery)
    ensures var s := Execution(plans, recovery, actions);
            !(r1 in s.primary && Runs(s.primary[r1]) && r2 in s.recovery && Runs(s.recovery[r2]))
  {
    hide Execution, Sound;
    ExecutionKeepsInvariant(plans, recovery, actions);
  }

  /**
   Whenever the journal is stable, the active cell runs exactly its reviewed plan, every
   restored reservation, mapping and rule included, and the other cell is fully fenced.
   */
  lemma StableMeansOneCellServes(plans: Plans, recovery: Cell, actions: seq<Action>)
    requires Fenced(recovery)
    ensures var s := Execution(plans, recovery, actions);
            s.store.authority.Some? && s.store.authority.value.phase == Stable ==>
              var active := s.store.authority.value.activeRegion;
              s.Of(active) == plans.Of(active) && Fenced(s.Of(active.Other()))
  {
    hide Execution, Sound;
    ExecutionKeepsInvariant(plans, recovery, actions);
  }
}
