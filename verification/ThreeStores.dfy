/**
 Journal, DNS and both runtimes in one run of a single live operator: every journal call,
 resource write, batch and late landing is an action of its own.
 */
module ThreeStores {
  import opened Base
  import opened Journal
  import opened JournalHistory
  import opened Routing
  import opened Runtime
  import LockStep
  import Transition

  datatype Action =
    | Calls(request: Request, seenAt: nat)
    | Runs(action: Transition.Action)
    | SendsForward(manifest: Manifest)
    | SendsBack(manifest: Manifest)
    | Lands(index: nat)

  datatype State = State(net: LockStep.Net, runtime: Transition.State)

  /** The operator reads the latest journal and the latest zone. */
  function Forward(s: State, m: Manifest): LockStep.Action
    requires |s.net.seen| > 0
  {
    LockStep.SendsForward(m, |s.net.journal.history|, |s.net.journal.history|, |s.net.seen| - 1)
  }

  function Back(s: State, m: Manifest): LockStep.Action
    requires |s.net.seen| > 0
  {
    LockStep.SendsBack(m, |s.net.journal.history|, |s.net.seen| - 1)
  }

  predicate Enabled(cells: Cells, plans: Transition.Plans, s: State, a: Action) {
    match a
    case Calls(r, seenAt) => Transition.Gate(s.runtime.op, r) && LockStep.AdvanceIsObserved(cells, s.net, r, seenAt)
    case Runs(action) => !action.Calls? && Transition.Enabled(plans, s.runtime, action)
    case SendsForward(m) => |s.net.seen| > 0 && LockStep.Permitted(cells, s.net, Forward(s, m))
    case SendsBack(m) =>
      |s.net.seen| > 0 && LockStep.Permitted(cells, s.net, Back(s, m)) && LockStep.Guarded(s.net, Back(s, m))
    case Lands(index) => index < |s.net.sent|
  }

  function Next(cells: Cells, plans: Transition.Plans, s: State, a: Action): State
    requires cells.Distinct()
  {
    if !Enabled(cells, plans, s, a) then s
    else match a
      case Calls(r, seenAt) =>
        State(Committed(cells, s.net, r, seenAt), Transition.Next(plans, s.runtime, Transition.Calls(r)))
      case Runs(action) => s.(runtime := Transition.Next(plans, s.runtime, action))
      case SendsForward(m) => s.(net := LockStep.Act(cells, s.net, Forward(s, m)))
      case SendsBack(m) => s.(net := LockStep.Act(cells, s.net, Back(s, m)))
      case Lands(index) => s.(net := LockStep.Act(cells, s.net, LockStep.Lands(index)))
  }

  function Start(cells: Cells, plans: Transition.Plans, recovery: Cell): State {
    State(LockStep.Start(cells), Transition.Start(plans, recovery))
  }

  function Play(cells: Cells, plans: Transition.Plans, recovery: Cell, actions: seq<Action>): State
    requires cells.Distinct()
  {
    if |actions| == 0 then Start(cells, plans, recovery)
    else Next(cells, plans, Play(cells, plans, recovery, actions[..|actions| - 1]), actions[|actions| - 1])
  }

  /** The two machines share one journal. */
  predicate Joined(cells: Cells, plans: Transition.Plans, s: State) {
    && LockStep.NetInvariant(cells, s.net)
    && Transition.Invariant(plans, s.runtime)
    && s.runtime.store == s.net.journal.store
  }

  /** What a journal call leaves of the shared side: one commit, or nothing. */
  function Committed(cells: Cells, n: LockStep.Net, r: Request, seenAt: nat): LockStep.Net
    requires cells.Distinct()
  {
    var plan := PlanFor(r, n.journal.store.authority);
    if plan.Write? then LockStep.Act(cells, n, LockStep.Commits(Attempt(plan.tx, |n.journal.history|), seenAt)) else n
  }

  /** A call of the whole journal function is one commit of the concurrent journal. */
  lemma CallKeepsJournalShared(cells: Cells, n: LockStep.Net, r: Request, seenAt: nat)
    requires cells.Distinct() && Consistent(n.journal) && LockStep.AdvanceIsObserved(cells, n, r, seenAt)
    ensures Committed(cells, n, r, seenAt).journal.store == Execute(r, n.journal.store).1
  {
    var w := n.journal;
    hide PlanFor, Execute, Step, Consistent, LockStep.AdvanceIsObserved, LockStep.Act;
    var plan := PlanFor(r, w.store.authority);
    if plan.Write? {
      SomethingWasRead(r, w.store.authority);
      var a := Attempt(plan.tx, |w.history|);
      UndisturbedCall(r, w, a);
      CommitIsStep(cells, n, a, seenAt);
    } else {
      OnlyWritesWrite(r, w.store);
    }
  }

  lemma CallIsExecuted(plans: Transition.Plans, s: Transition.State, r: Request)
    requires Transition.Gate(s.op, r)
    ensures Transition.Next(plans, s, Transition.Calls(r)).store == Execute(r, s.store).1
  {
    hide Execute, Transition.Gate;
  }

  lemma CommitIsStep(cells: Cells, n: LockStep.Net, a: Attempt, seenAt: nat)
    requires cells.Distinct() && LockStep.AdvanceIsObserved(cells, n, a.tx.request, seenAt)
    ensures LockStep.Act(cells, n, LockStep.Commits(a, seenAt)).journal == Step(n.journal, a)
  {
    hide Step, LockStep.AdvanceIsObserved;
  }

  lemma OnlyWritesWrite(r: Request, s: Store)
    requires !PlanFor(r, s.authority).Write?
    ensures Execute(r, s).1 == s
  {
  }

  lemma ForwardIsGuarded(cells: Cells, plans: Transition.Plans, s: State, m: Manifest)
    requires Joined(cells, plans, s) && Enabled(cells, plans, s, SendsForward(m))
    ensures LockStep.Guarded(s.net, Forward(s, m))
  {
    hide Transition.Invariant, Serial, Replay;
    LockStep.LatestIsSound(s.net.journal);
  }

  lemma RunsKeepsStore(plans: Transition.Plans, s: Transition.State, a: Transition.Action)
    requires !a.Calls?
    ensures Transition.Next(plans, s, a).store == s.store
  {
  }

  lemma SendsKeepsJournal(cells: Cells, n: LockStep.Net, a: LockStep.Action)
    requires cells.Distinct() && !a.Commits?
    ensures LockStep.Act(cells, n, a).journal == n.journal
  {
    hide ApplyBatch, BatchFor, LockStep.Permitted;
  }

  lemma NextKeepsJoined(cells: Cells, plans: Transition.Plans, s: State, a: Action)
    requires cells.Distinct() && Joined(cells, plans, s)
    ensures Joined(cells, plans, Next(cells, plans, s, a))
  {
    hide LockStep.NetInvariant, Transition.Invariant, LockStep.Act, Transition.Next, Transition.Gate, Transition.Enabled,
         LockStep.Permitted, LockStep.Guarded, PlanFor;
    if Enabled(cells, plans, s, a) {
      match a
      case Calls(r, seenAt) =>
        assert Consistent(s.net.journal) by { JoinedIsConsistent(cells, s.net); }
        CallKeepsJournalShared(cells, s.net, r, seenAt);
        CallIsExecuted(plans, s.runtime, r);
        Transition.NextKeepsInvariant(plans, s.runtime, Transition.Calls(r));
        var plan := PlanFor(r, s.net.journal.store.authority);
        if plan.Write? {
          CommitIsGuarded(s.net, Attempt(plan.tx, |s.net.journal.history|), seenAt);
          LockStep.ActKeepsInvariant(cells, s.net, LockStep.Commits(Attempt(plan.tx, |s.net.journal.history|), seenAt));
        }
      case Runs(action) =>
        RunsKeepsStore(plans, s.runtime, action);
        Transition.NextKeepsInvariant(plans, s.runtime, action);
      case SendsForward(m) =>
        ForwardIsGuarded(cells, plans, s, m);
        SendsKeepsJournal(cells, s.net, Forward(s, m));
        LockStep.ActKeepsInvariant(cells, s.net, Forward(s, m));
      case SendsBack(m) =>
        SendsKeepsJournal(cells, s.net, Back(s, m));
        LockStep.ActKeepsInvariant(cells, s.net, Back(s, m));
      case Lands(index) =>
        LandingIsGuarded(s.net, index);
        SendsKeepsJournal(cells, s.net, LockStep.Lands(index));
        LockStep.ActKeepsInvariant(cells, s.net, LockStep.Lands(index));
    }
  }

  lemma JoinedIsConsistent(cells: Cells, n: LockStep.Net)
    requires LockStep.NetInvariant(cells, n)
    ensures Consistent(n.journal)
  {
  }

  lemma CommitIsGuarded(n: LockStep.Net, a: Attempt, seenAt: nat)
    ensures LockStep.Guarded(n, LockStep.Commits(a, seenAt))
  {
  }

  lemma LandingIsGuarded(n: LockStep.Net, index: nat)
    ensures LockStep.Guarded(n, LockStep.Lands(index))
  {
  }

  lemma {:induction false} PlayKeepsJoined(cells: Cells, plans: Transition.Plans, recovery: Cell, actions: seq<Action>)
    requires cells.Distinct() && Fenced(recovery)
    ensures Joined(cells, plans, Play(cells, plans, recovery, actions))
  {
    if |actions| == 0 {
      LockStep.StartIsInStep(cells);
    } else {
      hide Joined, Next;
      var before := Play(cells, plans, recovery, actions[..|actions| - 1]);
      PlayKeepsJoined(cells, plans, recovery, actions[..|actions| - 1]);
      NextKeepsJoined(cells, plans, before, actions[|actions| - 1]);
    }
  }

  // ----- Traffic and cells -----

  predicate Names(cells: Cells, zone: Zone, region: Region) {
    && API in zone && zone[API] == Alias(cells.Of(region).stableApi)
    && UI in zone && zone[UI] == Alias(cells.Of(region).stableUi)
  }

  predicate OnlyServes(plans: Transition.Plans, s: Transition.State, region: Region) {
    s.Of(region) == plans.Of(region) && Fenced(s.Of(region.Other()))
  }

  /** Where the journal stands when a justified batch can land. */
  lemma LandingPhase(cells: Cells, item: Item, zone: Zone, sent: LockStep.Sent)
    requires cells.Distinct() && Sound(item) && LockStep.InStep(cells, Some(item), zone) && LockStep.Justified(item, sent)
    requires sent.AsMove().Valid() && ApplyBatch(BatchFor(cells, sent.AsMove()), zone).Some?
    ensures item.claim == Some(ClaimOf(sent.manifest))
    ensures item.phase == if sent.Forward? then RoutingTarget else RoutingSourceRollback
    ensures item.activeRegion == sent.manifest.Source()
  {
    hide RouteState, GenerationOf, ApplyBatch, BatchFor;
    var at := LockStep.PointOf(cells, item, zone);
    BatchLandsOnlyWhereBuilt(cells, sent.AsMove(), at);
    RouteStateDetermines(cells, at, sent.AsMove().from);
    PhaseByRank(item.phase);
  }

  lemma PhaseByRank(p: Phase)
    ensures Rank(p) == Rank(RoutingTarget) ==> p == RoutingTarget
    ensures Rank(p) == Rank(RoutingSourceRollback) ==> p == RoutingSourceRollback
  {
  }

  /**
   Traffic only ever moves to the cell that alone serves: whenever a batch lands, however late,
   the cell it names runs exactly its plan and the other is fenced.
   */
  lemma BatchesLandOnTheServingCell(cells: Cells, plans: Transition.Plans, recovery: Cell, actions: seq<Action>, index: nat)
    requires cells.Distinct() && Fenced(recovery)
    requires var s := Play(cells, plans, recovery, actions);
             && index < |s.net.sent| && s.net.sent[index].AsMove().Valid()
             && ApplyBatch(BatchFor(cells, s.net.sent[index].AsMove()), s.net.zone).Some?
    ensures var s := Play(cells, plans, recovery, actions);
            var to := s.net.sent[index].AsMove().to.region;
            && OnlyServes(plans, s.runtime, to)
            && Names(cells, ApplyBatch(BatchFor(cells, s.net.sent[index].AsMove()), s.net.zone).value, to)
  {
    hide Play, ApplyBatch, BatchFor, LockStep.InStep, LockStep.Justified, Consistent, Sound, RouteState, Fenced;
    var s := Play(cells, plans, recovery, actions);
    PlayKeepsJoined(cells, plans, recovery, actions);
    var sent := s.net.sent[index];
    assert sent in s.net.sent;
    LockStep.LatestIsSound(s.net.journal);
    var item := s.net.journal.store.authority.value;
    LandingPhase(cells, item, s.net.zone, sent);
    var at := LockStep.PointOf(cells, item, s.net.zone);
    BatchLandsOnlyWhereBuilt(cells, sent.AsMove(), at);
    RouteNames(cells, sent.AsMove().to);
  }

  lemma RouteNames(cells: Cells, p: Point)
    ensures Names(cells, RouteState(cells, p), p.region)
  {
  }

  /**
   Whenever the journal is stable or verifies a route, DNS names exactly the cell that alone
   serves: its resources are its reviewed plan, and the other cell is fenced.
   */
  lemma NamedCellAloneServes(cells: Cells, plans: Transition.Plans, recovery: Cell, actions: seq<Action>)
    requires cells.Distinct() && Fenced(recovery)
    requires var authority := Play(cells, plans, recovery, actions).net.journal.store.authority;
             && authority.Some?
             && authority.value.phase in {Stable, VerifyingStableRoute, VerifyingSourceRollback}
    ensures var s := Play(cells, plans, recovery, actions);
            var item := s.net.journal.store.authority.value;
            var named := if item.phase == VerifyingStableRoute then item.activeRegion.Other() else item.activeRegion;
            Names(cells, s.net.zone, named) && OnlyServes(plans, s.runtime, named)
  {
    hide Play, Consistent, Sound, RouteState, Fenced, Names;
    var s := Play(cells, plans, recovery, actions);
    PlayKeepsJoined(cells, plans, recovery, actions);
    var item := s.net.journal.store.authority.value;
    LockStep.LatestIsSound(s.net.journal);
    SoundClaim(item);
    RouteNames(cells, Point(item.activeRegion, item.generation, item.lastCompleted));
    if item.claim.Some? {
      var id := item.claim.value.transitionId;
      RouteNames(cells, Point(item.activeRegion.Other(), item.generation + 1, id));
      RouteNames(cells, Point(item.activeRegion, item.generation + 2, id));
    }
  }

  lemma SoundClaim(item: Item)
    requires Sound(item)
    ensures item.claim.None? <==> item.phase == Stable
  {
  }
}
