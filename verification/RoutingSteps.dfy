/**
 The routing commands as one operator runs them against the journal and Route 53, while
 other clients act and batches land at every pause. Each command is a run of `LockStep`,
 wherever it stops, so DNS stays in step with the journal throughout.
 */
module RoutingSteps {
  import opened Base
  import opened Journal
  import opened JournalHistory
  import opened Routing
  import opened LockStep
  import opened LockStepLimits
  import opened JournalOutcomes
  import opened RoutingOutcomes

  /** Transition identifiers are real and name one claim each. */
  predicate Known(claims: map<string, Claim>, m: Manifest) {
    var id := m.authority.transitionId;
    RealId(id) && id in claims && claims[id] == ClaimOf(m)
  }

  predicate AllKnown(claims: map<string, Claim>, n: Net) {
    forall i :: 0 <= i < |n.journal.history| ==> Known(claims, n.journal.history[i].tx.request.manifest)
  }

  /** Later than `n`: nothing any client has read has been rewritten. */
  predicate Grows(n: Net, n': Net) {
    n.seen <= n'.seen && n.journal.history <= n'.journal.history
  }

  predicate SeenIsCurrent(n: Net) {
    |n.seen| > 0 && n.seen[|n.seen| - 1] == n.zone
  }

  lemma ActGrows(cells: Cells, n: Net, a: Action)
    requires cells.Distinct() && SeenIsCurrent(n)
    ensures Grows(n, Act(cells, n, a)) && SeenIsCurrent(Act(cells, n, a))
    ensures a.Lands? ==> Act(cells, n, a).journal == n.journal
  {
    hide Permitted, ApplyBatch, BatchFor, ConditionHolds, PlanFor, RouteState;
  }

  lemma ActKeepsKnown(cells: Cells, n: Net, a: Action, claims: map<string, Claim>)
    requires cells.Distinct() && AllKnown(claims, n)
    requires a.Commits? ==> Known(claims, a.attempt.tx.request.manifest)
    ensures AllKnown(claims, Act(cells, n, a))
  {
    hide Permitted, ApplyBatch, BatchFor, ConditionHolds, PlanFor, RouteState, Known;
  }

  lemma {:induction false} PlayIsCurrent(cells: Cells, actions: seq<Action>)
    requires cells.Distinct()
    ensures SeenIsCurrent(Play(cells, actions, true))
  {
    hide Act, Guarded, SeenIsCurrent;
    if |actions| == 0 {
      assert SeenIsCurrent(Start(cells)) by { StartIsCurrent(cells); }
    } else {
      var n := Play(cells, actions[..|actions| - 1], true);
      PlayIsCurrent(cells, actions[..|actions| - 1]);
      ActGrows(cells, n, actions[|actions| - 1]);
    }
  }

  lemma StartIsCurrent(cells: Cells)
    ensures SeenIsCurrent(Start(cells))
  {
  }

  /** The claim in force was made by a committed request, so it is a known one. */
  lemma {:induction false} ClaimIsKnown(h: seq<Entry>, i: nat, claims: map<string, Claim>)
    requires Serial(h) && i < |h| && h[i].item.claim.Some?
    requires forall k :: 0 <= k < |h| ==> Known(claims, h[k].tx.request.manifest)
    ensures var c := h[i].item.claim.value;
            RealId(c.transitionId) && c.transitionId in claims && claims[c.transitionId] == c
  {
    hide Follows, Known;
    assert Known(claims, h[i].tx.request.manifest);
    HistoryIsSound(h, i);
    if i > 0 { HistoryIsSound(h, i - 1); }
    ClaimOrigin(ItemBefore(h, i), h[i]);
    if h[i].item.claim == Some(ClaimOf(h[i].tx.request.manifest)) {
      KnownClaim(claims, h[i].tx.request.manifest);
    } else {
      ClaimIsKnown(h, i - 1, claims);
    }
  }

  lemma KnownClaim(claims: map<string, Claim>, m: Manifest)
    requires Known(claims, m)
    ensures var c := ClaimOf(m); RealId(c.transitionId) && c.transitionId in claims && claims[c.transitionId] == c
  {
  }

  lemma ClaimOrigin(before: Option<Item>, e: Entry)
    requires Follows(before, e) && e.item.claim.Some?
    ensures e.item.claim == Some(ClaimOf(e.tx.request.manifest)) || (before.Some? && e.item.claim == before.value.claim)
  {
  }

  /** What an accepted phase request says about the authority it was decided on. */
  lemma AcceptedAdvance(r: Request, read: Item)
    requires r.kind.Advance? && Sound(read)
    requires var plan := PlanFor(r, Some(read)); plan.AlreadyDone? || plan.CheckEvidence?
    ensures read.phase == r.kind.to && read.claim == Some(ClaimOf(r.manifest))
    ensures Reached(read, r.manifest, r.kind.to)
  {
  }

  /** The journal is stable at this point. */
  predicate Sealed(item: Item, p: Point) {
    item.phase == Stable && item.claim.None? && Point(item.activeRegion, item.generation, item.lastCompleted) == p
  }

  /** What the transaction of a request leaves in the authority item. */
  predicate CommitLeft(r: Request, item: Item) {
    var m := r.manifest;
    && (r.kind.Advance? ==> item.phase == r.kind.to && item.claim == Some(ClaimOf(m)) && Reached(item, m, r.kind.to))
    && (r.kind.Complete? ==> Sealed(item, Point(m.Target(), m.authority.expectedGeneration + 1, m.authority.transitionId)))
    && (r.kind.RollBack? ==> Sealed(item, Point(m.Source(), m.authority.expectedGeneration + 2, m.authority.transitionId)))
  }

  lemma CommitLeaves(before: Option<Item>, e: Entry)
    requires Follows(before, e)
    ensures CommitLeft(e.tx.request, e.item)
  {
  }

  class Operator {
    const cells: Cells
    ghost const claims: map<string, Claim>
    var net: Net
    /** What everybody else does at this operator's successive pauses. */
    var arrivals: seq<seq<Action>>
    ghost var trace: seq<Action>
    /** Whether this process has been lost, or a batch of its own did not land at once. */
    ghost var disturbed: bool

    ghost predicate Valid()
      reads this
    {
      && cells.Distinct()
      && net == Play(cells, trace, true)
      && SeenIsCurrent(net)
      && AllKnown(claims, net)
      && forall i, j :: 0 <= i < |arrivals| && 0 <= j < |arrivals[i]| && arrivals[i][j].Commits? ==>
           Known(claims, arrivals[i][j].attempt.tx.request.manifest)
    }

    /** Nobody else acts, this process has survived, and its own batches landed at once. */
    ghost predicate Undisturbed()
      reads this
    {
      arrivals == [] && !disturbed
    }

    constructor (cells: Cells, ghost claims: map<string, Claim>)
      requires cells.Distinct()
      ensures Valid() && net == Start(cells) && this.cells == cells && this.claims == claims && Undisturbed()
    {
      this.cells, this.claims, this.net, this.arrivals, this.trace, this.disturbed := cells, claims, Start(cells), [], [], false;
    }

    /** One atomic action of any client. */
    method Take(a: Action)
      requires Valid() && Guarded(net, a)
      requires a.Commits? ==> Known(claims, a.attempt.tx.request.manifest)
      modifies this`net, this`trace
      ensures Valid() && net == Act(cells, old(net), a) && Grows(old(net), net)
    {
      hide Act, Guarded, Known, SeenIsCurrent;
      ActGrows(cells, net, a);
      ActKeepsKnown(cells, net, a, claims);
      ghost var longer := trace + [a];
      assert longer[..|trace|] == trace;
      net := Act(cells, net, a);
      trace := longer;
    }

    /** Time passes: others act, or only batches land when `quiet`; this process may be lost. */
    method Pause(quiet: bool) returns (lost: bool)
      requires Valid()
      modifies this
      ensures Valid() && Grows(old(net), net)
      ensures quiet ==> net.journal == old(net.journal)
      ensures old(arrivals) == [] ==> net == old(net) && arrivals == []
      ensures disturbed == (old(disturbed) || lost)
    {
      hide Act, Guarded, Known, SeenIsCurrent, Play;
      if |arrivals| > 0 {
        var others := arrivals[0];
        assert forall j :: 0 <= j < |others| && others[j].Commits? ==> Known(claims, others[j].attempt.tx.request.manifest);
        arrivals := arrivals[1..];
        for i := 0 to |others|
          invariant Valid() && Grows(old(net), net) && disturbed == old(disturbed)
          invariant quiet ==> net.journal == old(net.journal)
        {
          if Guarded(net, others[i]) && (quiet ==> others[i].Lands?) {
            ActGrows(cells, net, others[i]);
            Take(others[i]);
          }
        }
      }
      lost := *;
      disturbed := disturbed || lost;
    }

    /** Read, decide, and send one conditional transaction; others may act in between. */
    method CallJournal(r: Request, seenAt: nat) returns (result: Result<bool>)
      requires Valid() && Known(claims, r.manifest)
      requires AdvanceIsObserved(cells, net, r, seenAt)
      modifies this
      ensures Valid() && Grows(old(net), net) && (old(disturbed) ==> disturbed)
      ensures result.Ok? ==> net.journal.store.authority.Some?
      ensures result.Ok? && result.value ==> CommitLeft(r, net.journal.store.authority.value)
      ensures result.Ok? && !result.value && r.kind.Advance? ==>
                && Reached(net.journal.store.authority.value, r.manifest, r.kind.to)
                && (r.stepEvidence.None? ==>
                      && net.journal.store.authority.value.phase == r.kind.to
                      && net.journal.store.authority.value.claim == Some(ClaimOf(r.manifest)))
      ensures old(arrivals) == [] && !disturbed ==> (result, net.journal.store) == Execute(r, old(net).journal.store)
      ensures old(arrivals) == [] ==>
                && net == old(net).(journal := net.journal) && arrivals == []
                && if result.Ok? then (result, net.journal.store) == Execute(r, old(net).journal.store)
                   else net.journal.store == old(net).journal.store
    {
      hide Act, Known, SeenIsCurrent, Play, PlanFor, Follows, Step, Reached, Sound, AllKnown, Sealed, Serial, Replay;
      PlayKeepsInvariant(cells, trace);
      var read, readAt := net.journal.store.authority, |net.journal.history|;
      var plan := PlanFor(r, read);
      if plan.Refuse? {
        return Refused;
      }
      SomethingWasRead(r, read);
      if !plan.Write? && r.kind.Advance? {
        LatestIsSound(net.journal);
        AcceptedAdvance(r, read.value);
      }
      if plan.AlreadyDone? {
        return Ok(false);
      }
      ghost var start := net;
      var lost := Pause(false);
      PlayKeepsInvariant(cells, trace);
      if lost {
        return Refused;
      }
      if plan.CheckEvidence? {
        if !EvidenceMatches(net.journal.store.events, plan.key, r.manifest, r.stepEvidence) {
          return Refused;
        }
        StillThere(start.journal, net.journal);
        if r.kind.Advance? { StillReached(start.journal, net.journal, r.manifest, r.kind.to); }
        return Ok(false);
      }
      var a := Attempt(plan.tx, readAt);
      ghost var before := net;
      result := Send(r, a, seenAt);
      if before == start { UndisturbedCall(r, before.journal, a); }
    }

    /** The transaction itself, against whatever the table holds by now. */
    method Send(r: Request, a: Attempt, seenAt: nat) returns (result: Result<bool>)
      requires Valid() && Known(claims, a.tx.request.manifest) && a.tx.request == r
      requires AdvanceIsObserved(cells, net, r, seenAt)
      modifies this
      ensures Valid() && Grows(old(net), net)
      ensures result.Ok? ==> result.value && net.journal.store.authority.Some?
                             && CommitLeft(r, net.journal.store.authority.value)
      ensures net == old(net).(journal := Step(old(net).journal, a))
      ensures result == (if net.journal != old(net).journal then Ok(true) else Refused)
      ensures arrivals == old(arrivals) && disturbed == old(disturbed)
    {
      hide Known, SeenIsCurrent, Play, PlanFor, Follows, Step, Reached, Sound, AllKnown, Sealed, Serial, Replay, CommitLeft;
      PlayKeepsInvariant(cells, trace);
      var before := net.journal;
      Take(Commits(a, seenAt));
      result := if net.journal != before then Ok(true) else Refused;
      CommitIsFollows(before, a);
      if result.Ok? {
        CommitLeaves(before.store.authority, Entry(a.tx, net.journal.store.authority.value));
      }
    }

    /** The one acceptable zone for a point, unless its marker is out of bounds. */
    method ExpectedZone(p: Point) returns (r: Result<Zone>)
      requires cells.Distinct()
      ensures r.Ok? <==> p.generation <= MAX_MARKER_GENERATION
      ensures r.Ok? ==> r.value == RouteState(cells, p)
    {
      RecordsAreTheRouteState(cells, p);
      var records := RecordsOf(cells, p);
      if records.Refused? {
        return Refused;
      }
      return Ok(ToZone(records.value));
    }

    /**
     Move the aliases and the marker to the target in one batch. When it returns normally the
     target's records have been observed, and the manifest has reached the phase after routing
     (or, resumed, the journal already stood there).
     */
    method RouteTargetStep(m: Manifest, now: nat, digest: string) returns (ok: bool, resumed: bool)
      requires Valid() && Known(claims, m)
      modifies this
      ensures Valid() && Grows(old(net), net)
      ensures ok ==> RouteState(cells, Point(m.Target(), m.authority.expectedGeneration + 1, m.authority.transitionId)) in net.seen
      ensures ok && !resumed ==>
                && net.journal.store.authority.Some?
                && Reached(net.journal.store.authority.value, m, VerifyingStableRoute)
      ensures resumed ==> net.journal == old(net.journal) && net.sent == old(net.sent)
      ensures old(arrivals) == [] && !disturbed ==>
                && (ok <==> RouteTargetSucceeds(cells, old(net).zone, old(net).journal.store, m, now, digest))
                && (!ok ==> net.zone == old(net).zone && net.sent == old(net).sent)
      ensures old(arrivals) == [] && ok ==>
                && net.zone == RouteState(cells, Point(m.Target(), m.authority.expectedGeneration + 1, m.authority.transitionId))
                && old(net).journal.store.authority.Some?
                && net.journal.store.authority.Some? && net.journal.store.authority.value.phase == VerifyingStableRoute
                && (!resumed ==> net.journal.store.authority.value.claim == Some(ClaimOf(m)))
                && net.sent == old(net).sent + if old(net).zone == net.zone then [] else
                     [Forward(m, m.authority.expectedGeneration, old(net).journal.store.authority.value.lastCompleted)]
      ensures old(arrivals) == [] ==>
                arrivals == [] && forall later: nat ::
                  RouteTargetSucceeds(cells, old(net).zone, old(net).journal.store, m, later, digest) ==>
                    RouteTargetSucceeds(cells, net.zone, net.journal.store, m, later, digest)
    {
      hide Act, Known, SeenIsCurrent, Play, PlanFor, Follows, Step, Reached, Sound, AllKnown, RouteState, Serial, Replay;
      hide MoveForwardSucceeds;
      resumed := false;
      ghost var start := net;
      RunIsConsistent(cells, trace);
      RoutingIsRecorded(net.journal, m, now, digest);
      if !m.HasRoutingAuthority() || net.journal.store.authority.None? || !Parses(net.journal.store.authority.value) {
        return false, false;
      }
      var goal := ExpectedZone(Point(m.Target(), m.authority.expectedGeneration + 1, m.authority.transitionId));
      if net.journal.store.authority.value.phase == VerifyingStableRoute {
        ok := goal.Ok? && net.zone == goal.value;
        SeenLast(net);
        return ok, true;
      }
      ok := MoveForward(m, now, digest);
      RunIsConsistent(cells, trace);
      if old(arrivals) == [] { MovedStands(cells, start, net, m, now, digest, ok); }
    }

    /** The second journal read, the DNS read, the batch and the wait that follow the claim. */
    method MoveForward(m: Manifest, now: nat, digest: string) returns (ok: bool)
      requires Valid() && Known(claims, m)
      modifies this
      ensures Valid() && Grows(old(net), net)
      ensures ok ==> RouteState(cells, Point(m.Target(), m.authority.expectedGeneration + 1, m.authority.transitionId)) in net.seen
      ensures ok ==>
                && net.journal.store.authority.Some?
                && Reached(net.journal.store.authority.value, m, VerifyingStableRoute)
      ensures old(disturbed) ==> disturbed
      ensures old(arrivals) == [] && !disturbed ==>
                && (ok <==> MoveForwardSucceeds(cells, old(net).zone, old(net).journal.store, m, now, digest))
                && (!ok ==> net.zone == old(net).zone && net.sent == old(net).sent)
      ensures old(arrivals) == [] ==> arrivals == [] && MovedForward(cells, old(net), net, m, now, digest, ok)
      ensures old(arrivals) == [] && ok ==>
                && net.zone == RouteState(cells, Point(m.Target(), m.authority.expectedGeneration + 1, m.authority.transitionId))
                && old(net).journal.store.authority.Some?
                && net.sent == old(net).sent + if old(net).zone == net.zone then [] else
                     [Forward(m, m.authority.expectedGeneration, old(net).journal.store.authority.value.lastCompleted)]
    {
      hide Act, Known, SeenIsCurrent, Play, PlanFor, Follows, Step, Reached, Sound, AllKnown, RouteState, Serial, Replay, Guarded, Execute;
      hide NetInvariant, Consistent, Permitted, InStep, Sealed;
      RunIsConsistent(cells, trace);
      RoutingIsRecorded(net.journal, m, now, digest);
      ok := ClaimRouting(m, now);
      if !ok { return false; }
      // The second read, after the claim.
      ok := LeaveSource(m, net.journal.store.authority.value);
      if !ok { return false; }
      var target := ExpectedZone(Routed(m));
      ok := ConvergeAndAdvance(RoutingTarget, VerifyingStableRoute, m, target.value, now, digest);
    }

    /** Send the forward batch while DNS still shows the source; accept DNS already at the target. */
    method LeaveSource(m: Manifest, state: Item) returns (ok: bool)
      requires Valid() && Known(claims, m) && net.journal.store.authority == Some(state)
      requires state.phase == RoutingTarget && state.claim == Some(ClaimOf(m)) && state.generation == m.authority.expectedGeneration
      modifies this
      ensures Valid() && Grows(old(net), net) && (old(disturbed) ==> disturbed)
      ensures ok ==> Routed(m).generation <= MAX_MARKER_GENERATION
      ensures old(arrivals) == [] ==>
                && arrivals == [] && net.journal == old(net).journal
                && (net.zone == old(net).zone || net.zone == RouteState(cells, Routed(m)))
                && (ok && net.zone == RouteState(cells, Routed(m)) ==>
                      net.sent == old(net).sent + if old(net).zone == net.zone then [] else
                        [Forward(m, m.authority.expectedGeneration, state.lastCompleted)])
      ensures old(arrivals) == [] && !disturbed ==>
                && (ok <==> && Routed(m).generation <= MAX_MARKER_GENERATION
                            && (|| old(net).zone == RouteState(cells, Before(m, state))
                                || old(net).zone == RouteState(cells, Routed(m))))
                && (if ok then net.zone == RouteState(cells, Routed(m)) else net == old(net))
    {
      hide Act, Known, SeenIsCurrent, Play, PlanFor, Follows, Step, Reached, Sound, AllKnown, RouteState, Serial, Replay, Guarded, Execute;
      hide NetInvariant, Consistent, Permitted, InStep, Sealed;
      var source := ExpectedZone(Before(m, state));
      var target := ExpectedZone(Routed(m));
      if source.Refused? || target.Refused? { return false; }
      RouteStateDetermines(cells, Before(m, state), Routed(m));
      if net.zone == source.value {
        SendForward(m, state);
        var lost := Pause(false);
        return !lost;
      }
      return net.zone == target.value;
    }

    /** Claim the routing phase; until the second read only batches land. */
    method ClaimRouting(m: Manifest, now: nat) returns (ok: bool)
      requires Valid() && Known(claims, m)
      modifies this
      ensures Valid() && Grows(old(net), net) && (old(disturbed) ==> disturbed)
      ensures ok ==>
                && net.journal.store.authority.Some?
                && var state := net.journal.store.authority.value;
                && state.phase == RoutingTarget && state.claim == Some(ClaimOf(m))
                && state.generation == m.authority.expectedGeneration
      ensures old(arrivals) == [] && !disturbed ==> ok == Execute(ClaimOfRouting(m, now), old(net).journal.store).0.Ok?
      ensures old(arrivals) == [] ==>
                && net == old(net).(journal := net.journal) && arrivals == []
                && (Granted(ClaimOfRouting(m, now), old(net).journal.store, net.journal.store)
                    || (!ok && net.journal.store == old(net).journal.store))
    {
      hide Act, Known, SeenIsCurrent, Play, PlanFor, Follows, Step, Reached, Sound, AllKnown, RouteState, Serial, Replay, Guarded, Execute;
      hide NetInvariant, Consistent, Permitted, InStep, Sealed;
      var claimed := CallJournal(ClaimOfRouting(m, now), 0);
      if claimed.Refused? { return false; }
      var lost := Pause(true);
      if lost { return false; }
      RunIsConsistent(cells, trace);
      LatestIsSound(net.journal);
      ClaimFixesGeneration(net.journal.store.authority.value, m);
      return true;
    }

    /** Send the forward batch that was built from the state just read. */
    method SendForward(m: Manifest, state: Item)
      requires Valid() && net.journal.store.authority == Some(state)
      requires state.phase == RoutingTarget && state.claim == Some(ClaimOf(m)) && state.generation + 1 <= MAX_MARKER_GENERATION
      requires state.generation == m.authority.expectedGeneration
      requires net.zone == RouteState(cells, Point(m.Source(), state.generation, state.lastCompleted))
      modifies this
      ensures Valid() && Grows(old(net), net)
      ensures net.sent == old(net).sent + [Forward(m, state.generation, state.lastCompleted)]
      ensures arrivals == old(arrivals) && (old(disturbed) ==> disturbed) && net.journal == old(net).journal
      ensures !disturbed ==> net.zone == RouteState(cells, Routed(m))
      ensures net.zone == old(net).zone || net.zone == RouteState(cells, Routed(m))
    {
      hide Known, SeenIsCurrent, Play, AllKnown, RouteState, Serial, Replay, Guarded, NetInvariant;
      RunIsConsistent(cells, trace);
      SeenLast(net);
      var at := |net.journal.history|;
      var send := SendsForward(m, at, at, |net.seen| - 1);
      assert ReadAt(net.journal, at) == Some(state);
      SingleOperatorIsGuarded(cells, net, send);
      Take(send);
      LandOwn(Move(Before(m, state), Routed(m)));
    }

    /** The batch sent last lands at once, or at some later time or never. */
    method LandOwn(move: Move)
      requires Valid() && move.Valid() && net.zone == RouteState(cells, move.from)
      requires |net.sent| > 0 && net.sent[|net.sent| - 1].AsMove() == move
      modifies this`net, this`trace, this`disturbed
      ensures Valid() && Grows(old(net), net) && (old(disturbed) ==> disturbed)
      ensures net.journal == old(net).journal && net.sent == old(net).sent
      ensures !disturbed ==> net.zone == RouteState(cells, move.to)
      ensures net.zone == old(net).zone || net.zone == RouteState(cells, move.to)
    {
      hide Known, SeenIsCurrent, Play, AllKnown, RouteState, ApplyBatch, BatchFor;
      var late := *;
      disturbed := disturbed || late;
      if !late {
        BatchLandsOnlyWhereBuilt(cells, move, move.from);
        Take(Lands(|net.sent| - 1));
      }
    }

    /** Read DNS once more, require the goal, and record the step under its evidence. */
    method ConvergeAndAdvance(from: Phase, to: Phase, m: Manifest, goal: Zone, now: nat, digest: string) returns (ok: bool)
      requires Valid() && Known(claims, m)
      requires || (from == RoutingTarget && to == VerifyingStableRoute
                   && goal == RouteState(cells, Point(m.Target(), m.authority.expectedGeneration + 1, m.authority.transitionId)))
               || (from == RoutingSourceRollback && to == VerifyingSourceRollback
                   && goal == RouteState(cells, Point(m.Source(), m.authority.expectedGeneration + 2, m.authority.transitionId)))
      modifies this
      ensures Valid() && Grows(old(net), net) && (old(disturbed) ==> disturbed)
      ensures ok ==> goal in net.seen
      ensures ok ==> net.journal.store.authority.Some? && Reached(net.journal.store.authority.value, m, to)
      ensures old(arrivals) == [] ==>
                var r := Request(Advance(from, to), m, now, Some(digest));
                && net == old(net).(journal := net.journal) && arrivals == []
                && (!disturbed ==> (ok <==> old(net).zone == goal && Execute(r, old(net).journal.store).0.Ok?))
                && if ok then old(net).zone == goal && Granted(r, old(net).journal.store, net.journal.store)
                   else net.journal.store == old(net).journal.store
    {
      hide Act, Known, SeenIsCurrent, Play, PlanFor, Follows, Step, Reached, Sound, AllKnown, RouteState, Serial, Replay, Guarded, Execute;
      if net.zone != goal { return false; }
      SeenLast(net);
      var seenAt := |net.seen| - 1;
      var done := CallJournal(Request(Advance(from, to), m, now, Some(digest)), seenAt);
      return done.Ok?;
    }

    /** Verify the stable route and seal the next stable generation. */
    method VerifyStableStep(m: Manifest, smoke: bool, now: nat, digest: string) returns (r: Result<bool>)
      requires Valid() && Known(claims, m)
      modifies this
      ensures Valid() && Grows(old(net), net)
      ensures r == Ok(true) ==>
                var p := Point(m.Target(), m.authority.expectedGeneration + 1, m.authority.transitionId);
                && net.journal.store.authority.Some? && Sealed(net.journal.store.authority.value, p)
                && net.zone == RouteState(cells, p)
      ensures old(arrivals) == [] && !disturbed ==>
                var p := Point(m.Target(), m.authority.expectedGeneration + 1, m.authority.transitionId);
                (r, net.journal.store) ==
                  if p.generation <= MAX_MARKER_GENERATION && old(net).zone == RouteState(cells, p) && smoke
                  then Execute(Request(Complete, m, now, Some(digest)), old(net).journal.store)
                  else (Refused, old(net).journal.store)
    {
      hide Act, Known, SeenIsCurrent, Play, PlanFor, Follows, Step, Reached, Sound, AllKnown, RouteState, Serial, Replay, Guarded, Execute;
      var goal := ExpectedZone(Point(m.Target(), m.authority.expectedGeneration + 1, m.authority.transitionId));
      if goal.Refused? || net.zone != goal.value || !smoke {
        return Refused;
      }
      var lost := Pause(false);
      if lost { return Refused; }
      r := CallJournal(Request(Complete, m, now, Some(digest)), 0);
      if r == Ok(true) {
        PlayKeepsInvariant(cells, trace);
        SealedZone(cells, net, Point(m.Target(), m.authority.expectedGeneration + 1, m.authority.transitionId));
      }
    }

    /** Move the aliases back to the reactivated source, two generations on. */
    method RouteSourceRollbackStep(m: Manifest, now: nat, digest: string) returns (ok: bool)
      requires Valid() && Known(claims, m)
      modifies this
      ensures Valid() && Grows(old(net), net)
      ensures ok ==> RouteState(cells, Point(m.Source(), m.authority.expectedGeneration + 2, m.authority.transitionId)) in net.seen
      ensures ok ==>
                && net.journal.store.authority.Some?
                && Reached(net.journal.store.authority.value, m, VerifyingSourceRollback)
      ensures old(arrivals) == [] && !disturbed ==>
                && (ok <==> RouteSourceRollbackSucceeds(cells, old(net).zone, old(net).journal.store, m, now, digest))
                && (!ok ==> net.zone == old(net).zone && net.sent == old(net).sent)
      ensures old(arrivals) == [] && ok ==>
                && net.zone == RouteState(cells, Point(m.Source(), m.authority.expectedGeneration + 2, m.authority.transitionId))
                && net.journal.store.authority.Some? && net.journal.store.authority.value.phase == VerifyingSourceRollback
                && net.journal.store.authority.value.claim == Some(ClaimOf(m))
                && net.sent == old(net).sent + if old(net).zone == net.zone then [] else [Back(m)]
      ensures old(arrivals) == [] ==>
                arrivals == [] && forall later: nat ::
                  RouteSourceRollbackSucceeds(cells, old(net).zone, old(net).journal.store, m, later, digest) ==>
                    RouteSourceRollbackSucceeds(cells, net.zone, net.journal.store, m, later, digest)
    {
      hide Act, Known, SeenIsCurrent, Play, PlanFor, Follows, Step, Reached, Sound, AllKnown, RouteState, Serial, Replay, Guarded, Execute;
      hide NetInvariant, Consistent, Recorded, MoveBackSucceeds;
      ghost var start := net;
      RunIsConsistent(cells, trace);
      RollbackIsRecorded(net.journal, m, now, digest);
      if !m.HasReactivationAuthority() || net.journal.store.authority.None? || !Parses(net.journal.store.authority.value) {
        return false;
      }
      var resumed := net.journal.store.authority.value.phase == VerifyingSourceRollback;
      if !resumed {
        var claimed := CallJournal(ClaimOfRollback(m, now), 0);
        if claimed.Refused? { return false; }
      }
      ok := MoveBack(m, resumed, now, digest);
      RunIsConsistent(cells, trace);
      if old(arrivals) == [] { RouteSourceRollbackStands(cells, start.zone, net.zone, start.journal, net.journal, m, now, digest); }
    }

    /** The DNS read, the batch and the wait that follow the claim, or its resumption. */
    method MoveBack(m: Manifest, resumed: bool, now: nat, digest: string) returns (ok: bool)
      requires Valid() && Known(claims, m)
      requires net.journal.store.authority.Some?
      requires var item := net.journal.store.authority.value;
               if resumed then item.phase == VerifyingSourceRollback
               else item.phase == RoutingSourceRollback && item.claim == Some(ClaimOf(m))
      modifies this
      ensures Valid() && Grows(old(net), net)
      ensures ok ==> RouteState(cells, Point(m.Source(), m.authority.expectedGeneration + 2, m.authority.transitionId)) in net.seen
      ensures ok ==>
                && net.journal.store.authority.Some?
                && Reached(net.journal.store.authority.value, m, VerifyingSourceRollback)
      ensures old(disturbed) ==> disturbed
      ensures old(arrivals) == [] && !disturbed ==>
                && (ok <==> MoveBackSucceeds(cells, old(net).zone, old(net).journal.store, m, now, digest))
                && (!ok && (resumed || Execute(RecordOfRollback(m, now, digest), old(net).journal.store).0.Ok?) ==>
                      net.zone == old(net).zone && net.sent == old(net).sent)
      ensures old(arrivals) == [] ==>
                && arrivals == [] && (net.zone == old(net).zone || net.zone == RouteState(cells, Returned(m)))
                && (!ok ==> net.journal.store == old(net).journal.store)
                && (ok ==>
                      && net.zone == RouteState(cells, Returned(m))
                      && Granted(RecordOfRollback(m, now, digest), old(net).journal.store, net.journal.store)
                      && net.sent == old(net).sent + if old(net).zone == net.zone then [] else [Back(m)])
    {
      hide Act, Known, SeenIsCurrent, Play, PlanFor, Follows, Step, Reached, Sound, AllKnown, RouteState, Serial, Replay, Guarded, Execute;
      hide NetInvariant, Permitted, Consistent, AdvanceIsObserved, InStep, Sealed;
      ghost var before := net;
      RunIsConsistent(cells, trace);
      var claimAt := |net.journal.history|;
      var lost := Pause(resumed);
      if lost { return false; }
      var target := ExpectedZone(Routed(m));
      var source := ExpectedZone(Returned(m));
      if target.Refused? || source.Refused? { return false; }
      ok := LeaveTarget(m, resumed, claimAt, before);
      if !ok { return false; }
      ok := ConvergeAndAdvance(RoutingSourceRollback, VerifyingSourceRollback, m, source.value, now, digest);
    }

    /** Send the rollback batch while DNS still shows the target; accept DNS already at the source. */
    method LeaveTarget(m: Manifest, resumed: bool, claimAt: nat, ghost before: Net) returns (ok: bool)
      requires Valid() && Known(claims, m) && Returned(m).generation <= MAX_MARKER_GENERATION
      requires Consistent(before.journal) && Grows(before, net) && claimAt == |before.journal.history|
      requires before.journal.store.authority.Some?
      requires var item := before.journal.store.authority.value;
               if resumed then item.phase == VerifyingSourceRollback && net.journal == before.journal
               else item.phase == RoutingSourceRollback && item.claim == Some(ClaimOf(m))
      modifies this
      ensures Valid() && Grows(old(net), net) && (old(disturbed) ==> disturbed)
      ensures old(arrivals) == [] ==>
                && arrivals == [] && net.journal == old(net).journal
                && (if resumed then net == old(net) else net.zone == old(net).zone || net.zone == RouteState(cells, Returned(m)))
                && (ok && net.zone == RouteState(cells, Returned(m)) ==>
                      net.sent == old(net).sent + if old(net).zone == net.zone then [] else [Back(m)])
      ensures old(arrivals) == [] && !disturbed ==>
                (ok <==> old(net).zone == RouteState(cells, Routed(m)) || old(net).zone == RouteState(cells, Returned(m)))
                && (if ok then net.zone == RouteState(cells, Returned(m)) else net == old(net))
    {
      hide Act, Known, SeenIsCurrent, Play, PlanFor, Follows, Step, Reached, Sound, AllKnown, RouteState, Serial, Replay, Guarded, Execute;
      hide NetInvariant, Permitted, Consistent, AdvanceIsObserved, InStep, Sealed;
      var target := ExpectedZone(Routed(m));
      var source := ExpectedZone(Returned(m));
      RouteStateDetermines(cells, Routed(m), Returned(m));
      if net.zone != target.value {
        return net.zone == source.value;
      }
      RunIsConsistent(cells, trace);
      if resumed {
        // The zone of a routed rollback is never the one to move back from.
        ResumeNeverSends(cells, net, m, claims);
        assert false;
      } else {
        SendBack(m, claimAt, before);
        var lost := Pause(false);
        return !lost;
      }
    }

    /** Send the rollback batch under the claim that was made at `claimAt`. */
    method SendBack(m: Manifest, claimAt: nat, ghost before: Net)
      requires Valid() && Consistent(before.journal) && Grows(before, net) && claimAt == |before.journal.history|
      requires before.journal.store.authority.Some?
      requires before.journal.store.authority.value.phase == RoutingSourceRollback
      requires before.journal.store.authority.value.claim == Some(ClaimOf(m))
      requires Returned(m).generation <= MAX_MARKER_GENERATION && net.zone == RouteState(cells, Routed(m))
      modifies this
      ensures Valid() && Grows(old(net), net) && (old(disturbed) ==> disturbed)
      ensures net.sent == old(net).sent + [Back(m)]
      ensures arrivals == old(arrivals) && net.journal == old(net).journal
      ensures !disturbed ==> net.zone == RouteState(cells, Returned(m))
      ensures net.zone == old(net).zone || net.zone == RouteState(cells, Returned(m))
    {
      hide Known, SeenIsCurrent, Play, AllKnown, RouteState, Serial, Replay, Guarded, NetInvariant, Permitted, Consistent;
      RunIsConsistent(cells, trace);
      SeenLast(net);
      var send := SendsBack(m, claimAt, |net.seen| - 1);
      BackIsPermitted(cells, before, net, send);
      Take(send);
      LandOwn(Move(Routed(m), Returned(m)));
    }

    /** Verify the restored source route and seal the rolled-back generation. */
    method VerifySourceRollbackStep(m: Manifest, smoke: bool, now: nat, digest: string) returns (r: Result<bool>)
      requires Valid() && Known(claims, m)
      modifies this
      ensures Valid() && Grows(old(net), net)
      ensures r == Ok(true) ==>
                var p := Point(m.Source(), m.authority.expectedGeneration + 2, m.authority.transitionId);
                && net.journal.store.authority.Some? && Sealed(net.journal.store.authority.value, p)
                && net.zone == RouteState(cells, p)
      ensures old(arrivals) == [] && !disturbed ==>
                var p := Point(m.Source(), m.authority.expectedGeneration + 2, m.authority.transitionId);
                (r, net.journal.store) ==
                  if m.HasReactivationAuthority() && p.generation <= MAX_MARKER_GENERATION && old(net).zone == RouteState(cells, p) && smoke
                  then Execute(Request(RollBack, m, now, Some(digest)), old(net).journal.store)
                  else (Refused, old(net).journal.store)
    {
      hide Act, Known, SeenIsCurrent, Play, PlanFor, Follows, Step, Reached, Sound, AllKnown, RouteState, Serial, Replay, Guarded, Execute;
      var goal := ExpectedZone(Point(m.Source(), m.authority.expectedGeneration + 2, m.authority.transitionId));
      if !m.HasReactivationAuthority() || goal.Refused? || net.zone != goal.value || !smoke {
        return Refused;
      }
      var lost := Pause(false);
      if lost { return Refused; }
      r := CallJournal(Request(RollBack, m, now, Some(digest)), 0);
      if r == Ok(true) {
        PlayKeepsInvariant(cells, trace);
        SealedZone(cells, net, Point(m.Source(), m.authority.expectedGeneration + 2, m.authority.transitionId));
      }
    }
  }

  /** A rollback batch sent under the claim its client made. */
  lemma BackIsPermitted(cells: Cells, before: Net, n: Net, a: Action)
    requires Consistent(before.journal) && Consistent(n.journal) && Grows(before, n)
    requires a.SendsBack? && a.claimAt == |before.journal.history|
    requires before.journal.store.authority.Some?
    requires before.journal.store.authority.value.phase == RoutingSourceRollback
    requires before.journal.store.authority.value.claim == Some(ClaimOf(a.manifest))
    requires a.seenAt < |n.seen| && n.seen[a.seenAt] == RouteState(cells, Back(a.manifest).AsMove().from)
    requires a.manifest.authority.expectedGeneration + 2 <= MAX_MARKER_GENERATION
    ensures Permitted(cells, n, a) && Guarded(n, a)
  {
    hide RouteState, Follows, Replay;
    assert ReadAt(n.journal, a.claimAt) == before.journal.store.authority;
  }

  lemma RunIsConsistent(cells: Cells, actions: seq<Action>)
    requires cells.Distinct()
    ensures NetInvariant(cells, Play(cells, actions, true)) && Consistent(Play(cells, actions, true).journal)
  {
    PlayKeepsInvariant(cells, actions);
    hide Consistent, Play;
  }

  lemma SeenLast(n: Net)
    requires SeenIsCurrent(n)
    ensures |n.seen| > 0 && n.seen[|n.seen| - 1] == n.zone && n.zone in n.seen
  {
  }

  lemma ClaimFixesGeneration(item: Item, m: Manifest)
    requires Sound(item) && item.claim == Some(ClaimOf(m))
    ensures item.generation == m.authority.expectedGeneration
  {
  }

  /** A sealed journal fixes the zone. */
  lemma SealedZone(cells: Cells, n: Net, p: Point)
    requires NetInvariant(cells, n) && n.journal.store.authority.Some? && Sealed(n.journal.store.authority.value, p)
    ensures n.zone == RouteState(cells, p)
  {
    hide RouteState, Consistent;
  }

  /** With the rollback already routed, the zone is never the one a rollback batch starts from. */
  lemma ResumeNeverSends(cells: Cells, n: Net, m: Manifest, claims: map<string, Claim>)
    requires cells.Distinct() && NetInvariant(cells, n) && AllKnown(claims, n) && Known(claims, m)
    requires n.journal.store.authority.Some? && n.journal.store.authority.value.phase == VerifyingSourceRollback
    ensures n.zone != RouteState(cells, Point(m.Target(), m.authority.expectedGeneration + 1, m.authority.transitionId))
  {
    hide RouteState, Follows, Replay, Sound, Known;
    var item := n.journal.store.authority.value;
    var h := n.journal.history;
    LatestIsSound(n.journal);
    ClaimOfSound(item);
    ClaimIsKnown(h, |h| - 1, claims);
    KnownClaim(claims, m);
    var back := Point(item.activeRegion, item.generation + 2, item.claim.value.transitionId);
    var goal := Point(m.Target(), m.authority.expectedGeneration + 1, m.authority.transitionId);
    RouteStateDetermines(cells, back, goal);
    if n.zone == RouteState(cells, goal) {
      MarkerNamesTransition(cells, back, goal);
    }
  }

  lemma ClaimOfSound(item: Item)
    requires Sound(item) && !item.phase.Stable?
    ensures item.claim.Some? && item.claim.value.authority.expectedGeneration == item.generation
    ensures forall m: Manifest :: item.claim == Some(ClaimOf(m)) ==> m.authority.expectedGeneration == item.generation
  {
  }

  lemma StillThere(w: World, w': World)
    requires Consistent(w) && Consistent(w') && w.history <= w'.history
    ensures w.store.authority.Some? ==> w'.store.authority.Some?
  {
  }

  /** What a manifest has reached stays reached while others commit. */
  lemma StillReached(w: World, w': World, m: Manifest, phase: Phase)
    requires Consistent(w) && Consistent(w') && w.history <= w'.history
    requires w.store.authority.Some? && Reached(w.store.authority.value, m, phase)
    ensures w'.store.authority.Some? && Reached(w'.store.authority.value, m, phase)
  {
    hide Follows, Reached, Sound, Replay;
    var i, j := |w.history| - 1, |w'.history| - 1;
    HistoryIsSound(w'.history, i);
    HistoryIsLater(w'.history, i, j);
    ReachedIsKept(w'.history[i].item, w'.history[j].item, m, phase);
  }
}
