/**
 The fault exercise with every process in flight at once: controllers and watchdogs read and
 check when they begin, and then perform their provider calls one by one, interleaved in any
 order. A process that is never advanced again has crashed.
 */
module FaultRace {
  import opened FaultStores
  import opened FaultSafety

  datatype Job = Controller(op: Operation) | Watchdog

  /** A process between two calls: what it still has to write for its fault. */
  datatype Process = Process(job: Job, fault: Authority, rest: seq<Write>)

  datatype Race = Race(stores: Stores, removed: set<string>, processes: seq<Process>)

  datatype Action =
    | Begins(op: Operation, fault: Authority, now: nat)
    | Fires(fault: Authority)
    | Advances(index: nat)

  const Quiet: Race := Race(Nothing, {}, [])

  /** The next call of the process that an action advances. */
  predicate Writes(w: Race, a: Action) {
    a.Advances? && a.index < |w.processes| && |w.processes[a.index].rest| > 0
  }

  /** A call takes effect or raises; a schedule is gone once its cleanup has returned or refused. */
  function Act(reg: Registry, w: Race, a: Action): Race {
    match a
    case Begins(op, f, now) =>
      if Known(reg, f) && MayStart(w.stores, op, f, now) && (op == DisarmWatchdog ==> f.faultId in w.removed)
      then w.(processes := w.processes + [Process(Controller(op), f, Script(op, f, now))])
      else w
    case Fires(f) =>
      if !Known(reg, f) || f.faultId !in w.stores.schedules then w
      else if MayClean(w.stores, f) then w.(processes := w.processes + [Process(Watchdog, f, CleanupScript)])
      else w.(stores := DropSchedule(w.stores, f))
    case Advances(i) =>
      if !Writes(w, a) then w
      else
        var p := w.processes[i];
        if Apply(w.stores, p.rest[0], p.fault).None? then w.(processes := w.processes[i := p.(rest := [])])
        else
          var s := After(w.stores, p.rest[0], p.fault);
          Race(if p.job == Watchdog && |p.rest| == 1 then DropSchedule(s, p.fault) else s,
                if p.job == Controller(RemoveDeny) && |p.rest| == 1 then w.removed + {p.fault.faultId} else w.removed,
                w.processes[i := p.(rest := p.rest[1..])])
  }

  /** A run carried on from a given world. */
  function PlayOn(reg: Registry, w: Race, actions: seq<Action>): Race {
    if |actions| == 0 then w
    else Act(reg, PlayOn(reg, w, actions[..|actions| - 1]), actions[|actions| - 1])
  }

  lemma OneMore(reg: Registry, w: Race, actions: seq<Action>, a: Action)
    ensures PlayOn(reg, w, actions + [a]) == Act(reg, PlayOn(reg, w, actions), a)
  {
    assert (actions + [a])[..|actions|] == actions;
  }

  // ----- One call -----

  predicate OwnDenyStands(s: Stores, f: Authority) { (f.target, f.faultId) in s.denies }

  predicate Covered(s: Stores, f: Authority) {
    (HoldsIn(s, f, WatchdogArmed) || HoldsIn(s, f, DenyApplied)) && f.faultId in s.schedules
  }

  /** What must be true at the very call for it to leave every deny watched. */
  predicate Harmless(s: Stores, x: Write, f: Authority) {
    match x
    case PutDeny => Covered(s, f)
    case CleanLock => !OwnDenyStands(s, f)
    case SetRemoved => !OwnDenyStands(s, f)
    case DeleteSchedule => !OwnDenyStands(s, f)
    case _ => true
  }

  /** Both directions for every call: it keeps every deny watched exactly when it is harmless. */
  lemma CallKeepsWatchExactlyWhenHarmless(reg: Registry, s: Stores, x: Write, f: Authority)
    requires Unconsumed(reg, s) && Watched(s) && Known(reg, f) && Apply(s, x, f).Some?
    ensures Watched(After(s, x, f)) <==> Harmless(s, x, f)
  {
    var t := After(s, x, f);
    var own := (f.target, f.faultId);
    if Harmless(s, x, f) {
      HarmlessKeepsWatched(reg, s, x, f);
    } else {
      assert own in t.denies;
    }
  }

  lemma HarmlessKeepsWatched(reg: Registry, s: Stores, x: Write, f: Authority)
    requires Unconsumed(reg, s) && Watched(s) && Known(reg, f) && Apply(s, x, f).Some? && Harmless(s, x, f)
    ensures Watched(After(s, x, f))
  {
    var t := After(s, x, f);
    forall d | d in t.denies
      ensures d.0 in t.locks && t.locks[d.0].authority.faultId == d.1 && DenyState(t.locks[d.0].state) && d.1 in t.schedules
    {
      if d in s.denies && (d.1 == f.faultId || (Holds(s, f) && d.0 == f.target)) { OwnDeny(reg, s, f, d); }
    }
  }

  /** A schedule whose cleanup has refused covers no deny. */
  lemma DropKeepsWatched(reg: Registry, s: Stores, f: Authority)
    requires Unconsumed(reg, s) && Watched(s) && Known(reg, f) && !OwnDenyStands(s, f)
    ensures Watched(DropSchedule(s, f)) && Unconsumed(reg, DropSchedule(s, f))
  {
    forall d | d in s.denies
      ensures d.1 != f.faultId
    {
      if d.1 == f.faultId { OwnDeny(reg, s, f, d); }
    }
  }

  lemma RefusedMeansNoDeny(reg: Registry, s: Stores, f: Authority)
    requires Unconsumed(reg, s) && Watched(s) && Known(reg, f) && !MayClean(s, f)
    ensures !OwnDenyStands(s, f)
  {
    if OwnDenyStands(s, f) { OwnDeny(reg, s, f, (f.target, f.faultId)); }
  }

  // ----- Every run, call by call -----

  predicate AllKnown(reg: Registry, w: Race) {
    forall i :: 0 <= i < |w.processes| ==> Known(reg, w.processes[i].fault)
  }

  predicate Basic(reg: Registry, w: Race) { Unconsumed(reg, w.stores) && AllKnown(reg, w) }

  /** The call an action performs, if any, is harmless and takes effect, or raises. */
  predicate StepIsHarmless(w: Race, a: Action) {
    Writes(w, a) ==>
      var p := w.processes[a.index];
      Apply(w.stores, p.rest[0], p.fault).Some? ==> Harmless(w.stores, p.rest[0], p.fault)
  }

  lemma StepKeepsWatchExactly(reg: Registry, w: Race, a: Action)
    requires Basic(reg, w) && Watched(w.stores)
    requires WatchesEndWithCleaning(w)
    ensures Basic(reg, Act(reg, w, a)) && WatchesEndWithCleaning(Act(reg, w, a))
    ensures Watched(Act(reg, w, a).stores) <==> StepIsHarmless(w, a)
  {
    hide Unconsumed, Watched, Apply, Harmless, ParsesAt;
    match a
    case Begins(_, _, _) =>
    case Fires(f) =>
      if Known(reg, f) && !MayClean(w.stores, f) {
        RefusedMeansNoDeny(reg, w.stores, f);
        DropKeepsWatched(reg, w.stores, f);
      }
    case Advances(i) =>
      if Writes(w, a) && Apply(w.stores, w.processes[i].rest[0], w.processes[i].fault).Some? {
        var p := w.processes[i];
        CallKeepsUnconsumed(reg, w.stores, p.rest[0], p.fault);
        CallKeepsWatchExactlyWhenHarmless(reg, w.stores, p.rest[0], p.fault);
        if p.job == Watchdog && |p.rest| == 1 { CleaningThenDropping(reg, w.stores, p.fault); }
      }
  }

  predicate WatchesEndWithCleaning(w: Race) {
    forall i :: 0 <= i < |w.processes| && w.processes[i].job == Watchdog && |w.processes[i].rest| > 0 ==>
      w.processes[i].rest == CleanupScript || w.processes[i].rest == [CleanLock]
  }

  /** After a cleanup's last call, dropping its schedule changes nothing for the denies. */
  lemma CleaningThenDropping(reg: Registry, s: Stores, f: Authority)
    requires Unconsumed(reg, s) && Watched(s) && Known(reg, f) && Apply(s, CleanLock, f).Some?
    ensures var t := After(s, CleanLock, f);
            Unconsumed(reg, DropSchedule(t, f)) && (Watched(DropSchedule(t, f)) <==> Watched(t))
  {
    var t := After(s, CleanLock, f);
    CallKeepsUnconsumed(reg, s, CleanLock, f);
    if Watched(t) {
      if OwnDenyStands(t, f) { OwnDeny(reg, t, f, (f.target, f.faultId)); }
      DropKeepsWatched(reg, t, f);
    } else {
      var d :| d in t.denies && !(d.0 in t.locks && t.locks[d.0].authority.faultId == d.1
                                  && DenyState(t.locks[d.0].state) && d.1 in t.schedules);
      assert d in DropSchedule(t, f).denies;
    }
  }

  function State(reg: Registry, actions: seq<Action>, k: nat): Race
    requires k <= |actions|
  {
    PlayOn(reg, Quiet, actions[..k])
  }

  predicate WatchedThroughout(reg: Registry, actions: seq<Action>) {
    forall k :: 0 <= k <= |actions| ==> Watched(State(reg, actions, k).stores)
  }

  predicate HarmlessThroughout(reg: Registry, actions: seq<Action>) {
    forall k :: 0 <= k < |actions| ==> StepIsHarmless(State(reg, actions, k), actions[k])
  }

  lemma NextState(reg: Registry, actions: seq<Action>, k: nat)
    requires k < |actions|
    ensures State(reg, actions, k + 1) == Act(reg, State(reg, actions, k), actions[k])
  {
    assert actions[..k + 1][..k] == actions[..k];
  }

  lemma {:induction false} WatchedUpTo(reg: Registry, actions: seq<Action>, k: nat)
    requires k <= |actions|
    requires HarmlessThroughout(reg, actions) || WatchedThroughout(reg, actions)
    ensures var w := State(reg, actions, k); Basic(reg, w) && WatchesEndWithCleaning(w) && Watched(w.stores)
  {
    hide Basic, WatchesEndWithCleaning, Watched, StepIsHarmless, Act;
    if k == 0 {
      QuietIsBasic(reg);
      assert State(reg, actions, 0) == Quiet;
    } else {
      WatchedUpTo(reg, actions, k - 1);
      NextState(reg, actions, k - 1);
      StepKeepsWatchExactly(reg, State(reg, actions, k - 1), actions[k - 1]);
    }
  }

  lemma QuietIsBasic(reg: Registry)
    ensures Basic(reg, Quiet) && WatchesEndWithCleaning(Quiet) && Watched(Quiet.stores)
  {
  }

  /**
   Over every interleaving of controllers and watchdogs, call by call: every deny is watched at
   every moment if and only if every call that took effect was harmless at that moment.
   */
  lemma RunIsWatchedExactlyWhenHarmless(reg: Registry, actions: seq<Action>)
    ensures WatchedThroughout(reg, actions) <==> HarmlessThroughout(reg, actions)
  {
    hide Basic, WatchesEndWithCleaning, Watched, StepIsHarmless, Act, State;
    if WatchedThroughout(reg, actions) {
      forall k | 0 <= k < |actions|
        ensures StepIsHarmless(State(reg, actions, k), actions[k])
      {
        WatchedUpTo(reg, actions, k);
        NextState(reg, actions, k);
        assert Watched(State(reg, actions, k + 1).stores);
        StepKeepsWatchExactly(reg, State(reg, actions, k), actions[k]);
      }
    } else if HarmlessThroughout(reg, actions) {
      forall k | 0 <= k <= |actions|
        ensures Watched(State(reg, actions, k).stores)
      {
        WatchedUpTo(reg, actions, k);
      }
      assert false;
    }
  }

  // ----- What a caller can check before the policy put -----

  /** Some process of this fault has deleted its deny and is about to settle the lock. */
  predicate Settling(w: Race, f: Authority) {
    exists i :: 0 <= i < |w.processes| && SettlesNext(w.processes[i], f)
  }

  predicate SettlesNext(p: Process, f: Authority) {
    p.fault == f && |p.rest| > 0 && (p.rest[0] == CleanLock || p.rest[0] == SetRemoved)
  }

  /** The own lock is armed or applied, its cleanup pending, and no process is settling it. */
  predicate Clear(w: Race, f: Authority) { Covered(w.stores, f) && !Settling(w, f) }

  predicate PutsNext(w: Race, a: Action) {
    Writes(w, a) && w.processes[a.index].rest[0] == PutDeny
  }

  /** Every policy put of a run is clear. */
  predicate ClearOn(reg: Registry, w: Race, actions: seq<Action>) {
    forall k :: 0 <= k < |actions| ==>
      var before := PlayOn(reg, w, actions[..k]);
      PutsNext(before, actions[k]) ==> Clear(before, before.processes[actions[k].index].fault)
  }

  /** Where each process may be, and what it relies on there. */
  predicate InFlight(w: Race, p: Process) {
    var f := p.fault;
    match |p.rest|
    case 0 => true
    case 1 =>
      (match p.rest[0]
       case CleanLock => p.job == Watchdog && !OwnDenyStands(w.stores, f)
       case SetRemoved => p.job == Controller(RemoveDeny) && !OwnDenyStands(w.stores, f)
       case PutLock => p.job == Controller(Acquire)
       case DeleteUnarmedLock => p.job == Controller(ReleaseUnarmedLock)
       case SetArmed => p.job == Controller(ArmWatchdog)
       case SetApplied => p.job == Controller(ApplyDeny)
       case SetDisarmed => p.job == Controller(DisarmWatchdog)
       case SealEvidence => p.job == Controller(SealFault)
       case _ => false)
    case 2 =>
      (match p.rest[0]
       case DeleteDeny =>
         || (p.job == Watchdog && p.rest[1] == CleanLock)
         || (p.job == Controller(RemoveDeny) && p.rest[1] == SetRemoved)
       case PutDeny => p.job == Controller(ApplyDeny) && p.rest[1] == SetApplied
       case CreateSchedule(at) => p.job == Controller(ArmWatchdog) && p.rest[1] == SetArmed && at <= f.expiresAt + 30
       case DeleteSchedule => p.job == Controller(DisarmWatchdog) && p.rest[1] == SetDisarmed && f.faultId in w.removed
       case _ => false)
    case _ => false
  }

  predicate AllInFlight(w: Race) {
    forall i :: 0 <= i < |w.processes| ==> InFlight(w, w.processes[i])
  }

  predicate Retired(reg: Registry, w: Race) { RemovedStaysRemoved(reg, FaultSafety.World(w.stores, w.removed)) }

  predicate RaceInvariant(reg: Registry, w: Race) {
    && Basic(reg, w) && Watched(w.stores) && Bounded(reg, w.stores) && AllInFlight(w) && Retired(reg, w)
  }

  lemma InFlightIsHarmless(reg: Registry, w: Race, a: Action)
    requires RaceInvariant(reg, w)
    requires PutsNext(w, a) ==> Clear(w, w.processes[a.index].fault)
    ensures StepIsHarmless(w, a) && WatchesEndWithCleaning(w)
  {
    hide Unconsumed, Bounded;
    if Writes(w, a) {
      var p := w.processes[a.index];
      assert InFlight(w, p);
      if p.rest[0] == DeleteSchedule { RetiredHasNoDeny(reg, w, p.fault); }
    }
    forall i | 0 <= i < |w.processes| && w.processes[i].job == Watchdog && |w.processes[i].rest| > 0
      ensures w.processes[i].rest == CleanupScript || w.processes[i].rest == [CleanLock]
    {
      assert InFlight(w, w.processes[i]);
    }
  }

  lemma RetiredHasNoDeny(reg: Registry, w: Race, f: Authority)
    requires Unconsumed(reg, w.stores) && Watched(w.stores) && Retired(reg, w) && Known(reg, f) && f.faultId in w.removed
    ensures !OwnDenyStands(w.stores, f)
  {
    if OwnDenyStands(w.stores, f) { OwnDeny(reg, w.stores, f, (f.target, f.faultId)); }
  }

  lemma CallKeepsRetired(reg: Registry, w: Race, x: Write, f: Authority)
    requires Unconsumed(reg, w.stores) && Retired(reg, w) && Known(reg, f) && Apply(w.stores, x, f).Some?
    ensures Retired(reg, w.(stores := After(w.stores, x, f)))
  {
    forall id | id in w.removed
      ensures RetiredIn(After(w.stores, x, f), reg[id])
    {
      assert RetiredIn(w.stores, reg[id]);
      CallKeepsOneRetired(reg, w.stores, x, f, reg[id]);
    }
  }

  /** A fault whose deny was removed: sealed or cleaned, or its lock past the removal. */
  predicate RetiredIn(s: Stores, g: Authority) {
    g.faultId in s.evidence || HoldsIn(s, g, DenyRemoved) || HoldsIn(s, g, WatchdogDisarmed)
  }

  lemma CallKeepsOneRetired(reg: Registry, s: Stores, x: Write, f: Authority, g: Authority)
    requires Unconsumed(reg, s) && Known(reg, f) && Known(reg, g) && Apply(s, x, f).Some? && RetiredIn(s, g)
    ensures RetiredIn(After(s, x, f), g)
  {
  }

  lemma RemovalRetires(reg: Registry, w: Race, f: Authority)
    requires Retired(reg, w) && Known(reg, f) && HoldsIn(w.stores, f, DenyRemoved)
    ensures Retired(reg, w.(removed := w.removed + {f.faultId}))
  {
  }

  /** A process that performed its call is in flight where it stands now. */
  lemma AdvancedIsInFlight(w: Race, w': Race, p: Process)
    requires |p.rest| > 0 && InFlight(w, p) && Apply(w.stores, p.rest[0], p.fault).Some?
    requires w.removed <= w'.removed && w'.stores.denies == After(w.stores, p.rest[0], p.fault).denies
    ensures InFlight(w', p.(rest := p.rest[1..]))
  {
  }

  /** Every other process stays in flight: only a clear policy put could disturb it. */
  lemma OthersStayInFlight(reg: Registry, w: Race, w': Race, x: Write, f: Authority, q: Process)
    requires Known(reg, f) && Known(reg, q.fault) && InFlight(w, q) && Apply(w.stores, x, f).Some?
    requires w.removed <= w'.removed && w'.stores.denies == After(w.stores, x, f).denies
    requires x == PutDeny ==> !SettlesNext(q, f)
    ensures InFlight(w', q)
  {
  }

  lemma StepKeepsInFlight(reg: Registry, w: Race, i: nat)
    requires RaceInvariant(reg, w) && Writes(w, Advances(i))
    requires PutsNext(w, Advances(i)) ==> Clear(w, w.processes[i].fault)
    requires Apply(w.stores, w.processes[i].rest[0], w.processes[i].fault).Some?
    ensures AllInFlight(Act(reg, w, Advances(i)))
  {
    hide Apply, InFlight, Unconsumed, Watched, Bounded, Retired;
    var p := w.processes[i];
    var w' := Act(reg, w, Advances(i));
    assert InFlight(w, p);
    AdvancedIsInFlight(w, w', p);
    forall j | 0 <= j < |w'.processes|
      ensures InFlight(w', w'.processes[j])
    {
      if j != i {
        assert InFlight(w, w.processes[j]);
        if p.rest[0] == PutDeny { assert !SettlesNext(w.processes[j], p.fault); }
        OthersStayInFlight(reg, w, w', p.rest[0], p.fault, w.processes[j]);
      }
    }
  }

  lemma StepKeepsBounded(reg: Registry, w: Race, i: nat)
    requires RaceInvariant(reg, w) && Writes(w, Advances(i))
    ensures Bounded(reg, Act(reg, w, Advances(i)).stores)
  {
    hide Unconsumed, Watched, Retired;
    assert InFlight(w, w.processes[i]);
  }

  lemma StepKeepsRetired(reg: Registry, w: Race, i: nat)
    requires RaceInvariant(reg, w) && Writes(w, Advances(i))
    ensures Retired(reg, Act(reg, w, Advances(i)))
  {
    var p := w.processes[i];
    assert InFlight(w, p);
    LastRemovalSetsRemoved(w, p);
    if Apply(w.stores, p.rest[0], p.fault).Some? {
      CallKeepsRetired(reg, w, p.rest[0], p.fault);
      if p.rest[0] == SetRemoved { RemovalRetires(reg, w.(stores := After(w.stores, SetRemoved, p.fault)), p.fault); }
    }
    hide Unconsumed, Watched, Bounded, InFlight;
  }

  lemma LastRemovalSetsRemoved(w: Race, p: Process)
    requires InFlight(w, p)
    ensures p.job == Controller(RemoveDeny) && |p.rest| == 1 ==> p.rest[0] == SetRemoved
  {
  }

  lemma AdvanceKeepsRace(reg: Registry, w: Race, i: nat)
    requires RaceInvariant(reg, w)
    requires PutsNext(w, Advances(i)) ==> Clear(w, w.processes[i].fault)
    ensures RaceInvariant(reg, Act(reg, w, Advances(i)))
  {
    if Writes(w, Advances(i)) {
      InFlightIsHarmless(reg, w, Advances(i));
      StepKeepsWatchExactly(reg, w, Advances(i));
      StepKeepsBounded(reg, w, i);
      StepKeepsRetired(reg, w, i);
      if Apply(w.stores, w.processes[i].rest[0], w.processes[i].fault).Some? {
        StepKeepsInFlight(reg, w, i);
      } else {
        FailedStepKeepsInFlight(reg, w, i);
      }
    }
    hide Basic, Watched, Bounded, Retired, AllInFlight;
  }

  lemma FailedStepKeepsInFlight(reg: Registry, w: Race, i: nat)
    requires AllInFlight(w) && Writes(w, Advances(i)) && Apply(w.stores, w.processes[i].rest[0], w.processes[i].fault).None?
    ensures AllInFlight(Act(reg, w, Advances(i)))
  {
    var w' := Act(reg, w, Advances(i));
    forall j | 0 <= j < |w'.processes|
      ensures InFlight(w', w'.processes[j])
    {
      if j != i { assert InFlight(w, w.processes[j]); }
    }
  }

  lemma BeginKeepsRace(reg: Registry, w: Race, a: Action)
    requires RaceInvariant(reg, w) && !a.Advances?
    ensures RaceInvariant(reg, Act(reg, w, a))
  {
    InFlightIsHarmless(reg, w, a);
    StepKeepsWatchExactly(reg, w, a);
    hide Unconsumed, Watched, Known, NoOtherDeny;
    var w' := Act(reg, w, a);
    forall j | 0 <= j < |w'.processes|
      ensures InFlight(w', w'.processes[j])
    {
      if j < |w.processes| { assert InFlight(w, w.processes[j]); }
    }
  }

  lemma {:induction false} ClearRunKeepsRace(reg: Registry, w: Race, actions: seq<Action>)
    requires RaceInvariant(reg, w) && ClearOn(reg, w, actions)
    ensures RaceInvariant(reg, PlayOn(reg, w, actions))
  {
    hide RaceInvariant, Act, Clear;
    if |actions| > 0 {
      var n := |actions| - 1;
      ClearPrefix(reg, w, actions, n);
      ClearRunKeepsRace(reg, w, actions[..n]);
      var before, a := PlayOn(reg, w, actions[..n]), actions[n];
      if a.Advances? {
        assert PutsNext(before, a) ==> Clear(before, before.processes[a.index].fault);
        AdvanceKeepsRace(reg, before, a.index);
      } else {
        BeginKeepsRace(reg, before, a);
      }
    }
  }

  lemma ClearPrefix(reg: Registry, w: Race, actions: seq<Action>, n: nat)
    requires ClearOn(reg, w, actions) && n <= |actions|
    ensures ClearOn(reg, w, actions[..n])
  {
    hide Act, Clear;
    forall k | 0 <= k < n
      ensures var before := PlayOn(reg, w, actions[..n][..k]);
              PutsNext(before, actions[..n][k]) ==> Clear(before, before.processes[actions[..n][k].index].fault)
    {
      assert actions[..n][..k] == actions[..k];
    }
  }

  lemma QuietIsRace(reg: Registry)
    ensures RaceInvariant(reg, Quiet)
  {
  }

  /**
   If every policy put is clear when it lands, then over every interleaving a deny belongs to the
   fault whose lock its role carries, armed or applied, with its cleanup pending no later than
   thirty seconds after expiry.
   */
  lemma ClearPutsKeepDeniesWatched(reg: Registry, actions: seq<Action>, role: CellRole, id: string)
    requires ClearOn(reg, Quiet, actions)
    requires (role, id) in PlayOn(reg, Quiet, actions).stores.denies
    ensures var s := PlayOn(reg, Quiet, actions).stores;
            && id in reg && reg[id].target == role && role in s.locks
            && (s.locks[role] == Lock(reg[id], WatchdogArmed) || s.locks[role] == Lock(reg[id], DenyApplied))
            && id in s.schedules && s.schedules[id] <= reg[id].expiresAt + 30
  {
    hide PlayOn, ClearOn, AllInFlight, Retired, AllKnown;
    QuietIsRace(reg);
    ClearRunKeepsRace(reg, Quiet, actions);
    var d := (role, id);
    assert d in PlayOn(reg, Quiet, actions).stores.denies;
  }

  /** Every continuation whose own policy puts are clear keeps every deny watched. */
  ghost predicate SafeForGood(reg: Registry, w: Race) {
    forall more :: ClearOn(reg, w, more) ==> Watched(PlayOn(reg, w, more).stores)
  }

  /**
   The exact check before a policy put, for any number of processes in flight. After a run whose
   puts were clear, the next put is safe for good if and only if it is clear itself: its lock
   armed or applied, its cleanup pending, and no process of its fault about to settle the lock.
   */
  lemma PutIsSafeForGoodExactlyWhenClear(reg: Registry, actions: seq<Action>, i: nat)
    requires ClearOn(reg, Quiet, actions) && PutsNext(PlayOn(reg, Quiet, actions), Advances(i))
    ensures var w := PlayOn(reg, Quiet, actions);
            SafeForGood(reg, Act(reg, w, Advances(i))) <==> Clear(w, w.processes[i].fault)
  {
    hide PlayOn, ClearOn, Act, Clear, Watched;
    var w := PlayOn(reg, Quiet, actions);
    QuietIsRace(reg);
    ClearRunKeepsRace(reg, Quiet, actions);
    var w' := Act(reg, w, Advances(i));
    if Clear(w, w.processes[i].fault) {
      AdvanceKeepsRace(reg, w, i);
      forall more | ClearOn(reg, w', more)
        ensures Watched(PlayOn(reg, w', more).stores)
      {
        ClearRunKeepsRace(reg, w', more);
      }
    } else {
      var more := UnclearPutEndsBadly(reg, w, i);
      assert ClearOn(reg, w', more) && !Watched(PlayOn(reg, w', more).stores);
    }
  }

  /** At most one further call after an unclear put leaves a deny that nothing watches. */
  lemma UnclearPutEndsBadly(reg: Registry, w: Race, i: nat) returns (more: seq<Action>)
    requires RaceInvariant(reg, w) && PutsNext(w, Advances(i)) && !Clear(w, w.processes[i].fault)
    ensures var w' := Act(reg, w, Advances(i));
            ClearOn(reg, w', more) && !Watched(PlayOn(reg, w', more).stores)
  {
    var p := w.processes[i];
    var f := p.fault;
    var w' := Act(reg, w, Advances(i));
    assert InFlight(w, p);
    if !Covered(w.stores, f) {
      CallKeepsWatchExactlyWhenHarmless(reg, w.stores, PutDeny, f);
      more := [];
    } else {
      var k :| 0 <= k < |w.processes| && SettlesNext(w.processes[k], f);
      assert InFlight(w, w.processes[k]) && w'.processes[k] == w.processes[k];
      more := [Advances(k)];
      assert more[..0] == [];
      SettlingUncovers(reg, w', k, f);
    }
  }

  lemma SettlingUncovers(reg: Registry, w: Race, k: nat, f: Authority)
    requires Unconsumed(reg, w.stores) && Known(reg, f) && Covered(w.stores, f) && OwnDenyStands(w.stores, f)
    requires k < |w.processes| && SettlesNext(w.processes[k], f)
    ensures PlayOn(reg, w, [Advances(k)]) == Act(reg, w, Advances(k)) && !PutsNext(w, Advances(k))
    ensures !Watched(Act(reg, w, Advances(k)).stores)
  {
    assert [Advances(k)][..0] == [];
    var d := (f.target, f.faultId);
    assert d in Act(reg, w, Advances(k)).stores.denies;
  }

  // ----- The run that a lock check at the put does not prevent -----

  function Only(f: Authority): Registry { map[f.faultId := f] }

  const Done: seq<Write> := []

  function Applying(f: Authority, rest: seq<Write>): Process { Process(Controller(ApplyDeny), f, rest) }

  function Cleaning(f: Authority, rest: seq<Write>): Process { Process(Watchdog, f, rest) }

  /** Two finished processes, an apply-deny and a watchdog, over some stores. */
  function Racing(f: Authority, s: Stores, applying: seq<Write>, cleaning: seq<Write>): Race {
    Race(s, {}, [Process(Controller(Acquire), f, Done), Process(Controller(ArmWatchdog), f, Done),
                 Applying(f, applying), Cleaning(f, cleaning)])
  }

  function DeniedUnder(f: Authority, at: nat, state: LockState): Stores {
    Stores(map[f.target := Lock(f, state)], map[], {(f.target, f.faultId)}, map[f.faultId := at])
  }

  function Stranded(f: Authority): Stores {
    Stores(map[], map[f.faultId := Evidence(f, WatchdogCleaned)], {(f.target, f.faultId)}, map[])
  }

  /** Both processes begin while the watchdog is armed and nothing is denied. */
  lemma BothBegin(f: Authority, now: nat) returns (actions: seq<Action>)
    requires ParsesAt(f, now)
    ensures PlayOn(Only(f), Quiet, actions) == Racing(f, Armed(f, CleanupTime(f, now)), [PutDeny, SetApplied], CleanupScript)
  {
    hide PlayOn, ParsesAt;
    var reg, at := Only(f), CleanupTime(f, now);
    actions := [];
    NothingPlayed(reg);
    actions := Plays(reg, actions, Begins(Acquire, f, now));
    actions := Plays(reg, actions, Advances(0));
    var acquired := Process(Controller(Acquire), f, Done);
    assert [PutLock][1..] == Done;
    assert PlayOn(reg, Quiet, actions) == Race(After(Nothing, PutLock, f), {}, [acquired]);
    actions := Plays(reg, actions, Begins(ArmWatchdog, f, now));
    actions := Plays(reg, actions, Advances(1));
    assert [CreateSchedule(at), SetArmed][1..] == [SetArmed] && [SetArmed][1..] == Done;
    assert PlayOn(reg, Quiet, actions).processes == [acquired, Process(Controller(ArmWatchdog), f, [SetArmed])];
    actions := Plays(reg, actions, Advances(1));
    assert PlayOn(reg, Quiet, actions).stores == Armed(f, at);
    assert PlayOn(reg, Quiet, actions).processes == [acquired, Process(Controller(ArmWatchdog), f, Done)];
    actions := Plays(reg, actions, Begins(ApplyDeny, f, now));
    actions := Plays(reg, actions, Fires(f));
  }

  lemma NothingPlayed(reg: Registry)
    ensures PlayOn(reg, Quiet, []) == Quiet
  {
  }

  lemma Plays(reg: Registry, actions: seq<Action>, a: Action) returns (longer: seq<Action>)
    ensures longer == actions + [a]
    ensures PlayOn(reg, Quiet, longer) == Act(reg, PlayOn(reg, Quiet, actions), a)
  {
    longer := actions + [a];
    OneMore(reg, Quiet, actions, a);
  }

  /** One call of the apply-deny (2) or of the watchdog (3). */
  lemma RacingStep(f: Authority, s: Stores, applying: seq<Write>, cleaning: seq<Write>, i: nat, x: Write)
    requires (i == 2 && |applying| > 0 && applying[0] == x) || (i == 3 && |cleaning| > 1 && cleaning[0] == x)
    requires Apply(s, x, f).Some?
    ensures Act(Only(f), Racing(f, s, applying, cleaning), Advances(i)) ==
            if i == 2 then Racing(f, After(s, x, f), applying[1..], cleaning) else Racing(f, After(s, x, f), applying, cleaning[1..])
  {
    hide Apply;
  }

  lemma LastCleaning(f: Authority, s: Stores)
    requires Apply(s, CleanLock, f).Some?
    ensures Act(Only(f), Racing(f, s, Done, [CleanLock]), Advances(3)) ==
            Racing(f, DropSchedule(After(s, CleanLock, f), f), Done, Done)
  {
    hide Apply;
    assert [CleanLock][1..] == Done;
  }

  /**
   The watchdog deletes the absent deny, the whole of apply-deny runs under its own armed lock,
   and then the watchdog removes that lock: the deny stands with no lock and no cleanup.
   */
  lemma WatchdogAroundApplyDeny(f: Authority, now: nat) returns (actions: seq<Action>, put: nat)
    requires ParsesAt(f, now)
    ensures put < |actions|
    ensures var w := PlayOn(Only(f), Quiet, actions[..put]);
            PutsNext(w, actions[put]) && HoldsIn(w.stores, f, WatchdogArmed) && Watched(w.stores) && !Clear(w, f)
    ensures var s := PlayOn(Only(f), Quiet, actions).stores;
            OwnDenyStands(s, f) && f.target !in s.locks && f.faultId !in s.schedules && !MayClean(s, f)
  {
    hide PlayOn, ParsesAt, Act, Apply;
    var reg, at := Only(f), CleanupTime(f, now);
    actions := BothBegin(f, now);
    RaceCalls(f, at);
    RacingStep(f, Armed(f, at), [PutDeny, SetApplied], CleanupScript, 3, DeleteDeny);
    actions := Plays(reg, actions, Advances(3));
    put := |actions|;
    var upToPut := actions;
    assert CleanupScript[1..] == [CleanLock];
    assert PlayOn(reg, Quiet, upToPut) == Racing(f, Armed(f, at), [PutDeny, SetApplied], [CleanLock]);
    SettlesInRace(f, at);
    RacingStep(f, Armed(f, at), [PutDeny, SetApplied], [CleanLock], 2, PutDeny);
    actions := Plays(reg, actions, Advances(2));
    assert [PutDeny, SetApplied][1..] == [SetApplied] && [SetApplied][1..] == Done;
    RacingStep(f, DeniedUnder(f, at, WatchdogArmed), [SetApplied], [CleanLock], 2, SetApplied);
    actions := Plays(reg, actions, Advances(2));
    LastCleaning(f, DeniedUnder(f, at, DenyApplied));
    actions := Plays(reg, actions, Advances(3));
    assert actions[..put] == upToPut && actions[put] == Advances(2);
  }

  /** What each call of the race does. */
  lemma RaceCalls(f: Authority, at: nat)
    ensures Apply(Armed(f, at), DeleteDeny, f).Some? && After(Armed(f, at), DeleteDeny, f) == Armed(f, at)
    ensures Apply(Armed(f, at), PutDeny, f).Some? && After(Armed(f, at), PutDeny, f) == DeniedUnder(f, at, WatchdogArmed)
    ensures var s := DeniedUnder(f, at, WatchdogArmed);
            Apply(s, SetApplied, f).Some? && After(s, SetApplied, f) == DeniedUnder(f, at, DenyApplied)
    ensures var s := DeniedUnder(f, at, DenyApplied);
            Apply(s, CleanLock, f).Some? && DropSchedule(After(s, CleanLock, f), f) == Stranded(f)
  {
  }

  lemma SettlesInRace(f: Authority, at: nat)
    ensures var w := Racing(f, Armed(f, at), [PutDeny, SetApplied], [CleanLock]);
            PutsNext(w, Advances(2)) && Watched(w.stores) && Covered(w.stores, f) && !Clear(w, f)
  {
    var w := Racing(f, Armed(f, at), [PutDeny, SetApplied], [CleanLock]);
    assert SettlesNext(w.processes[3], f);
  }
}
