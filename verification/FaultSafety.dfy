/**
 Two laws of the fault exercise: an authority is consumed exactly once whatever the
 interleaving, and a deny never stands without its own lock and pending cleanup.
 */
module FaultSafety {
  import opened FaultStores

  /** Fault identifiers are unique per authority. */
  type Registry = map<string, Authority>

  predicate Known(reg: Registry, f: Authority) {
    f.faultId in reg && reg[f.faultId] == f
  }

  // ----- Consumption, call by call -----

  /** Any interleaving of single provider calls by controllers and watchdogs. */
  function Interleave(s: Stores, reg: Registry, calls: seq<(Write, Authority)>): Stores {
    if |calls| == 0 then s
    else
      var before := Interleave(s, reg, calls[..|calls| - 1]);
      var (w, f) := calls[|calls| - 1];
      if Known(reg, f) && Apply(before, w, f).Some? then Apply(before, w, f).value else before
  }

  /** Locks are held by known authorities for their own target, and never next to evidence. */
  predicate Unconsumed(reg: Registry, s: Stores) {
    && (forall role :: role in s.locks ==>
          var f := s.locks[role].authority;
          Known(reg, f) && f.target == role && f.faultId !in s.evidence)
    && (forall id :: id in s.evidence ==> id in reg && s.evidence[id].authority == reg[id])
  }

  lemma CallKeepsUnconsumed(reg: Registry, s: Stores, w: Write, f: Authority)
    requires Unconsumed(reg, s) && Known(reg, f) && Apply(s, w, f).Some?
    ensures Unconsumed(reg, Apply(s, w, f).value)
    ensures forall id :: id in s.evidence ==>
              id in Apply(s, w, f).value.evidence && Apply(s, w, f).value.evidence[id] == s.evidence[id]
  {
  }

  lemma {:induction false} InterleavingKeepsEvidence(s: Stores, reg: Registry, calls: seq<(Write, Authority)>)
    requires Unconsumed(reg, s)
    ensures var t := Interleave(s, reg, calls);
            && Unconsumed(reg, t)
            && forall id :: id in s.evidence ==> id in t.evidence && t.evidence[id] == s.evidence[id]
  {
    if |calls| > 0 {
      var before := Interleave(s, reg, calls[..|calls| - 1]);
      InterleavingKeepsEvidence(s, reg, calls[..|calls| - 1]);
      var (w, f) := calls[|calls| - 1];
      if Known(reg, f) && Apply(before, w, f).Some? { CallKeepsUnconsumed(reg, before, w, f); }
    }
  }

  /**
   Consumed exactly once: after any interleaving a fault's lock and evidence do not coexist;
   once its evidence exists, no continuation changes that evidence, writes another or locks
   the fault again.
   */
  lemma ConsumedExactlyOnce(reg: Registry, calls: seq<(Write, Authority)>, more: seq<(Write, Authority)>, f: Authority)
    requires Known(reg, f)
    ensures var s := Interleave(Nothing, reg, calls);
            !(Holds(s, f) && f.faultId in s.evidence)
    ensures var s := Interleave(Nothing, reg, calls);
            var t := Interleave(s, reg, more);
            f.faultId in s.evidence ==>
              && f.faultId in t.evidence && t.evidence[f.faultId] == s.evidence[f.faultId]
              && s.evidence[f.faultId].authority == f
              && !Holds(t, f)
              && Apply(t, PutLock, f).None?
              && Apply(t, SealEvidence, f).None?
              && Apply(t, CleanLock, f).None?
  {
    hide Interleave;
    var s := Interleave(Nothing, reg, calls);
    InterleavingKeepsEvidence(Nothing, reg, calls);
    InterleavingKeepsEvidence(s, reg, more);
  }

  // ----- The watched deny, operation by operation -----

  /** `removed`: faults whose remove-deny operation has returned. */
  datatype World = World(stores: Stores, removed: set<string>)

  /** An operation or a watchdog run that performs its first `writes` calls and then stops. */
  datatype Action =
    | Controls(op: Operation, fault: Authority, now: nat, writes: nat)
    | Watches(fault: Authority, writes: nat)

  /** Disarming waits for remove-deny to have returned; the watchdog needs its schedule. */
  predicate Ordered(w: World, a: Action) {
    match a
    case Controls(op, f, now, _) =>
      MayStart(w.stores, op, f, now) && (op == DisarmWatchdog ==> f.faultId in w.removed)
    case Watches(f, _) => f.faultId in w.stores.schedules
  }

  function DropSchedule(s: Stores, f: Authority): Stores {
    s.(schedules := s.schedules - {f.faultId})
  }

  /** A schedule is gone once its cleanup has returned or refused; a crash leaves it pending. */
  function Act(reg: Registry, w: World, a: Action): World {
    if !Ordered(w, a) || !Known(reg, a.fault) then w
    else match a
      case Controls(op, f, now, writes) =>
        var (s, done) := RunScript(w.stores, Script(op, f, now), f, writes);
        World(s, if op == RemoveDeny && done then w.removed + {f.faultId} else w.removed)
      case Watches(f, writes) =>
        if !MayClean(w.stores, f) then w.(stores := DropSchedule(w.stores, f))
        else
          var (s, done) := RunScript(w.stores, CleanupScript, f, writes);
          w.(stores := if done then DropSchedule(s, f) else s)
  }

  function Play(reg: Registry, actions: seq<Action>): World {
    if |actions| == 0 then World(Nothing, {})
    else Act(reg, Play(reg, actions[..|actions| - 1]), actions[|actions| - 1])
  }

  predicate DenyState(state: LockState) { state == WatchdogArmed || state == DenyApplied }

  predicate Watched(s: Stores) {
    forall d :: d in s.denies ==>
      && d.0 in s.locks
      && s.locks[d.0].authority.faultId == d.1
      && DenyState(s.locks[d.0].state)
      && d.1 in s.schedules
  }

  predicate Bounded(reg: Registry, s: Stores) {
    forall id :: id in s.schedules ==> id in reg && s.schedules[id] <= reg[id].expiresAt + 30
  }

  predicate ArmedMeansScheduled(s: Stores) {
    forall role :: role in s.locks && DenyState(s.locks[role].state) ==>
      s.locks[role].authority.faultId in s.schedules
  }

  predicate RemovedStaysRemoved(reg: Registry, w: World) {
    forall id :: id in w.removed ==>
      && id in reg && reg[id].faultId == id
      && (id in w.stores.evidence
          || HoldsIn(w.stores, reg[id], DenyRemoved) || HoldsIn(w.stores, reg[id], WatchdogDisarmed))
  }

  predicate Invariant(reg: Registry, w: World) {
    && Unconsumed(reg, w.stores)
    && Watched(w.stores)
    && ArmedMeansScheduled(w.stores)
    && Bounded(reg, w.stores)
    && RemovedStaysRemoved(reg, w)
  }

  /** What one provider call needs of the world around it to keep the invariant. */
  predicate Safe(w: World, c: Write, f: Authority) {
    match c
    case CreateSchedule(at) => at <= f.expiresAt + 30
    case PutDeny => HoldsIn(w.stores, f, WatchdogArmed) || HoldsIn(w.stores, f, DenyApplied)
    case SetRemoved => (f.target, f.faultId) !in w.stores.denies
    case DeleteSchedule => f.faultId in w.removed
    case CleanLock => (f.target, f.faultId) !in w.stores.denies
    case SetArmed => f.faultId in w.stores.schedules
    case _ => true
  }

  /** A deny on a role whose lock is fault `f`'s own is the deny of `f`, in a deny state. */
  lemma OwnDeny(reg: Registry, s: Stores, f: Authority, d: (CellRole, string))
    requires Unconsumed(reg, s) && Watched(s) && Known(reg, f)
    requires d in s.denies && (d.1 == f.faultId || (Holds(s, f) && d.0 == f.target))
    ensures d == (f.target, f.faultId)
    ensures HoldsIn(s, f, WatchdogArmed) || HoldsIn(s, f, DenyApplied)
  {
  }

  lemma RemovedIsIdle(reg: Registry, w: World, f: Authority)
    requires Unconsumed(reg, w.stores) && RemovedStaysRemoved(reg, w) && Known(reg, f) && f.faultId in w.removed
    ensures !HoldsIn(w.stores, f, WatchdogArmed) && !HoldsIn(w.stores, f, DenyApplied)
  {
  }

  lemma CallKeepsWatched(reg: Registry, w: World, c: Write, f: Authority)
    requires Invariant(reg, w) && Known(reg, f) && Safe(w, c, f)
    ensures Watched(After(w.stores, c, f))
  {
    var s, t := w.stores, After(w.stores, c, f);
    if c == DeleteSchedule { RemovedIsIdle(reg, w, f); }
    hide Unconsumed, Bounded, RemovedStaysRemoved;
    forall d | d in t.denies
      ensures d.0 in t.locks && t.locks[d.0].authority.faultId == d.1 && DenyState(t.locks[d.0].state) && d.1 in t.schedules
    {
      if d in s.denies && (d.1 == f.faultId || (Holds(s, f) && d.0 == f.target)) { OwnDeny(reg, s, f, d); }
    }
  }

  lemma CallKeepsArmed(reg: Registry, w: World, c: Write, f: Authority)
    requires Invariant(reg, w) && Known(reg, f) && Safe(w, c, f)
    ensures ArmedMeansScheduled(After(w.stores, c, f))
  {
    if c == DeleteSchedule { RemovedIsIdle(reg, w, f); }
    hide Watched, Bounded, RemovedStaysRemoved;
  }

  lemma CallKeepsRemoved(reg: Registry, w: World, c: Write, f: Authority)
    requires Invariant(reg, w) && Known(reg, f) && Safe(w, c, f)
    ensures RemovedStaysRemoved(reg, w.(stores := After(w.stores, c, f)))
  {
    hide Watched, Bounded, ArmedMeansScheduled;
  }

  lemma CallKeepsInvariant(reg: Registry, w: World, c: Write, f: Authority)
    requires Invariant(reg, w) && Known(reg, f) && Safe(w, c, f)
    ensures Invariant(reg, w.(stores := After(w.stores, c, f)))
  {
    CallKeepsWatched(reg, w, c, f);
    CallKeepsArmed(reg, w, c, f);
    CallKeepsRemoved(reg, w, c, f);
    if Apply(w.stores, c, f).Some? { CallKeepsUnconsumed(reg, w.stores, c, f); }
    hide Unconsumed, Watched, ArmedMeansScheduled, RemovedStaysRemoved;
  }

  /** Every prefix of one operation that was allowed to start keeps the invariant. */
  lemma ControlKeepsInvariant(reg: Registry, w: World, op: Operation, f: Authority, now: nat, writes: nat)
    requires Invariant(reg, w) && Known(reg, f) && Ordered(w, Controls(op, f, now, writes))
    ensures Invariant(reg, Act(reg, w, Controls(op, f, now, writes)))
  {
    var script := Script(op, f, now);
    var s := w.stores;
    var w1 := w.(stores := After(s, script[0], f));
    CallKeepsInvariant(reg, w, script[0], f);
    if |script| == 1 {
      RunOne(s, script[0], f, writes);
      assert script == [script[0]];
    } else {
      RunTwo(s, script[0], script[1], f, writes);
      assert script == [script[0], script[1]];
      assert Safe(w1, script[1], f);
      CallKeepsInvariant(reg, w1, script[1], f);
      RemovedIsRecorded(reg, w1, f);
    }
    hide Unconsumed, Watched, ArmedMeansScheduled;
  }

  /** A remove-deny that returned left its own lock in the removed state. */
  lemma RemovedIsRecorded(reg: Registry, w: World, f: Authority)
    requires Invariant(reg, w) && Known(reg, f)
    ensures Apply(w.stores, SetRemoved, f).Some? ==>
              RemovedStaysRemoved(reg, World(After(w.stores, SetRemoved, f), w.removed + {f.faultId}))
  {
    hide Unconsumed, Watched, ArmedMeansScheduled, Bounded;
  }

  lemma WatchKeepsInvariant(reg: Registry, w: World, f: Authority, writes: nat)
    requires Invariant(reg, w) && Known(reg, f) && Ordered(w, Watches(f, writes))
    ensures Invariant(reg, Act(reg, w, Watches(f, writes)))
  {
    var w1 := w.(stores := After(w.stores, DeleteDeny, f));
    var w2 := w1.(stores := After(w1.stores, CleanLock, f));
    CallKeepsInvariant(reg, w, DeleteDeny, f);
    CallKeepsInvariant(reg, w1, CleanLock, f);
    RunTwo(w.stores, DeleteDeny, CleanLock, f, writes);
    if !MayClean(w.stores, f) {
      DropKeepsInvariant(reg, w, f);
    } else if writes >= 2 {
      DropKeepsInvariant(reg, w2, f);
    }
  }

  /** A cleanup schedule may disappear once its own fault holds no lock that still needs it. */
  lemma DropKeepsInvariant(reg: Registry, w: World, f: Authority)
    requires Invariant(reg, w) && Known(reg, f) && !MayClean(w.stores, f)
    ensures Invariant(reg, w.(stores := DropSchedule(w.stores, f)))
  {
  }

  lemma {:induction false} PlayKeepsInvariant(reg: Registry, actions: seq<Action>)
    ensures Invariant(reg, Play(reg, actions))
  {
    if |actions| > 0 {
      hide Invariant, Ordered;
      PlayKeepsInvariant(reg, actions[..|actions| - 1]);
      ActKeepsInvariant(reg, Play(reg, actions[..|actions| - 1]), actions[|actions| - 1]);
    }
  }

  lemma ActKeepsInvariant(reg: Registry, w: World, a: Action)
    requires Invariant(reg, w)
    ensures Invariant(reg, Act(reg, w, a))
  {
    hide Invariant;
    if Ordered(w, a) && Known(reg, a.fault) {
      match a
      case Controls(op, f, now, writes) => ControlKeepsInvariant(reg, w, op, f, now, writes);
      case Watches(f, writes) => WatchKeepsInvariant(reg, w, f, writes);
    }
  }

  /**
   Deny is always watched and bounded: in every reachable state a deny on a role belongs to
   the one fault whose lock that role carries, in an armed or applied state, and its cleanup
   is pending no later than thirty seconds after that fault's authority expires.
   */
  lemma DenyIsWatchedAndBounded(reg: Registry, actions: seq<Action>, role: CellRole, id: string)
    requires (role, id) in Play(reg, actions).stores.denies
    ensures var s := Play(reg, actions).stores;
            && id in reg && reg[id].target == role && s.locks.Keys >= {role}
            && (s.locks[role] == Lock(reg[id], WatchdogArmed) || s.locks[role] == Lock(reg[id], DenyApplied))
            && id !in s.evidence
            && id in s.schedules && s.schedules[id] <= reg[id].expiresAt + 30
  {
    hide Play;
    PlayKeepsInvariant(reg, actions);
    var d := (role, id);
    assert d in Play(reg, actions).stores.denies;
  }

  lemma AtMostOneDenyPerRole(reg: Registry, actions: seq<Action>, role: CellRole, id1: string, id2: string)
    requires (role, id1) in Play(reg, actions).stores.denies && (role, id2) in Play(reg, actions).stores.denies
    ensures id1 == id2
  {
    hide Play;
    PlayKeepsInvariant(reg, actions);
    var d1, d2 := (role, id1), (role, id2);
    assert d1 in Play(reg, actions).stores.denies && d2 in Play(reg, actions).stores.denies;
  }

  /**
   The watchdog may run between the lock read and the policy put of apply-deny: after that the
   deny stands with no lock and no pending cleanup.
   */
  lemma WatchdogInsideApplyDeny(f: Authority, now: nat)
    requires ParsesAt(f, now)
    ensures var reg: Registry := map[f.faultId := f];
            var armed := Play(reg, [Controls(Acquire, f, now, 1), Controls(ArmWatchdog, f, now, 2)]);
            var cleaned := Act(reg, armed, Watches(f, 2));
            var late := After(cleaned.stores, PutDeny, f);
            && MayStart(armed.stores, ApplyDeny, f, now)
            && (f.target, f.faultId) in late.denies
            && f.target !in late.locks
            && f.faultId !in late.schedules
            && !MayClean(late, f)
  {
    hide ParsesAt, Play, Act;
    ArmedWorld(f, now);
    CleanedWorld(f, CleanupTime(f, now));
  }

  function Armed(f: Authority, at: nat): Stores {
    Stores(map[f.target := Lock(f, WatchdogArmed)], map[], {}, map[f.faultId := at])
  }

  lemma ArmedWorld(f: Authority, now: nat)
    requires ParsesAt(f, now)
    ensures var reg: Registry := map[f.faultId := f];
            Play(reg, [Controls(Acquire, f, now, 1), Controls(ArmWatchdog, f, now, 2)]) == World(Armed(f, CleanupTime(f, now)), {})
  {
    hide ParsesAt;
    var reg: Registry := map[f.faultId := f];
    var a1, a2 := Controls(Acquire, f, now, 1), Controls(ArmWatchdog, f, now, 2);
    assert [a1, a2][..1] == [a1] && [a1][..0] == [];
    RunOne(Nothing, PutLock, f, 1);
    var locked := After(Nothing, PutLock, f);
    assert Play(reg, [a1]) == World(locked, {});
    RunTwo(locked, CreateSchedule(CleanupTime(f, now)), SetArmed, f, 2);
    assert After(After(locked, CreateSchedule(CleanupTime(f, now)), f), SetArmed, f) == Armed(f, CleanupTime(f, now));
  }

  lemma CleanedWorld(f: Authority, at: nat)
    ensures var reg: Registry := map[f.faultId := f];
            Act(reg, World(Armed(f, at), {}), Watches(f, 2)) ==
              World(Stores(map[], map[f.faultId := Evidence(f, WatchdogCleaned)], {}, map[]), {})
  {
    var armed := Armed(f, at);
    RunTwo(armed, DeleteDeny, CleanLock, f, 2);
    assert After(armed, DeleteDeny, f) == armed;
  }
}
