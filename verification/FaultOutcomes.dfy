/**
 What each operation of the fault exercise leaves when its process survives, told from the
 lock, the evidence, the deny and the schedule it finds; what a whole exercise and a whole
 watchdog run leave; and where an interrupted exercise can no longer be finished.
 */
module FaultOutcomes {
  import opened FaultStores
  import opened FaultSafety

  /** The operation as a whole, by a process that survives. */
  function Operate(s: Stores, op: Operation, f: Authority, now: nat): (Stores, bool) {
    if MayStart(s, op, f, now) then RunScript(s, Script(op, f, now), f, 2) else (s, false)
  }

  function LockOf(s: Stores, f: Authority): set<LockState> {
    if f.target in s.locks && s.locks[f.target].authority == f then {s.locks[f.target].state} else {}
  }

  /** An authority is usable only while its deny and the cleanup margin both fit into what is left of it. */
  lemma AuthorityFits(f: Authority, now: nat)
    ensures ParsesAt(f, now) <==>
              30 <= f.maximumFaultSeconds <= 300
              && now + f.maximumFaultSeconds + 30 <= f.expiresAt <= now + 900 && f.expiresAt <= f.transitionExpiresAt
    ensures ParsesAt(f, now) ==> f.maximumFaultSeconds + now < CleanupTime(f, now) <= f.expiresAt + 30
  {
  }

  /** Acquiring, releasing and sealing each take one exact lock state to the next, or do nothing. */
  lemma LockOutcomes(s: Stores, f: Authority, now: nat)
    requires ParsesAt(f, now)
    ensures Operate(s, Acquire, f, now) ==
              if f.faultId !in s.evidence && f.target !in s.locks
              then (s.(locks := s.locks[f.target := Lock(f, Locked)]), true) else (s, false)
    ensures Operate(s, ReleaseUnarmedLock, f, now) ==
              if LockOf(s, f) == {Locked} then (s.(locks := s.locks - {f.target}), true) else (s, false)
    ensures Operate(s, SealFault, f, now) ==
              if LockOf(s, f) == {WatchdogDisarmed} && f.faultId !in s.evidence
              then (s.(locks := s.locks - {f.target}, evidence := s.evidence[f.faultId := Evidence(f, CompletedByWorkflow)]), true)
              else (s, false)
  {
    hide ParsesAt;
    RunOne(s, PutLock, f, 2);
    RunOne(s, DeleteUnarmedLock, f, 2);
    RunOne(s, SealEvidence, f, 2);
  }

  /** A cleanup is scheduled even when arming is refused; a schedule that exists is kept. */
  lemma ArmOutcome(s: Stores, f: Authority, now: nat)
    requires ParsesAt(f, now)
    ensures var at := if f.faultId in s.schedules then s.schedules[f.faultId] else now + f.maximumFaultSeconds + 60;
            var (s', done) := Operate(s, ArmWatchdog, f, now);
            && (done <==> LockOf(s, f) == {Locked})
            && s' == s.(schedules := s.schedules[f.faultId := at],
                        locks := if done then s.locks[f.target := Lock(f, WatchdogArmed)] else s.locks)
  {
    hide ParsesAt;
    RunTwo(s, CreateSchedule(CleanupTime(f, now)), SetArmed, f, 2);
    if f.faultId in s.schedules { assert s.schedules == s.schedules[f.faultId := s.schedules[f.faultId]]; }
  }

  /** The deny goes on exactly under the fault's own armed lock on a role with no other fault's deny. */
  lemma ApplyOutcome(s: Stores, f: Authority, now: nat)
    requires ParsesAt(f, now)
    ensures var (s', done) := Operate(s, ApplyDeny, f, now);
            && (done <==> LockOf(s, f) == {WatchdogArmed} && forall id | (f.target, id) in s.denies :: id == f.faultId)
            && s' == if done then s.(denies := s.denies + {(f.target, f.faultId)},
                                     locks := s.locks[f.target := Lock(f, DenyApplied)]) else s
  {
    hide ParsesAt;
    RunTwo(s, PutDeny, SetApplied, f, 2);
    if forall id | (f.target, id) in s.denies :: id == f.faultId {
      forall d | d in s.denies && d.0 == f.target ensures d.1 == f.faultId { assert d == (f.target, d.1); }
    }
  }

  /** The own deny is gone afterwards whatever the lock says; only the own lock records it. */
  lemma RemoveOutcome(s: Stores, f: Authority, now: nat)
    requires ParsesAt(f, now)
    ensures var (s', done) := Operate(s, RemoveDeny, f, now);
            && (done <==> LockOf(s, f) != {})
            && s' == s.(denies := s.denies - {(f.target, f.faultId)},
                        locks := if done then s.locks[f.target := Lock(f, DenyRemoved)] else s.locks)
  {
    hide ParsesAt;
    RunTwo(s, DeleteDeny, SetRemoved, f, 2);
  }

  /** The schedule is gone afterwards in every case; the lock is disarmed exactly if it was there and the deny removed. */
  lemma DisarmOutcome(s: Stores, f: Authority, now: nat)
    requires ParsesAt(f, now)
    ensures var (s', done) := Operate(s, DisarmWatchdog, f, now);
            && (done <==> f.faultId in s.schedules && LockOf(s, f) == {DenyRemoved})
            && f.faultId !in s'.schedules
            && s' == s.(schedules := s.schedules - {f.faultId},
                        locks := if done then s.locks[f.target := Lock(f, WatchdogDisarmed)] else s.locks)
  {
    hide ParsesAt;
    RunTwo(s, DeleteSchedule, SetDisarmed, f, 2);
    if f.faultId !in s.schedules { assert s.schedules - {f.faultId} == s.schedules; }
  }

  // ----- A whole exercise -----

  /** The six operations in order, at their own clocks, each only after the one before it returned. */
  function Exercise(s: Stores, f: Authority, clock: Operation -> nat): (Stores, bool) {
    var (s1, ok1) := Operate(s, Acquire, f, clock(Acquire));
    var (s2, ok2) := Operate(s1, ArmWatchdog, f, clock(ArmWatchdog));
    var (s3, ok3) := Operate(s2, ApplyDeny, f, clock(ApplyDeny));
    var (s4, ok4) := Operate(s3, RemoveDeny, f, clock(RemoveDeny));
    var (s5, ok5) := Operate(s4, DisarmWatchdog, f, clock(DisarmWatchdog));
    var (s6, ok6) := Operate(s5, SealFault, f, clock(SealFault));
    (s6, ok1 && ok2 && ok3 && ok4 && ok5 && ok6)
  }

  /**
   An undisturbed exercise on a free role whose authority stays usable completes, and leaves
   nothing behind but its evidence: no lock, no deny, no schedule.
   */
  lemma ExerciseLeavesOnlyEvidence(s: Stores, f: Authority, clock: Operation -> nat)
    requires forall op :: ParsesAt(f, clock(op))
    requires f.target !in s.locks && f.faultId !in s.evidence && f.faultId !in s.schedules
    requires forall id :: (f.target, id) !in s.denies
    ensures Exercise(s, f, clock) == (s.(evidence := s.evidence[f.faultId := Evidence(f, CompletedByWorkflow)]), true)
  {
    hide ParsesAt, Operate;
    var at := clock(ArmWatchdog) + f.maximumFaultSeconds + 60;
    LockOutcomes(s, f, clock(Acquire));
    var s1 := s.(locks := s.locks[f.target := Lock(f, Locked)]);
    ArmOutcome(s1, f, clock(ArmWatchdog));
    var s2 := s1.(schedules := s.schedules[f.faultId := at], locks := s1.locks[f.target := Lock(f, WatchdogArmed)]);
    assert Operate(s1, ArmWatchdog, f, clock(ArmWatchdog)) == (s2, true);
    ApplyOutcome(s2, f, clock(ApplyDeny));
    var s3 := s2.(denies := s.denies + {(f.target, f.faultId)}, locks := s2.locks[f.target := Lock(f, DenyApplied)]);
    assert Operate(s2, ApplyDeny, f, clock(ApplyDeny)) == (s3, true);
    RemoveOutcome(s3, f, clock(RemoveDeny));
    assert s3.denies - {(f.target, f.faultId)} == s.denies;
    var s4 := s3.(denies := s.denies, locks := s3.locks[f.target := Lock(f, DenyRemoved)]);
    assert Operate(s3, RemoveDeny, f, clock(RemoveDeny)) == (s4, true);
    DisarmOutcome(s4, f, clock(DisarmWatchdog));
    assert s4.schedules - {f.faultId} == s.schedules;
    var s5 := s4.(schedules := s.schedules, locks := s4.locks[f.target := Lock(f, WatchdogDisarmed)]);
    assert Operate(s4, DisarmWatchdog, f, clock(DisarmWatchdog)) == (s5, true);
    LockOutcomes(s5, f, clock(SealFault));
    assert s5.locks - {f.target} == s.locks;
  }

  // ----- A whole watchdog run -----

  /**
   Whatever a controller got to before it was lost, a scheduled watchdog that runs to its end
   consumes the fault: lock, deny and schedule are gone and the cleanup is on record.
   */
  lemma WatchdogConsumesFault(reg: Registry, actions: seq<Action>, f: Authority)
    requires Known(reg, f)
    requires var s := Play(reg, actions).stores;
             && f.faultId in s.schedules && f.target in s.locks && s.locks[f.target].authority == f
             && s.locks[f.target].state != WatchdogDisarmed
    ensures var w := Play(reg, actions);
            Act(reg, w, Watches(f, 2)) ==
              w.(stores := Stores(w.stores.locks - {f.target},
                                  w.stores.evidence[f.faultId := Evidence(f, WatchdogCleaned)],
                                  w.stores.denies - {(f.target, f.faultId)},
                                  w.stores.schedules - {f.faultId}))
  {
    hide Play;
    PlayKeepsInvariant(reg, actions);
    RunTwo(Play(reg, actions).stores, DeleteDeny, CleanLock, f, 2);
  }

  /** In particular no deny of a reachable state outlives its own watchdog. */
  lemma WatchdogRemovesDeny(reg: Registry, actions: seq<Action>, role: CellRole, id: string)
    requires (role, id) in Play(reg, actions).stores.denies
    ensures id in reg
    ensures var s := Act(reg, Play(reg, actions), Watches(reg[id], 2)).stores;
            && (role, id) !in s.denies && role !in s.locks
            && id in s.evidence && s.evidence[id] == Evidence(reg[id], WatchdogCleaned)
  {
    hide Play, Act;
    DenyIsWatchedAndBounded(reg, actions, role, id);
    DenyIsKnown(reg, actions, role, id);
    WatchdogConsumesFault(reg, actions, reg[id]);
  }

  lemma DenyIsKnown(reg: Registry, actions: seq<Action>, role: CellRole, id: string)
    requires (role, id) in Play(reg, actions).stores.denies
    ensures id in reg && reg[id].faultId == id && Known(reg, reg[id])
  {
    hide Play;
    DenyIsWatchedAndBounded(reg, actions, role, id);
    PlayKeepsInvariant(reg, actions);
  }

  // ----- A disarm cut in two -----

  /** The deny is recorded as removed and nothing is scheduled any more. */
  predicate HalfDisarmed(w: World, f: Authority) {
    && f.target in w.stores.locks && w.stores.locks[f.target] == Lock(f, DenyRemoved)
    && f.faultId !in w.stores.schedules && f.faultId !in w.stores.evidence
  }

  /** A disarm lost between its two calls leaves exactly that. */
  lemma LostDisarm(reg: Registry, w: World, f: Authority, now: nat)
    requires Known(reg, f) && ParsesAt(f, now) && f.faultId in w.removed && f.faultId !in w.stores.evidence
    requires f.target in w.stores.locks && w.stores.locks[f.target] == Lock(f, DenyRemoved) && f.faultId in w.stores.schedules
    ensures HalfDisarmed(Act(reg, w, Controls(DisarmWatchdog, f, now, 1)), f)
  {
    RunTwo(w.stores, DeleteSchedule, SetDisarmed, f, 1);
  }

  function Onward(reg: Registry, w: World, actions: seq<Action>): World {
    if |actions| == 0 then w else Act(reg, Onward(reg, w, actions[..|actions| - 1]), actions[|actions| - 1])
  }

  /**
   Disarming does not resume: a repeated disarm finds its schedule gone and raises, and no
   watchdog is left to fire. Whatever else controllers and watchdogs do, the lock stays and the
   fault is never on record, unless the same fault is armed once more.
   */
  lemma {:induction false} LostDisarmIsNeverFinished(reg: Registry, w: World, f: Authority, actions: seq<Action>)
    requires Known(reg, f) && HalfDisarmed(w, f)
    requires forall a :: a in actions && a.Controls? && a.fault == f ==> a.op != ArmWatchdog
    ensures HalfDisarmed(Onward(reg, w, actions), f)
  {
    hide Act, HalfDisarmed;
    if |actions| > 0 {
      var n := |actions| - 1;
      assert forall a :: a in actions[..n] ==> a in actions;
      LostDisarmIsNeverFinished(reg, w, f, actions[..n]);
      assert actions[n] in actions;
      HalfDisarmedStays(reg, Onward(reg, w, actions[..n]), f, actions[n]);
    }
  }

  lemma HalfDisarmedStays(reg: Registry, w: World, f: Authority, a: Action)
    requires Known(reg, f) && HalfDisarmed(w, f)
    requires a.Controls? && a.fault == f ==> a.op != ArmWatchdog
    ensures HalfDisarmed(Act(reg, w, a), f)
  {
    match a
    case Controls(op, g, now, writes) =>
      if Ordered(w, a) && Known(reg, g) {
        var script := Script(op, g, now);
        CallKeepsHalfDisarmed(reg, w, script[0], f, g);
        if |script| == 1 {
          RunOne(w.stores, script[0], g, writes);
          assert script == [script[0]];
        } else {
          RunTwo(w.stores, script[0], script[1], g, writes);
          assert script == [script[0], script[1]];
          // The disarm's own first call finds no schedule and raises.
          if op == DisarmWatchdog && g == f { return; }
          CallKeepsHalfDisarmed(reg, w.(stores := After(w.stores, script[0], g)), script[1], f, g);
        }
      }
    case Watches(g, writes) =>
      if Ordered(w, a) && Known(reg, g) && MayClean(w.stores, g) {
        RunTwo(w.stores, DeleteDeny, CleanLock, g, writes);
        CallKeepsHalfDisarmed(reg, w, DeleteDeny, f, g);
        CallKeepsHalfDisarmed(reg, w.(stores := After(w.stores, DeleteDeny, g)), CleanLock, f, g);
      }
  }

  lemma CallKeepsHalfDisarmed(reg: Registry, w: World, c: Write, f: Authority, g: Authority)
    requires Known(reg, f) && Known(reg, g) && HalfDisarmed(w, f)
    requires g == f ==> !c.CreateSchedule? && !c.CleanLock? && !c.SetDisarmed?
    ensures HalfDisarmed(w.(stores := After(w.stores, c, g)), f)
  {
  }

  /** Arming once more, though it is refused itself, is what lets the disarm be repeated. */
  lemma RearmingFinishesDisarm(s: Stores, f: Authority, now: nat, later: nat)
    requires ParsesAt(f, now) && ParsesAt(f, later)
    requires f.target in s.locks && s.locks[f.target] == Lock(f, DenyRemoved) && f.faultId !in s.schedules
    ensures !Operate(s, DisarmWatchdog, f, now).1 && !Operate(s, ArmWatchdog, f, now).1
    ensures Operate(Operate(s, ArmWatchdog, f, now).0, DisarmWatchdog, f, later) ==
              (s.(locks := s.locks[f.target := Lock(f, WatchdogDisarmed)]), true)
  {
    hide ParsesAt, Operate;
    ArmOutcome(s, f, now);
    DisarmOutcome(s, f, now);
    var s' := Operate(s, ArmWatchdog, f, now).0;
    DisarmOutcome(s', f, later);
    assert s'.schedules - {f.faultId} == s.schedules;
  }
}
