/**
 The dependency-fault exercise: a lock and its evidence in the journal table, an inline
 deny policy on the target role, and a cleanup schedule. The controller and the watchdog
 change them one provider call at a time.
 */
module FaultStores {
  import opened Base

  datatype CellRole = PrimaryRole | RecoveryRole

  /** One fault authority; its digest is the value itself. */
  datatype Authority = Authority(faultId: string, target: CellRole, maximumFaultSeconds: nat, expiresAt: nat, transitionExpiresAt: nat)

  datatype LockState = Locked | WatchdogArmed | DenyApplied | DenyRemoved | WatchdogDisarmed

  datatype Lock = Lock(authority: Authority, state: LockState)

  datatype Status = CompletedByWorkflow | WatchdogCleaned

  datatype Evidence = Evidence(authority: Authority, status: Status)

  /** `denies` holds the fault identifiers whose policy is on each role; `schedules` the cleanup times. */
  datatype Stores = Stores(
    locks: map<CellRole, Lock>,
    evidence: map<string, Evidence>,
    denies: set<(CellRole, string)>,
    schedules: map<string, nat>)

  const Nothing: Stores := Stores(map[], map[], {}, map[])

  /** The value and timing checks that parsing repeats at every operation. */
  predicate ParsesAt(f: Authority, now: nat) {
    && 30 <= f.maximumFaultSeconds <= 300
    && now < f.expiresAt
    && f.expiresAt <= now + 900
    && f.expiresAt <= f.transitionExpiresAt
    && now + f.maximumFaultSeconds + 30 <= f.expiresAt
  }

  function CleanupTime(f: Authority, now: nat): nat { now + f.maximumFaultSeconds + 60 }

  // ----- Single provider calls -----

  datatype Write =
    | PutLock
    | DeleteUnarmedLock
    | CreateSchedule(at: nat)
    | SetArmed
    | PutDeny
    | SetApplied
    | DeleteDeny
    | SetRemoved
    | DeleteSchedule
    | SetDisarmed
    | SealEvidence
    | CleanLock

  predicate Holds(s: Stores, f: Authority) {
    f.target in s.locks && s.locks[f.target].authority == f
  }

  predicate HoldsIn(s: Stores, f: Authority, state: LockState) {
    Holds(s, f) && s.locks[f.target].state == state
  }

  function SetState(s: Stores, f: Authority, state: LockState): Stores {
    s.(locks := s.locks[f.target := Lock(f, state)])
  }

  /** One call for fault `f`: the new stores, or None when its condition fails or it raises. */
  function Apply(s: Stores, w: Write, f: Authority): Option<Stores> {
    match w
    case PutLock =>
      if f.faultId in s.evidence || f.target in s.locks then None
      else Some(SetState(s, f, Locked))
    case DeleteUnarmedLock =>
      if HoldsIn(s, f, Locked) then Some(s.(locks := s.locks - {f.target})) else None
    case CreateSchedule(at) =>
      // The client token makes a repeated creation return the schedule that exists.
      if f.faultId in s.schedules then Some(s) else Some(s.(schedules := s.schedules[f.faultId := at]))
    case SetArmed => if HoldsIn(s, f, Locked) then Some(SetState(s, f, WatchdogArmed)) else None
    case PutDeny => Some(s.(denies := s.denies + {(f.target, f.faultId)}))
    case SetApplied => if HoldsIn(s, f, WatchdogArmed) then Some(SetState(s, f, DenyApplied)) else None
    case DeleteDeny => Some(s.(denies := s.denies - {(f.target, f.faultId)}))
    case SetRemoved => if Holds(s, f) then Some(SetState(s, f, DenyRemoved)) else None
    case DeleteSchedule =>
      if f.faultId in s.schedules then Some(s.(schedules := s.schedules - {f.faultId})) else None
    case SetDisarmed => if HoldsIn(s, f, DenyRemoved) then Some(SetState(s, f, WatchdogDisarmed)) else None
    case SealEvidence =>
      if f.faultId !in s.evidence && HoldsIn(s, f, WatchdogDisarmed)
      then Some(s.(locks := s.locks - {f.target}, evidence := s.evidence[f.faultId := Evidence(f, CompletedByWorkflow)]))
      else None
    case CleanLock =>
      if f.faultId !in s.evidence && Holds(s, f)
      then Some(s.(locks := s.locks - {f.target}, evidence := s.evidence[f.faultId := Evidence(f, WatchdogCleaned)]))
      else None
  }

  // ----- Operations -----

  datatype Operation =
    | Acquire
    | ReleaseUnarmedLock
    | ArmWatchdog
    | ApplyDeny
    | RemoveDeny
    | DisarmWatchdog
    | SealFault

  /** The provider calls of one controller operation, in order. */
  function Script(op: Operation, f: Authority, now: nat): seq<Write> {
    match op
    case Acquire => [PutLock]
    case ReleaseUnarmedLock => [DeleteUnarmedLock]
    case ArmWatchdog => [CreateSchedule(CleanupTime(f, now)), SetArmed]
    case ApplyDeny => [PutDeny, SetApplied]
    case RemoveDeny => [DeleteDeny, SetRemoved]
    case DisarmWatchdog => [DeleteSchedule, SetDisarmed]
    case SealFault => [SealEvidence]
  }

  predicate NoOtherDeny(s: Stores, f: Authority) {
    forall d :: d in s.denies && d.0 == f.target ==> d.1 == f.faultId
  }

  /** What an operation checks before its first call. */
  predicate MayStart(s: Stores, op: Operation, f: Authority, now: nat) {
    ParsesAt(f, now) && (op == ApplyDeny ==> HoldsIn(s, f, WatchdogArmed) && NoOtherDeny(s, f))
  }

  /** The first `writes` calls of a script, stopping at one that raises; and whether all of it ran. */
  function RunScript(s: Stores, script: seq<Write>, f: Authority, writes: nat): (Stores, bool)
    decreases writes
  {
    if |script| == 0 then (s, true)
    else if writes == 0 then (s, false)
    else match Apply(s, script[0], f)
      case None => (s, false)
      case Some(s') => RunScript(s', script[1..], f, writes - 1)
  }

  /** The stores after `w` when its condition holds, and unchanged when it does not. */
  function After(s: Stores, w: Write, f: Authority): Stores {
    if Apply(s, w, f).Some? then Apply(s, w, f).value else s
  }

  lemma RunOne(s: Stores, a: Write, f: Authority, writes: nat)
    ensures RunScript(s, [a], f, writes) == if writes == 0 then (s, false) else (After(s, a, f), Apply(s, a, f).Some?)
  {
    assert [a][1..] == [];
  }

  lemma RunTwo(s: Stores, a: Write, b: Write, f: Authority, writes: nat)
    ensures RunScript(s, [a, b], f, writes) ==
              if writes == 0 then (s, false)
              else if writes == 1 || Apply(s, a, f).None? then (After(s, a, f), false)
              else (After(After(s, a, f), b, f), Apply(After(s, a, f), b, f).Some?)
  {
    hide Apply;
    assert [a, b][1..] == [b];
    if writes > 0 && Apply(s, a, f).Some? { RunOne(After(s, a, f), b, f, writes - 1); }
  }

  const CleanupScript: seq<Write> := [DeleteDeny, CleanLock]

  /** The watchdog acts only under its own fault's lock, and not once that is disarmed. */
  predicate MayClean(s: Stores, f: Authority) {
    Holds(s, f) && s.locks[f.target].state != WatchdogDisarmed
  }

  // ----- The two Lambdas -----

  class Account {
    var stores: Stores
    /** Whether a process has been lost. */
    ghost var gone: bool

    constructor ()
      ensures stores == Nothing && !gone
    {
      stores, gone := Nothing, false;
    }

    /** One provider call. The process may be lost before it (`lost`), and conditions may fail. */
    method Call(w: Write, f: Authority) returns (done: bool, lost: bool)
      modifies this
      ensures lost ==> stores == old(stores) && !done
      ensures gone == (old(gone) || lost)
      ensures !lost ==> done == Apply(old(stores), w, f).Some?
      ensures stores == if done then Apply(old(stores), w, f).value else old(stores)
    {
      lost := *;
      gone := gone || lost;
      done := false;
      if !lost {
        var next := Apply(stores, w, f);
        if next.Some? {
          stores := next.value;
          done := true;
        }
      }
    }

    /**
     One idempotent workflow step. It leaves exactly the effect of some number of its calls,
     and returns normally only when all of them ran or the same fault had already completed it.
     */
    method Execute(op: Operation, f: Authority, now: nat) returns (ok: bool, ghost writes: nat)
      modifies this
      ensures !MayStart(old(stores), op, f, now) ==> !ok && stores == old(stores)
      ensures MayStart(old(stores), op, f, now) ==>
                stores == RunScript(old(stores), Script(op, f, now), f, writes).0
      ensures MayStart(old(stores), op, f, now) && !gone ==>
                && stores == RunScript(old(stores), Script(op, f, now), f, 2).0
                && (ok <==>
                      || RunScript(old(stores), Script(op, f, now), f, 2).1
                      || (op == Acquire && f.target in old(stores).locks && old(stores).locks[f.target] == Lock(f, Locked))
                      || (op == SealFault && f.faultId in old(stores).evidence
                          && old(stores).evidence[f.faultId] == Evidence(f, CompletedByWorkflow)))
      ensures ok && op != Acquire && op != SealFault ==> RunScript(old(stores), Script(op, f, now), f, writes).1
      ensures ok && op == Acquire ==> HoldsIn(stores, f, Locked)
      ensures ok && op == SealFault ==>
                f.faultId in stores.evidence && stores.evidence[f.faultId] == Evidence(f, CompletedByWorkflow)
    {
      writes := 0;
      if !ParsesAt(f, now) {
        return false, 0;
      }
      var done, lost;
      match op
      case Acquire =>
        RunOne(stores, PutLock, f, 1);
        RunOne(stores, PutLock, f, 2);
        done, lost := Call(PutLock, f);
        if lost { return false, 0; }
        // A lost response followed by a retry finds its own lock.
        ok := done || HoldsIn(stores, f, Locked);
        return ok, 1;
      case ReleaseUnarmedLock =>
        RunOne(stores, DeleteUnarmedLock, f, 1);
        RunOne(stores, DeleteUnarmedLock, f, 2);
        done, lost := Call(DeleteUnarmedLock, f);
        return done, if lost then 0 else 1;
      case ArmWatchdog =>
        ok, writes := CallTwo(CreateSchedule(CleanupTime(f, now)), SetArmed, f);
      case ApplyDeny =>
        if !HoldsIn(stores, f, WatchdogArmed) || !NoOtherDeny(stores, f) {
          return false, 0;
        }
        ok, writes := CallTwo(PutDeny, SetApplied, f);
      case RemoveDeny =>
        ok, writes := CallTwo(DeleteDeny, SetRemoved, f);
      case DisarmWatchdog =>
        ok, writes := CallTwo(DeleteSchedule, SetDisarmed, f);
      case SealFault =>
        RunOne(stores, SealEvidence, f, 1);
        RunOne(stores, SealEvidence, f, 2);
        done, lost := Call(SealEvidence, f);
        if lost { return false, 0; }
        ok := done || (f.faultId in stores.evidence && stores.evidence[f.faultId] == Evidence(f, CompletedByWorkflow));
        return ok, 1;
    }

    /** Two calls in order; the second only after the first succeeded. */
    method CallTwo(a: Write, b: Write, f: Authority) returns (ok: bool, ghost writes: nat)
      modifies this
      ensures (stores, ok) == RunScript(old(stores), [a, b], f, writes)
      ensures !gone ==> (stores, ok) == RunScript(old(stores), [a, b], f, 2)
    {
      hide Apply;
      RunTwo(stores, a, b, f, 1);
      RunTwo(stores, a, b, f, 2);
      var done, lost := Call(a, f);
      if !done {
        return false, if lost then 0 else 1;
      }
      done, lost := Call(b, f);
      return done, if lost then 1 else 2;
    }

    /**
     Delete one exact deny under a matching lock, then record the cleanup and drop the lock. A
     process that survives consumes a fault standing under its own lock in any state but disarmed;
     under any other lock, or none, nothing is written.
     */
    method Cleanup(f: Authority) returns (ok: bool, ghost writes: nat)
      modifies this
      ensures !gone && f.target in old(stores).locks && old(stores).locks[f.target].authority == f
              && old(stores).locks[f.target].state in {Locked, WatchdogArmed, DenyApplied, DenyRemoved}
              && f.faultId !in old(stores).evidence ==>
                && ok
                && stores == Stores(old(stores).locks - {f.target},
                                    old(stores).evidence[f.faultId := Evidence(f, WatchdogCleaned)],
                                    old(stores).denies - {(f.target, f.faultId)},
                                    old(stores).schedules)
      ensures f.target in old(stores).locks
              && (old(stores).locks[f.target].authority != f || old(stores).locks[f.target].state == WatchdogDisarmed) ==>
                !ok && stores == old(stores)
      ensures !MayClean(old(stores), f) ==>
                stores == old(stores)
                && (ok <==> f.target !in stores.locks && f.faultId in stores.evidence
                            && stores.evidence[f.faultId] == Evidence(f, WatchdogCleaned))
      ensures MayClean(old(stores), f) ==> (stores, ok) == RunScript(old(stores), CleanupScript, f, writes)
      ensures MayClean(old(stores), f) && !gone ==> (stores, ok) == RunScript(old(stores), CleanupScript, f, 2)
    {
      writes := 0;
      if f.target !in stores.locks {
        ok := f.faultId in stores.evidence && stores.evidence[f.faultId] == Evidence(f, WatchdogCleaned);
        return ok, 0;
      }
      var lock := stores.locks[f.target];
      if lock.authority != f || lock.state == WatchdogDisarmed {
        return false, 0;
      }
      ok, writes := CallTwo(DeleteDeny, CleanLock, f);
    }
  }
}
