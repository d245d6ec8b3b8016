/**
 One Region's execution paths and the two loops that close and reopen them. A provider
 call may fail before or after it takes effect; the loops carry on past failures.
 */
module Runtime {
  import opened Base

  datatype Resource = Function(name: string) | Mapping(uuid: string) | Rule(ruleName: string)

  /** A Lambda's reserved concurrency (None: no reservation), or an enabled flag. */
  datatype Setting = Reserved(limit: Option<nat>) | Switch(on: bool)

  type Cell = map<Resource, Setting>

  function FencedSetting(r: Resource): Setting {
    if r.Function? then Reserved(Some(0)) else Switch(false)
  }

  /** Whether work can still start through this resource. */
  predicate Runs(s: Setting) {
    match s
    case Reserved(limit) => limit != Some(0)
    case Switch(on) => on
  }

  predicate Fenced(cell: Cell) {
    forall r :: r in cell ==> cell[r] == FencedSetting(r)
  }

  // ----- Restore plans -----

  /** One template property: absent, a literal of either kind, or anything else. */
  datatype Property = Absent | Number(value: int) | Flag(on: bool) | Text(text: string) | Malformed

  datatype Restore = Restore(resource: Resource, setting: Setting)

  datatype Plan = Plan(functions: seq<Restore>, mappings: seq<Restore>, rules: seq<Restore>) {
    function All(): seq<Restore> { functions + mappings + rules }

    /** Rules, then mappings, then functions: the order in which a fence closes them. */
    function FenceOrder(): seq<Resource> { Names(rules) + Names(mappings) + Names(functions) }
  }

  function Names(restores: seq<Restore>): seq<Resource> {
    seq(|restores|, i requires 0 <= i < |restores| => restores[i].resource)
  }

  /** The setting a processed template asks for, or a refusal when it is not a safe literal. */
  function PlannedSetting(r: Resource, p: Property): Result<Setting> {
    match r
    case Function(_) =>
      (match p
       case Absent => Ok(Reserved(None))
       case Number(n) => if 1 <= n <= 1000 then Ok(Reserved(Some(n))) else Refused
       case _ => Refused)
    case Mapping(_) =>
      (match p
       case Absent => Ok(Switch(true))
       case Flag(on) => Ok(Switch(on))
       case _ => Refused)
    case Rule(_) =>
      (match p
       case Absent => Ok(Switch(true))
       case Text(text) =>
         if text == "ENABLED" then Ok(Switch(true)) else if text == "DISABLED" then Ok(Switch(false)) else Refused
       case _ => Refused)
  }

  /**
   A planned path runs unless its template switches it off in so many words, and a planned Lambda
   always does: no reservation, or between one and a thousand executions.
   */
  lemma PlannedPathRuns(r: Resource, p: Property, s: Setting)
    requires PlannedSetting(r, p) == Ok(s)
    ensures Runs(s) <==> p != Flag(false) && p != Text("DISABLED")
    ensures r.Function? ==> Runs(s) && match s { case Reserved(limit) => limit.Some? ==> p == Number(limit.value) && 1 <= limit.value <= 1000 case _ => false }
    ensures !r.Function? ==> s == Switch(Runs(s))
  {
    if r.Rule? { assert "ENABLED" != "DISABLED"; }
  }

  predicate Satisfies(cell: Cell, plan: Plan) {
    forall e :: e in plan.All() ==> e.resource in cell && cell[e.resource] == e.setting
  }

  predicate AllFenced(cell: Cell, resources: seq<Resource>) {
    forall r :: r in resources ==> r in cell && cell[r] == FencedSetting(r)
  }

  /** No accepted plan is satisfied by a fenced Lambda, so a fence is never mistaken for a restore. */
  lemma FencedFunctionFailsEveryPlan(cell: Cell, plan: Plan, e: Restore, p: Property)
    requires e in plan.All() && e.resource.Function?
    requires PlannedSetting(e.resource, p) == Ok(e.setting)
    requires AllFenced(cell, plan.FenceOrder())
    ensures !Satisfies(cell, plan)
  {
    var i :| 0 <= i < |plan.All()| && plan.All()[i] == e;
    assert e.resource in plan.FenceOrder() by { NamesCover(plan, e); }
  }

  lemma NamesCover(plan: Plan, e: Restore)
    requires e in plan.All()
    ensures e.resource in plan.FenceOrder()
  {
    if e in plan.functions {
      var i :| 0 <= i < |plan.functions| && plan.functions[i] == e;
      assert Names(plan.functions)[i] == e.resource;
    } else if e in plan.mappings {
      var i :| 0 <= i < |plan.mappings| && plan.mappings[i] == e;
      assert Names(plan.mappings)[i] == e.resource;
    } else {
      var i :| 0 <= i < |plan.rules| && plan.rules[i] == e;
      assert Names(plan.rules)[i] == e.resource;
    }
  }

  lemma NamesOnly(plan: Plan, r: Resource)
    requires r in plan.FenceOrder()
    ensures exists e :: e in plan.All() && e.resource == r
  {
    var n, m := |plan.rules|, |plan.mappings|;
    var i :| 0 <= i < |plan.FenceOrder()| && plan.FenceOrder()[i] == r;
    var e := if i < n then plan.rules[i] else if i < n + m then plan.mappings[i - n] else plan.functions[i - n - m];
    assert e in plan.All() && e.resource == r;
  }

  // ----- Attempts -----

  /** What one attempt may leave: every key as before, planned keys either old or written. */
  predicate Attempted(before: Cell, after: Cell, target: seq<Restore>) {
    && after.Keys == before.Keys
    && forall r :: r in before ==> after[r] == before[r] || Restore(r, after[r]) in target
  }

  predicate Attempts(states: seq<Cell>, target: seq<Restore>) {
    && |states| > 0
    && forall i :: 0 <= i < |states| - 1 ==> Attempted(states[i], states[i + 1], target)
  }

  function FenceTarget(resources: seq<Resource>): seq<Restore> {
    seq(|resources|, i requires 0 <= i < |resources| => Restore(resources[i], FencedSetting(resources[i])))
  }

  lemma {:induction false} AttemptsLeaveTheRest(states: seq<Cell>, target: seq<Restore>, r: Resource)
    requires Attempts(states, target)
    requires forall e :: e in target ==> e.resource != r
    ensures states[|states| - 1].Keys == states[0].Keys
    ensures r in states[0] ==> states[|states| - 1][r] == states[0][r]
  {
    if |states| > 1 {
      var init := states[..|states| - 1];
      AttemptsLeaveTheRest(init, target, r);
      assert Attempted(states[|states| - 2], states[|states| - 1], target);
    }
  }

  lemma {:induction false} AttemptsKeepKeys(states: seq<Cell>, target: seq<Restore>)
    requires Attempts(states, target)
    ensures states[|states| - 1].Keys == states[0].Keys
  {
    if |states| > 1 {
      AttemptsKeepKeys(states[..|states| - 1], target);
      assert Attempted(states[|states| - 2], states[|states| - 1], target);
    }
  }

  /**
   Round trip: from a runtime that satisfies its plan, any number of partial fence attempts
   followed by any number of partial restore attempts, the last of them verified, gives back
   the very same runtime, unplanned resources included.
   */
  lemma FenceThenRestoreIsIdentity(plan: Plan, fencing: seq<Cell>, restoring: seq<Cell>)
    requires Attempts(fencing, FenceTarget(plan.FenceOrder())) && Attempts(restoring, plan.All())
    requires restoring[0] == fencing[|fencing| - 1]
    requires Satisfies(fencing[0], plan) && Satisfies(restoring[|restoring| - 1], plan)
    ensures restoring[|restoring| - 1] == fencing[0]
  {
    var first, last := fencing[0], restoring[|restoring| - 1];
    AttemptsKeepKeys(fencing, FenceTarget(plan.FenceOrder()));
    AttemptsKeepKeys(restoring, plan.All());
    forall r | r in first
      ensures last[r] == first[r]
    {
      if e :| e in plan.All() && e.resource == r {
      } else {
        forall e | e in FenceTarget(plan.FenceOrder())
          ensures e.resource != r
        {
          assert e.resource in plan.FenceOrder();
          NamesOnly(plan, e.resource);
        }
        AttemptsLeaveTheRest(fencing, FenceTarget(plan.FenceOrder()), r);
        AttemptsLeaveTheRest(restoring, plan.All(), r);
      }
    }
  }

  // ----- The provider and the loops -----

  /** Entries for resources that the cell does not have. */
  function Missing(target: seq<Restore>, cell: Cell): nat {
    if |target| == 0 then 0
    else Missing(target[..|target| - 1], cell) + if target[|target| - 1].resource in cell then 0 else 1
  }

  /** Entries that share a resource ask for the same setting. */
  predicate Agrees(target: seq<Restore>) {
    forall e, f :: e in target && f in target && e.resource == f.resource ==> e.setting == f.setting
  }

  lemma {:induction false} NoneMissing(target: seq<Restore>, cell: Cell)
    ensures Missing(target, cell) == 0 <==> forall e :: e in target ==> e.resource in cell
  {
    if |target| > 0 {
      var n := |target| - 1;
      NoneMissing(target[..n], cell);
      assert target == target[..n] + [target[n]];
    }
  }

  lemma {:induction false} MissingSplits(a: seq<Restore>, b: seq<Restore>, cell: Cell)
    ensures Missing(a + b, cell) == Missing(a, cell) + Missing(b, cell)
  {
    if |b| == 0 {
      assert a + b == a;
    } else {
      assert (a + b)[..|a + b| - 1] == a + b[..|b| - 1];
      MissingSplits(a, b[..|b| - 1], cell);
    }
  }

  lemma {:induction false} MissingByKeys(target: seq<Restore>, a: Cell, b: Cell)
    requires a.Keys == b.Keys
    ensures Missing(target, a) == Missing(target, b)
  {
    if |target| > 0 {
      assert target[|target| - 1].resource in a <==> target[|target| - 1].resource in b;
      MissingByKeys(target[..|target| - 1], a, b);
    }
  }

  class Provider {
    var cell: Cell
    /** How many calls for an existing resource have failed so far. */
    ghost var faults: nat

    constructor (cell: Cell)
      ensures this.cell == cell && faults == 0
    {
      this.cell, this.faults := cell, 0;
    }

    /** One AWS call: a reported success took effect, a reported failure may or may not have. */
    method Put(r: Resource, s: Setting) returns (reported: bool)
      modifies this
      ensures cell == old(cell) || (r in old(cell) && cell == old(cell)[r := s])
      ensures reported ==> r in cell && cell[r] == s
      ensures faults == old(faults) + if reported || r !in old(cell) then 0 else 1
    {
      var exists_, applied := r in cell, *;
      if exists_ && applied {
        cell := cell[r := s];
        reported := *;
      } else {
        reported := false;
      }
      faults := faults + if reported || !exists_ then 0 else 1;
    }

    /** Independently prove every listed execution path disabled. */
    method VerifySourceFence(resources: seq<Resource>) returns (ok: bool)
      ensures ok <==> AllFenced(cell, resources)
    {
      for i := 0 to |resources|
        invariant forall j :: 0 <= j < i ==> resources[j] in cell && cell[resources[j]] == FencedSetting(resources[j])
      {
        if resources[i] !in cell || cell[resources[i]] != FencedSetting(resources[i]) {
          return false;
        }
      }
      return true;
    }

    /** Prove every execution path matches its reviewed active setting. */
    method VerifySourceReactivation(plan: Plan) returns (ok: bool)
      ensures ok <==> Satisfies(cell, plan)
    {
      var all := plan.All();
      for i := 0 to |all|
        invariant forall j :: 0 <= j < i ==> all[j].resource in cell && cell[all[j].resource] == all[j].setting
      {
        if all[i].resource !in cell || cell[all[i].resource] != all[i].setting {
          assert all[i] in plan.All();
          return false;
        }
      }
      return true;
    }

    /** Write every entry, collecting the resources whose call failed: one failure for each fault or missing resource. */
    method PutAll(target: seq<Restore>) returns (failures: seq<Resource>)
      modifies this
      ensures Attempted(old(cell), cell, target)
      ensures forall e :: e in target && e.resource !in failures ==>
                e.resource in cell && Restore(e.resource, cell[e.resource]) in target
      ensures forall r :: r in failures ==> exists e :: e in target && e.resource == r
      ensures |failures| == faults - old(faults) + Missing(target, old(cell))
    {
      failures := [];
      for i := 0 to |target|
        invariant Attempted(old(cell), cell, target)
        invariant forall j :: 0 <= j < i && target[j].resource !in failures ==>
                    target[j].resource in cell && Restore(target[j].resource, cell[target[j].resource]) in target
        invariant forall r :: r in failures ==> exists e :: e in target && e.resource == r
        invariant |failures| == faults - old(faults) + Missing(target[..i], old(cell))
      {
        var e := target[i];
        assert e in target && target[..i + 1][..i] == target[..i] && (e.resource in cell <==> e.resource in old(cell));
        var reported := Put(e.resource, e.setting);
        if !reported {
          failures := failures + [e.resource];
        }
      }
      assert target[..|target|] == target;
    }

    /**
     Disable schedules and event sources, then throttle every Lambda to zero. Every path whose own
     call went through is closed even when others failed; without faults it succeeds exactly when
     every listed resource exists.
     */
    method FenceSource(resources: seq<Resource>) returns (ok: bool, failures: seq<Resource>)
      modifies this
      ensures Attempted(old(cell), cell, FenceTarget(resources))
      ensures forall r :: r in resources && r !in failures ==> r in cell && cell[r] == FencedSetting(r)
      ensures ok <==> AllFenced(cell, resources) && failures == []
      ensures |failures| == faults - old(faults) + Missing(FenceTarget(resources), old(cell))
      ensures faults == old(faults) ==> (ok <==> forall r :: r in resources ==> r in old(cell))
    {
      var target := FenceTarget(resources);
      failures := PutAll(target);
      NoneMissing(target, old(cell));
      forall r | r in resources
        ensures exists e :: e in target && e.resource == r
      {
        var i :| 0 <= i < |resources| && resources[i] == r;
        assert target[i] in target && target[i].resource == r;
      }
      forall r | r in resources && r !in failures
        ensures r in cell && cell[r] == FencedSetting(r)
      {
        var i :| 0 <= i < |resources| && resources[i] == r;
        assert target[i] in target && target[i].resource == r;
        var j :| 0 <= j < |target| && target[j] == Restore(r, cell[r]);
      }
      if failures != [] {
        return false, failures;
      }
      ok := VerifySourceFence(resources);
    }

    /**
     Restore capacity, then mappings, then rules, and verify the whole plan. Without faults it
     succeeds whenever the plan names existing resources and does not contradict itself.
     */
    method ReactivateSource(plan: Plan) returns (ok: bool, failures: seq<Resource>)
      modifies this
      ensures Attempted(old(cell), cell, plan.All())
      ensures ok <==> Satisfies(cell, plan) && failures == []
      ensures |failures| == faults - old(faults) + Missing(plan.All(), old(cell))
      ensures faults == old(faults) && Agrees(plan.All()) ==> (ok <==> forall e :: e in plan.All() ==> e.resource in old(cell))
    {
      var f := PutAll(plan.functions);
      ghost var afterFunctions := cell;
      Widen(old(cell), cell, plan.functions, plan.All());
      var m := PutAll(plan.mappings);
      ghost var afterMappings := cell;
      Widen(afterFunctions, cell, plan.mappings, plan.All());
      var u := PutAll(plan.rules);
      Widen(afterMappings, cell, plan.rules, plan.All());
      failures := f + m + u;
      MissingByKeys(plan.mappings, old(cell), afterFunctions);
      MissingByKeys(plan.rules, old(cell), afterMappings);
      MissingSplits(plan.functions + plan.mappings, plan.rules, old(cell));
      MissingSplits(plan.functions, plan.mappings, old(cell));
      NoneMissing(plan.All(), old(cell));
      if failures != [] {
        return false, failures;
      }
      if Agrees(plan.All()) { RestoredSatisfies(afterFunctions, afterMappings, cell, plan); }
      ok := VerifySourceReactivation(plan);
    }
  }

  /** What three rounds of writes leave, when none of them failed. */
  lemma RestoredSatisfies(first: Cell, second: Cell, last: Cell, plan: Plan)
    requires Agrees(plan.All())
    requires Attempted(first, second, plan.All()) && Attempted(second, last, plan.All())
    requires forall e :: e in plan.functions ==> e.resource in first && Restore(e.resource, first[e.resource]) in plan.functions
    requires forall e :: e in plan.mappings ==> e.resource in second && Restore(e.resource, second[e.resource]) in plan.mappings
    requires forall e :: e in plan.rules ==> e.resource in last && Restore(e.resource, last[e.resource]) in plan.rules
    ensures Satisfies(last, plan)
  {
    forall e | e in plan.All()
      ensures e.resource in last && last[e.resource] == e.setting
    {
      var r := e.resource;
      assert e in plan.functions || e in plan.mappings || e in plan.rules;
      if e in plan.functions {
        assert Restore(r, first[r]) in plan.All();
      } else if e in plan.mappings {
        assert Restore(r, second[r]) in plan.All();
      } else {
        assert Restore(r, last[r]) in plan.All();
      }
    }
  }

  lemma Widen(before: Cell, after: Cell, target: seq<Restore>, wider: seq<Restore>)
    requires Attempted(before, after, target) && forall e :: e in target ==> e in wider
    ensures Attempted(before, after, wider)
  {
  }
}
