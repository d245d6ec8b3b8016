/**
 The load exercise: nearest-rank percentiles over the measured fleet decide acceptance.
 Latencies are reals and the two rates are exact hundredths.
 */
module LoadGate {
  import opened Base

  /** A reported latency; anything that is not a finite number is Unusable. */
  datatype Reading = Unusable | Millis(ms: real)

  datatype Observation = Observation(agentId: string, heartbeat: Reading, policy: Reading, decision: Reading, succeeded: bool)

  datatype Report = Report(agents: nat, heartbeat: real, policy: real, decision: real, failures: nat)

  // ----- Counting and sorting -----

  function CountAbove(values: seq<real>, limit: real): nat {
    if |values| == 0 then 0 else (if values[0] > limit then 1 else 0) + CountAbove(values[1..], limit)
  }

  predicate Ascending(values: seq<real>) {
    forall i, j :: 0 <= i < j < |values| ==> values[i] <= values[j]
  }

  function Insert(x: real, values: seq<real>): (r: seq<real>)
    requires Ascending(values)
    ensures Ascending(r) && multiset(r) == multiset(values) + multiset{x}
    ensures |r| == |values| + 1
  {
    if |values| == 0 || x <= values[0] then [x] + values
    else
      var tail := Insert(x, values[1..]);
      InsertedAbove(x, values, tail);
      [values[0]] + tail
  }

  lemma InsertedAbove(x: real, values: seq<real>, tail: seq<real>)
    requires |values| > 0 && Ascending(values) && values[0] < x
    requires Ascending(tail) && multiset(tail) == multiset(values[1..]) + multiset{x}
    ensures Ascending([values[0]] + tail)
    ensures multiset([values[0]] + tail) == multiset(values) + multiset{x}
  {
    assert values == [values[0]] + values[1..];
    forall i | 0 <= i < |tail|
      ensures values[0] <= tail[i]
    {
      assert tail[i] in multiset(tail);
    }
  }

  function Sorted(values: seq<real>): (r: seq<real>)
    ensures Ascending(r) && multiset(r) == multiset(values) && |r| == |values|
  {
    if |values| == 0 then []
    else
      assert values == [values[0]] + values[1..];
      Insert(values[0], Sorted(values[1..]))
  }

  /** The nearest rank of the 99th percentile, as an index into the sorted population. */
  function Rank99(n: nat): int {
    var ceiling := (99 * n + 99) / 100;
    if ceiling - 1 < 0 then 0 else ceiling - 1
  }

  function P99(values: seq<real>): Result<real> {
    if |values| == 0 then Refused else Ok(Sorted(values)[Rank99(|values|)])
  }

  lemma {:induction false} CountSplits(a: seq<real>, b: seq<real>, limit: real)
    ensures CountAbove(a + b, limit) == CountAbove(a, limit) + CountAbove(b, limit)
  {
    if |a| == 0 {
      assert a + b == b;
    } else {
      assert (a + b)[1..] == a[1..] + b;
      CountSplits(a[1..], b, limit);
    }
  }

  lemma {:induction false} CountExtremes(values: seq<real>, limit: real)
    ensures CountAbove(values, limit) <= |values|
    ensures (forall i :: 0 <= i < |values| ==> values[i] > limit) ==> CountAbove(values, limit) == |values|
    ensures (forall i :: 0 <= i < |values| ==> values[i] <= limit) ==> CountAbove(values, limit) == 0
  {
    if |values| > 0 { CountExtremes(values[1..], limit); }
  }

  /** Counting ignores order. */
  lemma {:induction false} CountIgnoresOrder(a: seq<real>, b: seq<real>, limit: real)
    requires multiset(a) == multiset(b)
    ensures CountAbove(a, limit) == CountAbove(b, limit)
    decreases |a|
  {
    if |a| == 0 {
      assert |multiset(b)| == 0;
    } else {
      var x := a[0];
      assert x in multiset(b) by { assert x in multiset(a); }
      var i :| 0 <= i < |b| && b[i] == x;
      var before, after := b[..i], b[i + 1..];
      RemoveOne(a, b, i);
      CountIgnoresOrder(a[1..], before + after, limit);
      assert a == [x] + a[1..] && b == before + [x] + after;
      CountSplits(before, after, limit);
      CountSplits(before + [x], after, limit);
      CountSplits(before, [x], limit);
      CountSplits([x], a[1..], limit);
    }
  }

  lemma RemoveOne(a: seq<real>, b: seq<real>, i: nat)
    requires multiset(a) == multiset(b) && |a| > 0 && i < |b| && b[i] == a[0]
    ensures multiset(a[1..]) == multiset(b[..i] + b[i + 1..])
  {
    assert a == [a[0]] + a[1..];
    assert b == b[..i] + [a[0]] + b[i + 1..];
    assert multiset(a) - multiset{a[0]} == multiset(a[1..]);
    assert multiset(b) - multiset{a[0]} == multiset(b[..i] + b[i + 1..]);
  }

  /** In an ascending list the value at `i` stays below a limit exactly when few enough exceed it. */
  lemma AscendingCut(values: seq<real>, i: nat, limit: real)
    requires Ascending(values) && i < |values|
    ensures values[i] <= limit <==> CountAbove(values, limit) <= |values| - 1 - i
  {
    hide CountAbove;
    if values[i] <= limit {
      CutBelow(values, i, limit);
    } else {
      CutAbove(values, i, limit);
    }
  }

  lemma CutBelow(values: seq<real>, i: nat, limit: real)
    requires Ascending(values) && i < |values| && values[i] <= limit
    ensures CountAbove(values, limit) <= |values| - 1 - i
  {
    hide CountAbove;
    var low, rest := values[..i + 1], values[i + 1..];
    assert values == low + rest;
    CountSplits(low, rest, limit);
    CountExtremes(low, limit);
    CountExtremes(rest, limit);
  }

  lemma CutAbove(values: seq<real>, i: nat, limit: real)
    requires Ascending(values) && i < |values| && values[i] > limit
    ensures CountAbove(values, limit) >= |values| - i
  {
    hide CountAbove;
    var rest, high := values[..i], values[i..];
    assert values == rest + high;
    CountSplits(rest, high, limit);
    CountExtremes(high, limit);
  }

  /** The percentile meets a limit exactly when at most one in a hundred values exceeds it. */
  lemma PercentileCountsExceptions(values: seq<real>, limit: real)
    requires |values| > 0
    ensures P99(values).Ok?
    ensures P99(values).value <= limit <==> CountAbove(values, limit) <= |values| / 100
  {
    var n := |values|;
    assert n - 1 - Rank99(n) == n / 100;
    AscendingCut(Sorted(values), Rank99(n), limit);
    CountIgnoresOrder(Sorted(values), values, limit);
  }

  /** The percentile is one of the measurements and does not depend on the order they arrived in. */
  lemma PercentileIgnoresOrder(a: seq<real>, b: seq<real>)
    requires multiset(a) == multiset(b) && |a| > 0
    ensures P99(a) == P99(b) && P99(a).Ok? && P99(a).value in a
  {
    hide *;
    assert |multiset(a)| == |a| && |multiset(b)| == |b|;
    PercentileIsMeasured(a);
    PercentileIsMeasured(b);
    var p, q := P99(a).value, P99(b).value;
    PercentileCountsExceptions(a, p);
    PercentileCountsExceptions(b, p);
    PercentileCountsExceptions(a, q);
    PercentileCountsExceptions(b, q);
    CountIgnoresOrder(a, b, p);
    CountIgnoresOrder(a, b, q);
  }

  lemma PercentileIsMeasured(values: seq<real>)
    requires |values| > 0
    ensures P99(values).Ok? && P99(values).value in values
  {
    assert P99(values).value in multiset(Sorted(values));
  }

  // ----- The exercise -----

  /** Finite, non-negative and at most one minute. */
  predicate Usable(r: Reading) { r.Millis? && 0.0 <= r.ms <= 60000.0 }

  predicate UsableObservation(o: Observation) {
    && 1 <= |o.agentId| <= 128
    && Usable(o.heartbeat) && Usable(o.policy) && Usable(o.decision)
  }

  predicate DistinctAgents(observations: seq<Observation>) {
    forall i, j :: 0 <= i < j < |observations| ==> observations[i].agentId != observations[j].agentId
  }

  datatype Metric = Heartbeat | PolicyRead | DecisionWrite

  function Latency(o: Observation, m: Metric): Reading {
    match m
    case Heartbeat => o.heartbeat
    case PolicyRead => o.policy
    case DecisionWrite => o.decision
  }

  predicate AllUsable(observations: seq<Observation>) {
    forall i :: 0 <= i < |observations| ==> UsableObservation(observations[i])
  }

  function Column(observations: seq<Observation>, m: Metric): seq<real>
    requires AllUsable(observations)
  {
    seq(|observations|, i requires 0 <= i < |observations| && UsableObservation(observations[i]) =>
      Latency(observations[i], m).ms)
  }

  function Failures(observations: seq<Observation>): nat {
    if |observations| == 0 then 0
    else Failures(observations[..|observations| - 1]) + (if observations[|observations| - 1].succeeded then 0 else 1)
  }

  /** The failure count is the number of observations that did not succeed. */
  lemma {:induction false} FailuresAreCounted(observations: seq<Observation>)
    ensures Failures(observations) == |set i | 0 <= i < |observations| && !observations[i].succeeded|
  {
    var n := |observations| - 1;
    var failed := set i | 0 <= i < |observations| && !observations[i].succeeded;
    if n >= 0 {
      FailuresAreCounted(observations[..n]);
      var before := set i | 0 <= i < |observations[..n]| && !observations[..n][i].succeeded;
      assert failed == before + if observations[n].succeeded then {} else {n};
    }
  }

  /** A limit is exceeded by as many values as there are places where it is. */
  lemma {:induction false} ExcessIsCounted(values: seq<real>, limit: real)
    ensures CountAbove(values, limit) == |set i | 0 <= i < |values| && values[i] > limit|
  {
    var n := |values| - 1;
    var above := set i | 0 <= i < |values| && values[i] > limit;
    if n >= 0 {
      ExcessIsCounted(values[..n], limit);
      assert values == values[..n] + [values[n]];
      CountSplits(values[..n], [values[n]], limit);
      var before := set i | 0 <= i < |values[..n]| && values[..n][i] > limit;
      assert above == before + if values[n] > limit then {n} else {};
    }
  }

  /** Each metric reads its own latency of every observation, in place. */
  lemma ColumnsAreTheirMetric(observations: seq<Observation>, i: nat)
    requires AllUsable(observations) && i < |observations|
    ensures forall m :: |Column(observations, m)| == |observations|
    ensures observations[i].heartbeat == Millis(Column(observations, Heartbeat)[i])
    ensures observations[i].policy == Millis(Column(observations, PolicyRead)[i])
    ensures observations[i].decision == Millis(Column(observations, DecisionWrite)[i])
  {
    assert UsableObservation(observations[i]);
  }

  /**
   The objectives in plain numbers: of the whole fleet at most one agent in a hundred failed, at most
   one in a hundred was slower than a second on the heartbeat or the policy read, and at most one
   slower than two seconds on the decision write.
   */
  lemma ObjectivesCountAgents(observations: seq<Observation>)
    requires AllUsable(observations)
    ensures WithinObjectives(observations) <==>
              var n := |observations|;
              && 100 * |set i | 0 <= i < n && observations[i].heartbeat.ms > 1000.0| <= n
              && 100 * |set i | 0 <= i < n && observations[i].policy.ms > 1000.0| <= n
              && 100 * |set i | 0 <= i < n && observations[i].decision.ms > 2000.0| <= n
              && 100 * |set i | 0 <= i < n && !observations[i].succeeded| <= n
  {
    hide CountAbove, Failures, Column;
    FailuresAreCounted(observations);
    SlowAgents(observations, Heartbeat, 1000.0);
    SlowAgents(observations, PolicyRead, 1000.0);
    SlowAgents(observations, DecisionWrite, 2000.0);
  }

  lemma SlowAgents(observations: seq<Observation>, m: Metric, limit: real)
    requires AllUsable(observations)
    ensures var n, above := |observations|, CountAbove(Column(observations, m), limit);
            match m
            case Heartbeat => above == |set i | 0 <= i < n && observations[i].heartbeat.ms > limit|
            case PolicyRead => above == |set i | 0 <= i < n && observations[i].policy.ms > limit|
            case DecisionWrite => above == |set i | 0 <= i < n && observations[i].decision.ms > limit|
  {
    hide CountAbove;
    ExcessIsCounted(Column(observations, m), limit);
    var n, slow := |observations|, set i | 0 <= i < |Column(observations, m)| && Column(observations, m)[i] > limit;
    match m
    case Heartbeat => assert slow == set i | 0 <= i < n && observations[i].heartbeat.ms > limit;
    case PolicyRead => assert slow == set i | 0 <= i < n && observations[i].policy.ms > limit;
    case DecisionWrite => assert slow == set i | 0 <= i < n && observations[i].decision.ms > limit;
  }

  function Values(probes: seq<Option<Observation>>): seq<Observation>
    requires forall i :: 0 <= i < |probes| ==> probes[i].Some?
  {
    seq(|probes|, i requires 0 <= i < |probes| && probes[i].Some? => probes[i].value)
  }

  /** Every probe returned one usable observation of a different agent. */
  predicate CompleteFleet(probes: seq<Option<Observation>>, fleet: int) {
    && |probes| == fleet
    && (forall i :: 0 <= i < |probes| ==> probes[i].Some?)
    && AllUsable(Values(probes)) && DistinctAgents(Values(probes))
  }

  /**
   A complete fleet in plain numbers: as many usable results as the fleet has agents, from as many
   different agents, each latency finite, not negative and at most a minute.
   */
  lemma FleetIsCompleteExactlyWhen(probes: seq<Option<Observation>>, fleet: int)
    ensures CompleteFleet(probes, fleet) <==>
              && |probes| == fleet
              && (forall i :: 0 <= i < |probes| ==> probes[i].Some? && 1 <= |probes[i].value.agentId| <= 128)
              && (forall i :: 0 <= i < |probes| ==>
                    forall m :: Latency(probes[i].value, m).Millis? && 0.0 <= Latency(probes[i].value, m).ms <= 60000.0)
              && |set i | 0 <= i < |probes| && probes[i].Some? :: probes[i].value.agentId| == fleet
  {
    if forall i :: 0 <= i < |probes| ==> probes[i].Some? {
      var observations := Values(probes);
      var ids := AgentIds(observations);
      DistinctExactlyWhenCounted(ids);
      assert forall i :: 0 <= i < |probes| ==> ids[i] == observations[i].agentId == probes[i].value.agentId;
      SameImage(probes, ids);
      forall i | 0 <= i < |probes|
        ensures UsableObservation(observations[i]) <==>
                  && 1 <= |probes[i].value.agentId| <= 128
                  && forall m :: Latency(probes[i].value, m).Millis? && 0.0 <= Latency(probes[i].value, m).ms <= 60000.0
      {
        EveryLatencyUsable(observations[i]);
      }
    }
  }

  function AgentIds(observations: seq<Observation>): seq<string> {
    seq(|observations|, i requires 0 <= i < |observations| => observations[i].agentId)
  }

  lemma SameImage(probes: seq<Option<Observation>>, ids: seq<string>)
    requires |ids| == |probes| && forall i :: 0 <= i < |probes| ==> probes[i].Some? && ids[i] == probes[i].value.agentId
    ensures Named(ids) == set i | 0 <= i < |probes| && probes[i].Some? :: probes[i].value.agentId
  {
    var named := set i | 0 <= i < |probes| && probes[i].Some? :: probes[i].value.agentId;
    forall i | 0 <= i < |ids|
      ensures ids[i] in named
    {
      assert probes[i].Some?;
    }
  }

  lemma EveryLatencyUsable(o: Observation)
    ensures Usable(o.heartbeat) && Usable(o.policy) && Usable(o.decision) <==>
              forall m :: Latency(o, m).Millis? && 0.0 <= Latency(o, m).ms <= 60000.0
  {
    if forall m :: Latency(o, m).Millis? && 0.0 <= Latency(o, m).ms <= 60000.0 {
      assert Latency(o, Heartbeat) == o.heartbeat && Latency(o, PolicyRead) == o.policy && Latency(o, DecisionWrite) == o.decision;
    }
  }

  predicate AllDifferent(ids: seq<string>) { forall i, j :: 0 <= i < j < |ids| ==> ids[i] != ids[j] }

  function Named(ids: seq<string>): set<string> { set id | id in ids }

  /** Names are pairwise different exactly when there are as many of them as places. */
  lemma {:induction false} DistinctExactlyWhenCounted(ids: seq<string>)
    ensures AllDifferent(ids) <==> |Named(ids)| == |ids|
    ensures |Named(ids)| <= |ids|
  {
    if |ids| > 0 {
      hide AllDifferent, Named;
      DistinctExactlyWhenCounted(ids[..|ids| - 1]);
      OneMoreDiffers(ids);
      OneMoreNamed(ids);
    } else {
      assert Named(ids) == {};
    }
  }

  lemma OneMoreDiffers(ids: seq<string>)
    requires |ids| > 0
    ensures AllDifferent(ids) <==> AllDifferent(ids[..|ids| - 1]) && ids[|ids| - 1] !in ids[..|ids| - 1]
  {
  }

  lemma OneMoreNamed(ids: seq<string>)
    requires |ids| > 0
    ensures |Named(ids)| == |Named(ids[..|ids| - 1])| + if ids[|ids| - 1] in ids[..|ids| - 1] then 0 else 1
  {
    var n := |ids| - 1;
    assert ids == ids[..n] + [ids[n]];
    assert Named(ids) == Named(ids[..n]) + {ids[n]};
  }

  /** The four counts that decide acceptance. */
  predicate WithinObjectives(observations: seq<Observation>)
    requires AllUsable(observations)
  {
    var allowed := |observations| / 100;
    && CountAbove(Column(observations, Heartbeat), 1000.0) <= allowed
    && CountAbove(Column(observations, PolicyRead), 1000.0) <= allowed
    && CountAbove(Column(observations, DecisionWrite), 2000.0) <= allowed
    && Failures(observations) <= allowed
  }

  /**
   Measure every agent and enforce the objectives. `probes` are the results in the order
   they complete; None is a probe that raised or returned something else.
   */
  method RunLoadExercise(probes: seq<Option<Observation>>, fleet: int, workers: int) returns (r: Result<Report>)
    ensures r.Ok? <==> && 1 <= fleet <= 100_000 && 1 <= workers <= 128
                       && CompleteFleet(probes, fleet)
                       && WithinObjectives(Values(probes))
    ensures r.Ok? ==>
              var observations := Values(probes);
              && r.value.agents == fleet && r.value.failures == Failures(observations)
              && P99(Column(observations, Heartbeat)) == Ok(r.value.heartbeat)
              && P99(Column(observations, PolicyRead)) == Ok(r.value.policy)
              && P99(Column(observations, DecisionWrite)) == Ok(r.value.decision)
  {
    hide P99, CountAbove, Failures, UsableObservation;
    if !(1 <= fleet <= 100_000) || !(1 <= workers <= 128) {
      return Refused;
    }
    var observations: seq<Observation> := [];
    var i := 0;
    while i < |probes|
      invariant i <= |probes| && |observations| == i
      invariant forall j :: 0 <= j < i ==> probes[j] == Some(observations[j])
    {
      if probes[i].None? {
        return Refused;
      }
      observations := observations + [probes[i].value];
      i := i + 1;
    }
    assert observations == Values(probes);
    if |observations| != fleet || !DistinctAgents(observations) || !AllUsable(observations) {
      return Refused;
    }
    var heartbeat, policy, decision :=
      Column(observations, Heartbeat), Column(observations, PolicyRead), Column(observations, DecisionWrite);
    PercentileCountsExceptions(heartbeat, 1000.0);
    PercentileCountsExceptions(policy, 1000.0);
    PercentileCountsExceptions(decision, 2000.0);
    var failures := Failures(observations);
    var h, p, d := P99(heartbeat).value, P99(policy).value, P99(decision).value;
    // The error rate exceeds one hundredth.
    if h > 1000.0 || p > 1000.0 || d > 2000.0 || 100 * failures > fleet {
      return Refused;
    }
    return Ok(Report(fleet, h, p, d, failures));
  }
}
