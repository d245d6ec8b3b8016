/**
 An interrupted preparation of a rotation: however often it is cut off, running it again
 finishes it in the one world the first run was heading for.
 */
module SignerResumption {
  import opened Base
  import opened SignerRegistry
  import opened SignerRotation
  import opened SignerTrust
  import opened SignerConvergence

  /** A checkpoint that a preparation can resume, with everything the rest of it needs. */
  predicate Preparing(w: World, path: string) {
    && path in w.checkpoints
    && var c := w.checkpoints[path];
    && Resumable(w, c) && Bounded(w.live.history) && Bounded(w.trust.history)
    && TrustGuard(c.newKey, c.Old(), c.newKey, c.OldReplicas())
    && c.newKey in w.keys && (c.newReplica.Some? ==> c.newKey in w.replicas)
    && (c.phase == Prepared ==> w.trust == Trust(c.newKey, c.OldReplicas()))
  }

  /** Where it ends: key replicated, trust one key ahead, checkpoint prepared, signer untouched. */
  function Ready(w: World, path: string): World
    requires path in w.checkpoints
  {
    var c := w.checkpoints[path];
    w.(replicas := w.replicas + {c.newKey},
       trust := Trust(c.newKey, c.OldReplicas()),
       checkpoints := w.checkpoints[path := c.(newReplica := Some(c.newKey), phase := Prepared)])
  }

  /** The first `n` writes succeed and leave a preparation that is heading for the same end. */
  predicate Heads(w: World, path: string, script: seq<Write>, n: nat)
    requires path in w.checkpoints
  {
    && RunPrefix(w, script, n).Some?
    && var t := RunPrefix(w, script, n).value;
    && Preparing(t, path) && Ready(t, path) == Ready(w, path) && t.live == w.live
    && (n == |script| ==> t == Ready(w, path))
  }

  lemma HeadsCons(w: World, path: string, x: Write, rest: seq<Write>, n: nat)
    requires Preparing(w, path) && 0 < n <= |rest| + 1 && Apply(w, x).Some?
    requires var t := Apply(w, x).value;
             path in t.checkpoints && Ready(t, path) == Ready(w, path) && t.live == w.live && Heads(t, path, rest, n - 1)
    ensures Heads(w, path, [x] + rest, n)
  {
    hide Apply, Preparing, Ready;
    assert ([x] + rest)[1..] == rest;
  }

  lemma RecordTail(w: World, path: string, n: nat)
    requires Preparing(w, path) && n <= 1 && w.checkpoints[path].phase == KeyStaged && w.checkpoints[path].newReplica.Some?
    requires w.trust == Trust(w.checkpoints[path].newKey, w.checkpoints[path].OldReplicas())
    ensures Heads(w, path, [SetPhase(path, Prepared)], n)
  {
    hide TrustGuard, Bounded, RunPrefix;
    if n == 0 { HeadsNothing(w, path, [SetPhase(path, Prepared)]); return; }
    var c, x := w.checkpoints[path], SetPhase(path, Prepared);
    var t := Apply(w, x).value;
    assert t.checkpoints[path].OldReplicas() == c.OldReplicas() && t.checkpoints[path].Old() == c.Old();
    assert w.replicas + {c.newKey} == w.replicas;
    assert t == Ready(w, path);
    RunCons(w, x, []);
    NothingRuns(t);
    assert [x] + [] == [x];
  }

  lemma HeadsNothing(w: World, path: string, script: seq<Write>)
    requires Preparing(w, path) && |script| > 0
    ensures Heads(w, path, script, 0)
  {
  }

  lemma TrustTail(w: World, path: string, n: nat)
    requires Preparing(w, path) && n <= 2 && w.checkpoints[path].phase == KeyStaged && w.checkpoints[path].newReplica.Some?
    ensures var c := w.checkpoints[path];
            Heads(w, path, [DeployTrust(c.newKey, c.Old(), c.newKey, c.OldReplicas()), SetPhase(path, Prepared)], n)
  {
    hide Bounded, RunPrefix, Heads;
    var c := w.checkpoints[path];
    var x, rest := DeployTrust(c.newKey, c.Old(), c.newKey, c.OldReplicas()), [SetPhase(path, Prepared)];
    assert [x] + rest == [x, SetPhase(path, Prepared)];
    if n == 0 { HeadsNothing(w, path, [x] + rest); return; }
    RecordTail(Apply(w, x).value, path, n - 1);
    HeadsCons(w, path, x, rest, n);
  }

  lemma SaveTail(w: World, path: string, n: nat)
    requires Preparing(w, path) && n <= 3 && w.checkpoints[path].phase == KeyStaged && w.checkpoints[path].newKey in w.replicas
    ensures var c := w.checkpoints[path];
            Heads(w, path, [Save(path, c.(newReplica := Some(c.newKey))),
                            DeployTrust(c.newKey, c.Old(), c.newKey, c.OldReplicas()), SetPhase(path, Prepared)], n)
  {
    hide Bounded, RunPrefix, Heads, TrustGuard;
    var c := w.checkpoints[path];
    var c1 := c.(newReplica := Some(c.newKey));
    var x, rest := Save(path, c1), [DeployTrust(c.newKey, c.Old(), c.newKey, c.OldReplicas()), SetPhase(path, Prepared)];
    assert [x] + rest == [x, rest[0], rest[1]];
    if n == 0 { HeadsNothing(w, path, [x] + rest); return; }
    var t := Apply(w, x).value;
    assert c1.Old() == c.Old() && c1.OldReplicas() == c.OldReplicas() && t.checkpoints[path] == c1;
    assert t.checkpoints[path := c1.(phase := Prepared)] == w.checkpoints[path := c1.(phase := Prepared)];
    TrustTail(t, path, n - 1);
    HeadsCons(w, path, x, rest, n);
  }

  /** From any resumable checkpoint the preparation is accepted, and every prefix of it heads for its end. */
  lemma PrepareHeads(w: World, path: string, minted: Key, n: nat)
    requires Preparing(w, path)
    ensures PrepareScript(w, path, minted).Some?
    ensures n <= |PrepareScript(w, path, minted).value| ==> Heads(w, path, PrepareScript(w, path, minted).value, n)
  {
    hide Bounded, RunPrefix, Heads, TrustGuard, ParsesRotation;
    var c := w.checkpoints[path];
    if c.phase == Prepared {
      PreparedIsReady(w, path);
    } else if n <= |PrepareScript(w, path, minted).value| {
      var save, stage, done :=
        Save(path, c.(newReplica := Some(c.newKey))), DeployTrust(c.newKey, c.Old(), c.newKey, c.OldReplicas()), SetPhase(path, Prepared);
      RestIsStaging(w, path, c);
      assert [] + [save, stage, done] == [save, stage, done];
      if c.newKey in w.replicas {
        SaveTail(w, path, n);
      } else if n == 0 {
        HeadsNothing(w, path, [Replicate(c.newKey)] + [save, stage, done]);
      } else {
        var t := Apply(w, Replicate(c.newKey)).value;
        assert t.replicas + {c.newKey} == t.replicas;
        SaveTail(t, path, n - 1);
        HeadsCons(w, path, Replicate(c.newKey), [save, stage, done], n);
      }
    }
  }

  lemma PreparedIsReady(w: World, path: string)
    requires Preparing(w, path) && w.checkpoints[path].phase == Prepared
    ensures Heads(w, path, [], 0) && Ready(w, path) == w
  {
    hide TrustGuard, Bounded;
    var c := w.checkpoints[path];
    assert w.replicas + {c.newKey} == w.replicas;
    assert w.checkpoints[path := c] == w.checkpoints;
  }

  /** A preparation attempted again and again, each attempt cut after some number of writes. */
  function Retried(w: World, path: string, attempts: seq<(Key, nat)>): World {
    if |attempts| == 0 then w
    else
      var (minted, writes) := attempts[|attempts| - 1];
      Act(Retried(w, path, attempts[..|attempts| - 1]), Prepares(path, minted, writes))
  }

  lemma {:induction false} RetriesHead(w: World, path: string, attempts: seq<(Key, nat)>)
    requires Preparing(w, path)
    ensures var t := Retried(w, path, attempts); Preparing(t, path) && Ready(t, path) == Ready(w, path)
  {
    if |attempts| > 0 {
      hide Preparing, Ready, PrepareScript, Apply, RunPrefix;
      RetriesHead(w, path, attempts[..|attempts| - 1]);
      var u := Retried(w, path, attempts[..|attempts| - 1]);
      var (minted, n) := attempts[|attempts| - 1];
      PrepareHeads(u, path, minted, n);
      var script := PrepareScript(u, path, minted).value;
      if n > |script| { NoLongerThanScript(u, script, n); }
    }
  }

  /** In a reachable state a checkpoint that still describes the live trust can be prepared to its end. */
  lemma ResumableIsPreparing(w: World, path: string)
    requires Invariant(w) && path in w.checkpoints && Resumable(w, w.checkpoints[path])
    requires w.checkpoints[path].phase == Prepared || |w.live.history| < 8
    ensures Preparing(w, path)
  {
    var c := w.checkpoints[path];
    assert Backed(w, c);
    assert c.Old() == w.live.Registry() && c.OldReplicas() == c.Old();
    RegistryIsBounded(c);
  }

  lemma RegistryIsBounded(c: Rotation)
    requires Distinct(c.Old())
    ensures Distinct(c.oldHistory)
  {
    forall i, j | 0 <= i < j < |c.oldHistory|
      ensures c.oldHistory[i] != c.oldHistory[j]
    {
      assert c.Old()[i + 1] != c.Old()[j + 1];
    }
  }

  /**
   Convergence of preparation: while the live signer is the one the checkpoint records, and its
   history has room, a preparation that was cut off anywhere, any number of times, is finished by a
   run that is not, always in the same world and with the key that was minted first.
   */
  lemma PreparationConverges(own: Key, actions: seq<Action>, path: string, attempts: seq<(Key, nat)>, minted: Key)
    requires var w := Play(own, actions);
             && path in w.checkpoints && Resumable(w, w.checkpoints[path])
             && (w.checkpoints[path].phase == Prepared || |w.live.history| < 8)
    ensures var w := Play(own, actions);
            var t := Retried(w, path, attempts);
            && PrepareScript(t, path, minted).Some?
            && RunPrefix(t, PrepareScript(t, path, minted).value, |PrepareScript(t, path, minted).value|) == Some(Ready(w, path))
  {
    hide Play, Preparing, Ready, PrepareScript, RunPrefix, Retried, Invariant, Resumable;
    var w := Play(own, actions);
    PlayKeepsInvariant(own, actions);
    ResumableIsPreparing(w, path);
    RetriesHead(w, path, attempts);
    var t := Retried(w, path, attempts);
    PrepareHeads(t, path, minted, 0);
    PrepareHeads(t, path, minted, |PrepareScript(t, path, minted).value|);
  }

  /** The first run is no exception: once its checkpoint is written, it heads for the staged world. */
  lemma FirstCheckpointIsPreparing(w: World, path: string, minted: Key)
    requires Invariant(w) && path !in w.checkpoints && minted !in w.keys
    requires w.trust.Registry() == w.live.Registry() && |w.live.history| < 8
    ensures var c := Rotation(KeyStaged, w.live.current, w.trust.current, w.live.history, w.trust.history, minted, None);
            var started := w.(keys := w.keys + {minted}, checkpoints := w.checkpoints[path := c]);
            && PrepareScript(w, path, minted).Some?
            && RunPrefix(w, PrepareScript(w, path, minted).value, 2) == Some(started)
            && Preparing(started, path)
  {
    var c := FreshRotation(w, minted);
    var w0 := w.(keys := w.keys + {minted});
    var rest := FinishPreparation(w0, path, c);
    LevelGuard(w, minted);
    assert w.live.current == w.live.Registry()[0] && w.trust.current == w.trust.Registry()[0];
    assert w.live.history == w.live.Registry()[1..] && w.trust.history == w.trust.Registry()[1..];
    hide Invariant, Bounded, TrustGuard, FinishPreparation;
    assert c.Old() == w.live.Registry() && c.OldReplicas() == w.trust.Registry();
    var script := [CreateKey(minted), Save(path, c)] + rest;
    assert script[1..][0] == Save(path, c);
    var started := w0.(checkpoints := w.checkpoints[path := c]);
    assert RunPrefix(started, script[1..][1..], 0) == Some(started);
    assert RunPrefix(w0, script[1..], 1) == Some(started);
  }
}
