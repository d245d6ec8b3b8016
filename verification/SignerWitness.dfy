/**
 Reachable worlds in which no rotation can be prepared any more: a cutover abandoned after its
 trust was staged, and a registry with eight historical keys.
 */
module SignerWitness {
  import opened Base
  import opened SignerRegistry
  import opened SignerRotation
  import opened SignerTrust
  import opened SignerConvergence

  /** The world after a whole first preparation. */
  function Staged(w: World, path: string, minted: Key): World {
    var c := FreshRotation(w, minted);
    w.(keys := w.keys + {minted},
       replicas := w.replicas + {minted},
       trust := Trust(minted, w.trust.Registry()),
       checkpoints := w.checkpoints[path := c.(newReplica := Some(minted), phase := Prepared)])
  }

  predicate Level(w: World) { w.trust.Registry() == w.live.Registry() && w.checkpoints == map[] }

  /** A preparation that can complete does what it is for, and nothing else. */
  lemma PreparationStages(w: World, path: string, minted: Key)
    requires Invariant(w) && Level(w) && |w.live.history| < 8 && minted !in w.keys && minted !in w.replicas
    ensures PrepareScript(w, path, minted).Some?
    ensures var script := PrepareScript(w, path, minted).value;
            RunPrefix(w, script, |script|) == Some(Staged(w, path, minted))
  {
    hide Invariant, Apply, TrustGuard, RunPrefix, FinishPreparation, Bounded;
    LevelGuard(w, minted);
    var c := FreshRotation(w, minted);
    var c1 := c.(newReplica := Some(minted));
    var w0 := w.(keys := w.keys + {minted});
    var create, save, replicate := CreateKey(minted), Save(path, c), Replicate(minted);
    var record, stage, done := Save(path, c1), DeployTrust(minted, c.Old(), minted, c.OldReplicas()), SetPhase(path, Prepared);
    RestIsStaging(w0, path, c);
    assert PrepareScript(w, path, minted).value == [create] + ([save] + ([replicate] + ([record] + ([stage] + ([done] + [])))));
    StagingWorlds(w, path, minted);
    var w1 := w0.(checkpoints := w0.checkpoints[path := c]);
    var w2 := w1.(replicas := w1.replicas + {minted});
    var w3 := w2.(checkpoints := w2.checkpoints[path := c1]);
    var w4 := w3.(trust := Trust(minted, c.OldReplicas()));
    RunCons(w, create, [save] + ([replicate] + ([record] + ([stage] + ([done] + [])))));
    RunCons(w0, save, [replicate] + ([record] + ([stage] + ([done] + []))));
    RunCons(w1, replicate, [record] + ([stage] + ([done] + [])));
    RunCons(w2, record, [stage] + ([done] + []));
    RunCons(w3, stage, [done] + []);
    RunCons(w4, done, []);
    NothingRuns(Staged(w, path, minted));
  }

  /** The world after each write of that preparation. */
  lemma StagingWorlds(w: World, path: string, minted: Key)
    requires minted !in w.keys && TrustGuard(minted, w.live.Registry(), minted, w.trust.Registry())
    ensures var c := FreshRotation(w, minted);
            var c1 := c.(newReplica := Some(minted));
            var w0 := w.(keys := w.keys + {minted});
            var w1 := w0.(checkpoints := w0.checkpoints[path := c]);
            var w2 := w1.(replicas := w1.replicas + {minted});
            var w3 := w2.(checkpoints := w2.checkpoints[path := c1]);
            var w4 := w3.(trust := Trust(minted, c.OldReplicas()));
            && Apply(w, CreateKey(minted)) == Some(w0)
            && Apply(w0, Save(path, c)) == Some(w1)
            && Apply(w1, Replicate(minted)) == Some(w2)
            && Apply(w2, Save(path, c1)) == Some(w3)
            && Apply(w3, DeployTrust(minted, c.Old(), minted, c.OldReplicas())) == Some(w4)
            && Apply(w4, SetPhase(path, Prepared)) == Some(Staged(w, path, minted))
  {
    hide TrustGuard;
    var c := FreshRotation(w, minted);
    assert c.Old() == w.live.Registry() && c.OldReplicas() == w.trust.Registry();
    assert w.checkpoints[path := c][path := c.(newReplica := Some(minted))][path := c.(newReplica := Some(minted), phase := Prepared)]
        == w.checkpoints[path := c.(newReplica := Some(minted), phase := Prepared)];
  }

  lemma PlayOne(own: Key, actions: seq<Action>, a: Action)
    ensures Play(own, actions + [a]) == Act(Play(own, actions), a)
  {
    hide Act;
    assert (actions + [a])[..|actions|] == actions;
  }

  /** One preparation played to its end. */
  lemma PlaysPreparation(own: Key, actions: seq<Action>, path: string, minted: Key) returns (longer: seq<Action>)
    requires var w := Play(own, actions);
             Level(w) && |w.live.history| < 8 && minted !in w.keys && minted !in w.replicas
    ensures Play(own, longer) == Staged(Play(own, actions), path, minted)
  {
    hide Play, Invariant, RunPrefix, PrepareScript;
    PlayKeepsInvariant(own, actions);
    var w := Play(own, actions);
    PreparationStages(w, path, minted);
    longer := actions + [Prepares(path, minted, |PrepareScript(w, path, minted).value|)];
    PlayOne(own, actions, longer[|actions|]);
  }

  /** No preparation can complete in this world, whatever its file and key. */
  ghost predicate Blocked(w: World) {
    forall path, minted :: path !in w.checkpoints && minted !in w.keys ==> !Completes(w, path, minted)
  }

  /** A cutover whose checkpoint is lost after its trust was staged blocks every other one. */
  lemma AbandonedCutoverBlocks(own: Key, minted: Key) returns (actions: seq<Action>)
    requires minted != own
    ensures Blocked(Play(own, actions)) && |Play(own, actions).live.history| == 0
  {
    hide Invariant, Completes;
    actions := [];
    actions := PlaysPreparation(own, actions, "first", minted);
    PlayOne(own, actions, Forgets("first"));
    actions := actions + [Forgets("first")];
    var w := Play(own, actions);
    PlayKeepsInvariant(own, actions);
    assert |w.trust.Registry()| == 2 && |w.live.Registry()| == 1;
    forall path, key | path !in w.checkpoints && key !in w.keys
      ensures !Completes(w, path, key)
    {
      FreshPreparation(w, path, key);
    }
  }

  /** One whole rotation: prepare, promote, and put the checkpoint away. */
  lemma Rotates(own: Key, actions: seq<Action>, minted: Key) returns (longer: seq<Action>)
    requires var w := Play(own, actions);
             Level(w) && |w.live.history| < 8 && minted !in w.keys && minted !in w.replicas
    ensures var w, w' := Play(own, actions), Play(own, longer);
            && Level(w') && |w'.live.history| == |w.live.history| + 1
            && w'.keys == w.keys + {minted} && w'.replicas == w.replicas + {minted}
  {
    hide Play, Invariant, RunPrefix, PromoteScript, OnTrack;
    var w := Play(own, actions);
    longer := PlaysPreparation(own, actions, "next", minted);
    var t := Play(own, longer);
    PlayKeepsInvariant(own, longer);
    PreparedIsOnTrack(t, "next");
    PromoteReachesEnd(t, "next");
    var a := Promotes("next", |PromoteScript(t, "next").value|);
    PlayOne(own, longer, a);
    longer := longer + [a];
    PlayOne(own, longer, Forgets("next"));
    longer := longer + [Forgets("next")];
    assert Play(own, longer) == End(t, "next").(checkpoints := End(t, "next").checkpoints - {"next"});
    assert Play(own, longer).checkpoints == map[];
  }

  predicate Unused(own: Key, keys: seq<Key>) { Distinct(keys) && own !in keys }

  lemma {:induction false} RotatesThrough(own: Key, keys: seq<Key>) returns (actions: seq<Action>)
    requires Unused(own, keys) && |keys| <= 8
    ensures var w := Play(own, actions);
            && Level(w) && |w.live.history| == |keys|
            && (forall k :: k in w.keys || k in w.replicas ==> k == own || k in keys)
  {
    if |keys| == 0 {
      actions := [];
    } else {
      hide Play;
      var n := |keys| - 1;
      actions := RotatesThrough(own, keys[..n]);
      var w := Play(own, actions);
      assert keys[n] !in keys[..n] && keys[n] != own && keys[n] in keys;
      actions := Rotates(own, actions, keys[n]);
    }
  }

  /** After eight whole rotations no ninth can be prepared. */
  lemma EightRotationsBlock(own: Key, keys: seq<Key>) returns (actions: seq<Action>)
    requires Unused(own, keys) && |keys| == 8
    ensures Blocked(Play(own, actions)) && Level(Play(own, actions)) && |Play(own, actions).live.history| == 8
  {
    hide Invariant, Completes, Play;
    actions := RotatesThrough(own, keys);
    var w := Play(own, actions);
    PlayKeepsInvariant(own, actions);
    forall path, key | path !in w.checkpoints && key !in w.keys
      ensures !Completes(w, path, key)
    {
      FreshPreparation(w, path, key);
    }
  }
}
