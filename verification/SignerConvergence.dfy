/**
 Re-running a promotion from wherever it was cut off reaches one end state, and a new
 preparation can complete exactly when trust is level and the registry has room.
 */
module SignerConvergence {
  import opened Base
  import opened SignerRegistry
  import opened SignerRotation
  import opened SignerTrust

  /** A world from which only this cutover's promotion has moved the providers. */
  predicate OnTrack(w: World, path: string) {
    && path in w.checkpoints
    && var c := w.checkpoints[path];
    && ParsesRotation(c) && c.newReplica.Some? && Parses(c.Authority())
    && 1 <= c.phase.Index() <= 4
    && w.trust.Registry() == c.Authority().Registry()
    && (w.live.Registry() == c.Old() || w.live == Live(c.newKey, c.Old(), true))
    && (c.phase == Prepared ==> w.live.Registry() == c.Old())
    && (c.phase.Index() >= 2 ==> w.persisted == Some(c.Authority()))
    && (c.phase.Index() >= 3 ==> w.live == Live(c.newKey, c.Old(), true))
    && (c.phase.Index() >= 4 ==> w.cell == c.Authority().Registry())
  }

  /** Where the promotion ends: new signer live, authority persisted, recovery cell converged. */
  function End(w: World, path: string): World
    requires path in w.checkpoints
  {
    var c := w.checkpoints[path];
    w.(live := Live(c.newKey, c.Old(), true),
       persisted := Some(c.Authority()),
       cell := c.Authority().Registry(),
       checkpoints := w.checkpoints[path := c.(phase := PassiveConverged)])
  }

  /** Every write succeeds, stays on track and keeps the end. */
  predicate Tracks(w: World, path: string, script: seq<Write>)
    requires OnTrack(w, path)
    decreases |script|
  {
    |script| > 0 ==>
      && Apply(w, script[0]).Some?
      && var t := Apply(w, script[0]).value;
      && OnTrack(t, path) && End(t, path) == End(w, path)
      && Tracks(t, path, script[1..])
  }

  lemma TracksCons(w: World, path: string, x: Write, rest: seq<Write>)
    requires OnTrack(w, path) && Apply(w, x).Some?
    requires var t := Apply(w, x).value; OnTrack(t, path) && End(t, path) == End(w, path) && Tracks(t, path, rest)
    ensures Tracks(w, path, [x] + rest)
  {
    hide Apply, OnTrack, End;
    assert ([x] + rest)[1..] == rest;
  }

  lemma {:induction false} TrackedPrefix(w: World, path: string, script: seq<Write>, writes: nat)
    requires OnTrack(w, path) && Tracks(w, path, script) && writes <= |script|
    ensures RunPrefix(w, script, writes).Some?
    ensures var t := RunPrefix(w, script, writes).value; OnTrack(t, path) && End(t, path) == End(w, path)
    decreases writes
  {
    hide OnTrack, End, Apply;
    if writes > 0 {
      TrackedPrefix(Apply(w, script[0]).value, path, script[1..], writes - 1);
    }
  }

  lemma ConvergeTracks(w: World, path: string)
    requires OnTrack(w, path) && w.checkpoints[path].phase == PrimaryPromoted
    ensures Tracks(w, path, ConvergeCell(path))
  {
    LiveIsBounded(w, path);
    var w1 := Apply(w, DeployCell).value;
    var w2 := Apply(w1, SetPhase(path, PassiveConverged)).value;
    assert OnTrack(w1, path) && End(w1, path) == End(w, path);
    PhaseTracks(w1, path, PassiveConverged);
    TracksCons(w1, path, SetPhase(path, PassiveConverged), []);
    TracksCons(w, path, DeployCell, [SetPhase(path, PassiveConverged)] + []);
    assert ConvergeCell(path) == [DeployCell] + ([SetPhase(path, PassiveConverged)] + []);
  }

  lemma LiveIsBounded(w: World, path: string)
    requires OnTrack(w, path) && w.checkpoints[path].phase.Index() >= 3
    ensures Bounded(w.live.history) && w.trust.Registry() == w.live.Registry()
  {
  }

  /** Recording the next phase keeps the track when its effects are there. */
  lemma PhaseTracks(w: World, path: string, phase: Phase)
    requires OnTrack(w, path) && phase.Index() == w.checkpoints[path].phase.Index() + 1 <= 4
    requires w.persisted == Some(w.checkpoints[path].Authority())
    requires phase.Index() >= 3 ==> w.live == Live(w.checkpoints[path].newKey, w.checkpoints[path].Old(), true)
    requires phase.Index() >= 4 ==> w.cell == w.checkpoints[path].Authority().Registry()
    ensures Apply(w, SetPhase(path, phase)).Some?
    ensures var t := Apply(w, SetPhase(path, phase)).value;
            OnTrack(t, path) && End(t, path) == End(w, path) && t.checkpoints[path].phase == phase
  {
    hide Parses, Bounded, Distinct;
    var c := w.checkpoints[path];
    var t := Apply(w, SetPhase(path, phase)).value;
    var c' := c.(phase := phase);
    assert t.checkpoints[path] == c' && c'.Old() == c.Old() && c'.Authority() == c.Authority();
    assert t.checkpoints[path := c'.(phase := PassiveConverged)] == w.checkpoints[path := c.(phase := PassiveConverged)];
  }

  lemma PromotePrimaryTracks(w: World, path: string, deploys: bool)
    requires OnTrack(w, path) && w.checkpoints[path].phase == AuthorityPersisted
    requires deploys ==> w.live.Registry() == w.checkpoints[path].Old()
    requires !deploys ==> w.live == Live(w.checkpoints[path].newKey, w.checkpoints[path].Old(), true)
    ensures Tracks(w, path, PromotePrimary(path, deploys))
    decreases deploys
  {
    if deploys {
      PrimaryDeploys(w, path);
      PromotePrimaryTracks(Apply(w, DeployPrimary(true)).value, path, false);
      TracksCons(w, path, DeployPrimary(true), PromotePrimary(path, false));
      assert PromotePrimary(path, true) == [DeployPrimary(true)] + PromotePrimary(path, false);
    } else {
      PhaseTracks(w, path, PrimaryPromoted);
      ConvergeTracks(Apply(w, SetPhase(path, PrimaryPromoted)).value, path);
      TracksCons(w, path, SetPhase(path, PrimaryPromoted), ConvergeCell(path));
      assert PromotePrimary(path, false) == [SetPhase(path, PrimaryPromoted)] + ConvergeCell(path);
    }
  }

  lemma PrimaryDeploys(w: World, path: string)
    requires OnTrack(w, path) && w.checkpoints[path].phase == AuthorityPersisted
    requires w.live.Registry() == w.checkpoints[path].Old()
    ensures Apply(w, DeployPrimary(true)).Some?
    ensures var c, t := w.checkpoints[path], Apply(w, DeployPrimary(true)).value;
            && t.live == Live(c.newKey, c.Old(), true) && t.checkpoints == w.checkpoints
            && OnTrack(t, path) && End(t, path) == End(w, path)
  {
    hide ParsesRotation;
    GuardComparesRegistries(w.live, w.persisted.value, true);
  }

  lemma CheckTracks(w: World, path: string, rest: seq<Write>)
    requires OnTrack(w, path) && w.checkpoints[path].phase.Index() >= 2 && Tracks(w, path, rest)
    ensures Tracks(w, path, [CheckAuthority(w.checkpoints[path].Authority())] + rest)
  {
    hide Tracks;
    TracksCons(w, path, CheckAuthority(w.checkpoints[path].Authority()), rest);
  }

  lemma NothingTracks(w: World, path: string)
    requires OnTrack(w, path)
    ensures Tracks(w, path, [])
  {
  }

  /** From any world on track the promotion is accepted, and all of it stays on track. */
  lemma PromoteTracks(w: World, path: string)
    requires OnTrack(w, path)
    ensures PromoteScript(w, path).Some? && Tracks(w, path, PromoteScript(w, path).value)
  {
    hide Tracks, ParsesRotation, Parses;
    var c := w.checkpoints[path];
    var check := CheckAuthority(c.Authority());
    AcceptedOnTrack(w, path);
    match c.phase
    case Prepared =>
      var w1 := w.(persisted := Some(c.Authority()));
      assert OnTrack(w1, path) && End(w1, path) == End(w, path);
      PhaseTracks(w1, path, AuthorityPersisted);
      var w2 := Apply(w1, SetPhase(path, AuthorityPersisted)).value;
      PromotePrimaryTracks(w2, path, true);
      CheckTracks(w2, path, PromotePrimary(path, true));
      assert w2.checkpoints[path].Authority() == c.Authority();
      TracksCons(w1, path, SetPhase(path, AuthorityPersisted), [check] + PromotePrimary(path, true));
      TracksCons(w, path, PersistManifest(c.Authority()), [SetPhase(path, AuthorityPersisted)] + ([check] + PromotePrimary(path, true)));
      assert PromoteScript(w, path).value ==
        [PersistManifest(c.Authority())] + ([SetPhase(path, AuthorityPersisted)] + ([check] + PromotePrimary(path, true)));
    case AuthorityPersisted =>
      var deploys := w.live.current == c.oldCurrent;
      PromotePrimaryTracks(w, path, deploys);
      CheckTracks(w, path, PromotePrimary(path, deploys));
    case PrimaryPromoted =>
      ConvergeTracks(w, path);
      CheckTracks(w, path, ConvergeCell(path));
    case PassiveConverged =>
      NothingTracks(w, path);
      CheckTracks(w, path, []);
      assert [check] + [] == [check];
  }

  /** On track the live signer is the old one or the new one, never both. */
  lemma AcceptedOnTrack(w: World, path: string)
    requires OnTrack(w, path)
    ensures var c := w.checkpoints[path];
            && PromoteScript(w, path).Some?
            && (w.live.current == c.oldCurrent <==> w.live.Registry() == c.Old())
  {
    var c := w.checkpoints[path];
    assert c.Old()[0] in c.Authority().history;
    if w.live.Registry() == c.Old() { assert w.live.Registry()[0] == c.Old()[0]; }
  }

  /** The whole promotion ends in the end state. */
  lemma PromoteReachesEnd(w: World, path: string)
    requires OnTrack(w, path)
    ensures PromoteScript(w, path).Some?
    ensures RunPrefix(w, PromoteScript(w, path).value, |PromoteScript(w, path).value|) == Some(End(w, path))
  {
    hide ParsesRotation, Parses, Tracks, End, PromoteScript, RunPrefix, Apply;
    PromoteTracks(w, path);
    var script := PromoteScript(w, path).value;
    TrackedPrefix(w, path, script, |script|);
    var t := RunPrefix(w, script, |script|).value;
    if w.checkpoints[path].phase != PassiveConverged {
      LastIsConverged(w, path);
      TrackedPrefix(w, path, script, |script| - 1);
      var u := RunPrefix(w, script, |script| - 1).value;
      NextWrite(w, script, |script| - 1, u);
      RecordedPhase(u, path, PassiveConverged);
    } else {
      ConvergedOnlyChecks(w, path);
    }
    AtTheEnd(t, path);
  }

  lemma {:induction false} ConvergedOnlyChecks(w: World, path: string)
    requires OnTrack(w, path) && w.checkpoints[path].phase == PassiveConverged
    ensures PromoteScript(w, path).Some?
    ensures RunPrefix(w, PromoteScript(w, path).value, |PromoteScript(w, path).value|) == Some(w)
  {
    hide ParsesRotation, Parses, RunPrefix;
    var check := CheckAuthority(w.checkpoints[path].Authority());
    assert Apply(w, check) == Some(w);
    RunCons(w, check, []);
    NothingRuns(w);
    assert [check] + [] == [check];
  }

  lemma RecordedPhase(w: World, path: string, phase: Phase)
    requires Apply(w, SetPhase(path, phase)).Some?
    ensures var t := Apply(w, SetPhase(path, phase)).value;
            path in t.checkpoints && t.checkpoints[path].phase == phase
  {
  }

  lemma LastIsConverged(w: World, path: string)
    requires PromoteScript(w, path).Some? && w.checkpoints[path].phase != PassiveConverged
    ensures var script := PromoteScript(w, path).value;
            |script| > 0 && script[|script| - 1] == SetPhase(path, PassiveConverged)
  {
  }

  lemma AtTheEnd(t: World, path: string)
    requires OnTrack(t, path) && t.checkpoints[path].phase == PassiveConverged
    ensures End(t, path) == t
  {
    assert t.checkpoints[path := t.checkpoints[path]] == t.checkpoints;
  }

  /** A promotion attempted again and again, each attempt cut after some number of writes. */
  function Interrupted(w: World, path: string, cuts: seq<nat>): World {
    if |cuts| == 0 then w
    else Act(Interrupted(w, path, cuts[..|cuts| - 1]), Promotes(path, cuts[|cuts| - 1]))
  }

  lemma {:induction false} InterruptionsStayOnTrack(w: World, path: string, cuts: seq<nat>)
    requires OnTrack(w, path)
    ensures var t := Interrupted(w, path, cuts); OnTrack(t, path) && End(t, path) == End(w, path)
  {
    if |cuts| > 0 {
      hide OnTrack, End, PromoteScript, Apply;
      InterruptionsStayOnTrack(w, path, cuts[..|cuts| - 1]);
      var u, n := Interrupted(w, path, cuts[..|cuts| - 1]), cuts[|cuts| - 1];
      PromoteTracks(u, path);
      var script := PromoteScript(u, path).value;
      if n <= |script| {
        TrackedPrefix(u, path, script, n);
      } else {
        NoLongerThanScript(u, script, n);
      }
    }
  }

  lemma {:induction false} NoLongerThanScript(w: World, script: seq<Write>, writes: nat)
    requires writes > |script|
    ensures RunPrefix(w, script, writes).None?
    decreases |script|
  {
    hide Apply;
    if |script| > 0 && Apply(w, script[0]).Some? {
      NoLongerThanScript(Apply(w, script[0]).value, script[1..], writes - 1);
    }
  }

  /** In a reachable state, a prepared checkpoint whose old signer is still live is on track. */
  lemma PreparedIsOnTrack(w: World, path: string)
    requires Invariant(w) && path in w.checkpoints
    requires w.checkpoints[path].phase == Prepared && w.live.current == w.checkpoints[path].oldCurrent
    ensures OnTrack(w, path)
  {
    var c := w.checkpoints[path];
    assert Backed(w, c);
    SuffixByHead(c.Old(), w.live.Registry());
  }

  /**
   Convergence: once prepared, however often the promotion is cut off after any write, a run
   that is not cut off ends with the same world.
   */
  lemma PromotionConverges(own: Key, actions: seq<Action>, path: string, cuts: seq<nat>)
    requires var w := Play(own, actions);
             && path in w.checkpoints && w.checkpoints[path].phase == Prepared
             && w.live.current == w.checkpoints[path].oldCurrent
    ensures var w := Play(own, actions);
            var t := Interrupted(w, path, cuts);
            && PromoteScript(t, path).Some?
            && RunPrefix(t, PromoteScript(t, path).value, |PromoteScript(t, path).value|) == Some(End(w, path))
  {
    hide *;
    var w := Play(own, actions);
    PlayKeepsInvariant(own, actions);
    PreparedIsOnTrack(w, path);
    InterruptionsStayOnTrack(w, path, cuts);
    PromoteReachesEnd(Interrupted(w, path, cuts), path);
  }

  // ----- When a preparation can complete -----

  predicate Completes(w: World, path: string, minted: Key) {
    && PrepareScript(w, path, minted).Some?
    && RunPrefix(w, PrepareScript(w, path, minted).value, |PrepareScript(w, path, minted).value|).Some?
  }

  lemma RunCons(w: World, x: Write, rest: seq<Write>)
    ensures RunPrefix(w, [x] + rest, |rest| + 1) == if Apply(w, x).None? then None else RunPrefix(Apply(w, x).value, rest, |rest|)
  {
    hide Apply;
    assert ([x] + rest)[1..] == rest;
  }

  /** Everything before the trust deployment always succeeds; that one decides. */
  lemma TrustDeploymentDecides(w: World, path: string, c: Rotation, replicates: bool)
    requires c.newKey in w.keys && c.phase == KeyStaged && path in w.checkpoints
    ensures var rest := [Save(path, c.(newReplica := Some(c.newKey))),
                         DeployTrust(c.newKey, c.Old(), c.newKey, c.OldReplicas()),
                         SetPhase(path, Prepared)];
            var script := (if replicates then [Replicate(c.newKey)] else []) + rest;
            RunPrefix(w, script, |script|).Some? <==> TrustGuard(c.newKey, c.Old(), c.newKey, c.OldReplicas())
  {
    hide TrustGuard, RunPrefix, Apply;
    var save, stage, done :=
      Save(path, c.(newReplica := Some(c.newKey))), DeployTrust(c.newKey, c.Old(), c.newKey, c.OldReplicas()), SetPhase(path, Prepared);
    StagingWrites(w, path, c, replicates);
    var w0 := if replicates then Apply(w, Replicate(c.newKey)).value else w;
    var w1 := Apply(w0, save).value;
    RunCons(w0, save, [stage, done]);
    RunCons(w1, stage, [done]);
    if Apply(w1, stage).Some? {
      RunCons(Apply(w1, stage).value, done, []);
      NothingRuns(Apply(Apply(w1, stage).value, done).value);
    }
    assert [save, stage, done] == [save] + [stage, done] && [stage, done] == [stage] + [done] && [done] == [done] + [];
    if replicates {
      RunCons(w, Replicate(c.newKey), [save, stage, done]);
    } else {
      assert [] + [save, stage, done] == [save, stage, done];
    }
  }

  lemma NothingRuns(w: World)
    ensures RunPrefix(w, [], 0) == Some(w)
  {
  }

  /** Which of the staging writes can be refused. */
  lemma StagingWrites(w: World, path: string, c: Rotation, replicates: bool)
    requires c.newKey in w.keys && c.phase == KeyStaged && path in w.checkpoints
    ensures Apply(w, Replicate(c.newKey)).Some?
    ensures var w0 := if replicates then Apply(w, Replicate(c.newKey)).value else w;
            var save := Save(path, c.(newReplica := Some(c.newKey)));
            var stage := DeployTrust(c.newKey, c.Old(), c.newKey, c.OldReplicas());
            && Apply(w0, save).Some?
            && (Apply(Apply(w0, save).value, stage).Some? <==> TrustGuard(c.newKey, c.Old(), c.newKey, c.OldReplicas()))
            && (Apply(Apply(w0, save).value, stage).Some? ==>
                  Apply(Apply(Apply(w0, save).value, stage).value, SetPhase(path, Prepared)).Some?)
  {
    hide TrustGuard;
  }

  /**
   A first preparation can complete exactly when the passive registry is level with the live
   one and the live history is below its bound. So an eighth historical key is the last one,
   and a cutover abandoned after its trust was staged blocks every other cutover.
   */
  lemma PreparationCompletesExactlyWhen(own: Key, actions: seq<Action>, path: string, minted: Key)
    requires path !in Play(own, actions).checkpoints && minted !in Play(own, actions).keys
    ensures var w := Play(own, actions);
            Completes(w, path, minted) <==> w.trust.Registry() == w.live.Registry() && |w.live.history| < 8
  {
    hide Play;
    PlayKeepsInvariant(own, actions);
    FreshPreparation(Play(own, actions), path, minted);
  }

  lemma {:induction false} FreshPreparation(w: World, path: string, minted: Key)
    requires Invariant(w) && path !in w.checkpoints && minted !in w.keys
    ensures Completes(w, path, minted) <==> w.trust.Registry() == w.live.Registry() && |w.live.history| < 8
  {
    var c := FreshRotation(w, minted);
    assert c.Old() == w.live.Registry() && c.OldReplicas() == w.trust.Registry();
    LevelGuard(w, minted);
    hide RunPrefix;
    if Bounded(w.live.history) && Bounded(w.trust.history) {
      hide TrustGuard, Invariant, Bounded, Apply, FinishPreparation;
      var w0 := w.(keys := w.keys + {minted});
      var create, save, rest := CreateKey(minted), Save(path, c), FinishPreparation(w0, path, c);
      assert PrepareScript(w, path, minted).value == [create] + ([save] + rest);
      FirstWrites(w, path, minted);
      RunCons(w, create, [save] + rest);
      RunCons(w0, save, rest);
      TrustDeploymentDecides(Apply(w0, save).value, path, c, minted !in w.replicas);
      RestIsStaging(w0, path, c);
    }
  }

  lemma FirstWrites(w: World, path: string, minted: Key)
    requires minted !in w.keys
    ensures var w0 := w.(keys := w.keys + {minted});
            && Apply(w, CreateKey(minted)) == Some(w0)
            && Apply(w0, Save(path, FreshRotation(w, minted))).Some?
            && var w1 := Apply(w0, Save(path, FreshRotation(w, minted))).value;
            && minted in w1.keys && path in w1.checkpoints
  {
  }

  lemma RestIsStaging(w: World, path: string, c: Rotation)
    ensures FinishPreparation(w, path, c) ==
            (if c.newKey !in w.replicas then [Replicate(c.newKey)] else [])
            + [Save(path, c.(newReplica := Some(c.newKey))),
               DeployTrust(c.newKey, c.Old(), c.newKey, c.OldReplicas()),
               SetPhase(path, Prepared)]
  {
  }

  lemma LevelGuard(w: World, minted: Key)
    requires Invariant(w) && minted !in w.keys
    ensures TrustGuard(minted, w.live.Registry(), minted, w.trust.Registry())
            <==> w.trust.Registry() == w.live.Registry() && |w.live.history| < 8
    ensures w.trust.Registry() == w.live.Registry() && |w.live.history| < 8 ==> Bounded(w.live.history) && Bounded(w.trust.history)
  {
    var live := w.live.Registry();
    forall i, j | 0 <= i < j < |w.live.history|
      ensures w.live.history[i] != w.live.history[j]
    {
      assert live[i + 1] != live[j + 1];
    }
    if w.trust.Registry() == live { assert w.trust.history == w.trust.Registry()[1..] == live[1..]; }
  }
}
