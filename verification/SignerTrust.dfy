/**
 Trust precedes signing: over every run of the rotation commands, each stopped after any
 write, the passive registry already covers whatever the live primary signs with.
 */
module SignerTrust {
  import opened Base
  import opened SignerRegistry
  import opened SignerRotation

  predicate AllIn(list: seq<Key>, keys: set<Key>) {
    forall i :: 0 <= i < |list| ==> list[i] in keys
  }

  /** The passive registry is the live one, or one staged key ahead of it. */
  predicate TrustCoversLive(w: World) {
    w.trust.Registry() == w.live.Registry() || w.trust.history == w.live.Registry()
  }

  predicate KnownKeys(w: World) {
    && AllIn(w.live.Registry(), w.keys) && AllIn(w.trust.Registry(), w.keys) && AllIn(w.trust.Registry(), w.replicas)
    && Distinct(w.live.Registry())
    && (!w.live.rotated ==> w.live == Live(w.own, [], false))
  }

  /** A persisted manifest is the live registry, or exactly the staged cutover. */
  predicate AuthorityIsStaged(w: World) {
    w.persisted.Some? ==>
      var m := w.persisted.value;
      && Parses(m)
      && (m.Registry() == w.live.Registry()
          || (m.history == w.live.Registry() && m.Registry() == w.trust.Registry()))
  }

  /** How far the providers must be for a checkpoint in each phase. */
  predicate Backed(w: World, c: Rotation) {
    && c.newKey in w.keys && c.newKey !in c.Old() && Distinct(c.Old())
    && Suffix(c.Old(), w.live.Registry())
    && (c.newReplica.Some? ==> c.newKey in w.replicas)
    && (c.phase != KeyStaged ==> ParsesRotation(c) && |c.Old()| <= 8)
    && (c.phase == Prepared || c.phase == AuthorityPersisted ==>
          c.Old() == w.live.Registry() ==> w.trust.Registry() == c.Authority().Registry())
    && (c.phase == AuthorityPersisted ==>
          c.Old() == w.live.Registry() ==> w.persisted == Some(c.Authority()))
    && (c.phase.Index() >= 3 ==> Suffix(c.Authority().Registry(), w.live.Registry()))
    && (c.phase.Index() >= 4 ==> Suffix(c.Authority().Registry(), w.cell))
  }

  predicate AllBacked(w: World) {
    forall path :: path in w.checkpoints ==> Backed(w, w.checkpoints[path])
  }

  predicate Invariant(w: World) {
    && TrustCoversLive(w) && KnownKeys(w) && AuthorityIsStaged(w) && AllBacked(w)
  }

  /** What each write needs of the world, for the operator working at `path`. */
  predicate Safe(w: World, path: string, x: Write) {
    match x
    case Save(p, c) => Backed(w, c)
    case DeployTrust(current, history, replica, replicaHistory) =>
      && path in w.checkpoints
      && var c := w.checkpoints[path];
      && c.phase == KeyStaged && c.newReplica.Some?
      && current == c.newKey && history == c.Old() == w.live.Registry() && replicaHistory == c.OldReplicas()
      && (w.trust.Registry() == replicaHistory || w.trust.Registry() == [c.newKey] + replicaHistory)
    case PersistManifest(m) =>
      && path in w.checkpoints
      && var c := w.checkpoints[path];
      && c.phase == Prepared && m == c.Authority() && w.live.current == c.oldCurrent
    case SetPhase(p, phase) =>
      p in w.checkpoints ==> SafePhase(w, w.checkpoints[p], phase)
    case DeployPrimary(_) => true
    case _ => true
  }

  predicate SafePhase(w: World, c: Rotation, phase: Phase) {
    match phase
    case Prepared =>
      && c.phase == KeyStaged && ParsesRotation(c) && c.newReplica.Some?
      && c.Old() == w.live.Registry() && w.trust.Registry() == c.Authority().Registry() && |c.Old()| <= 8
    case AuthorityPersisted => c.phase == Prepared && w.persisted == Some(c.Authority())
    case PrimaryPromoted => c.phase == AuthorityPersisted && w.live.Registry() == c.Authority().Registry()
    case PassiveConverged => c.phase == PrimaryPromoted && w.cell == w.live.Registry()
    case Verified => c.phase == PassiveConverged
    case KeyStaged => false
  }

  // ----- Registries -----

  /** A distinct list has one suffix per first element. */
  lemma SuffixByHead(short: seq<Key>, long: seq<Key>)
    requires Suffix(short, long) && Distinct(long) && |short| > 0 && short[0] == long[0]
    ensures short == long
  {
    assert long[|long| - |short|] == long[|long| - |short|..][0];
  }

  // ----- One write -----

  lemma WriteKeepsTrust(w: World, path: string, x: Write)
    requires Invariant(w) && Safe(w, path, x) && Apply(w, x).Some?
    ensures TrustCoversLive(Apply(w, x).value)
  {
    hide Distinct, Suffix, AllIn;
    if x.DeployPrimary? && w.persisted.Some? {
      GuardComparesRegistries(w.live, w.persisted.value, x.allowTransition);
    }
  }

  lemma WriteKeepsKeys(w: World, path: string, x: Write)
    requires Invariant(w) && Safe(w, path, x) && Apply(w, x).Some?
    ensures KnownKeys(Apply(w, x).value)
  {
    hide Suffix;
    var w' := Apply(w, x).value;
    if x.DeployPrimary? && w.persisted.Some? {
      GuardComparesRegistries(w.live, w.persisted.value, x.allowTransition);
      ParsedRegistryIsDistinct(w.persisted.value);
      assert w'.live.Registry() == w.live.Registry() || w'.live.Registry() == w.trust.Registry();
    } else if x.DeployTrust? {
      var c := w.checkpoints[path];
      assert Backed(w, c) && w'.trust.Registry() == [c.newKey] + w.live.Registry();
    }
  }

  lemma WriteKeepsAuthority(w: World, path: string, x: Write)
    requires Invariant(w) && Safe(w, path, x) && Apply(w, x).Some?
    ensures AuthorityIsStaged(Apply(w, x).value)
  {
    hide AllIn;
    if x.DeployPrimary? && w.persisted.Some? {
      GuardComparesRegistries(w.live, w.persisted.value, x.allowTransition);
    } else if x.DeployTrust? {
      assert Backed(w, w.checkpoints[path]);
    } else if x.PersistManifest? {
      var c := w.checkpoints[path];
      assert Backed(w, c);
      SuffixByHead(c.Old(), w.live.Registry());
    }
  }

  lemma PhaseKeepsBacked(w: World, c: Rotation, phase: Phase)
    requires Backed(w, c) && SafePhase(w, c, phase)
    ensures Backed(w, c.(phase := phase))
  {
    hide Distinct, ParsesRotation, Suffix, Parses, Bounded;
    var c' := c.(phase := phase);
    assert c'.Old() == c.Old() && c'.Authority() == c.Authority();
    SuffixOfItself(w.live.Registry());
    ParsingIgnoresPhase(c, phase);
  }

  lemma ParsingIgnoresPhase(c: Rotation, phase: Phase)
    ensures ParsesRotation(c) && (c.phase != KeyStaged || c.newReplica.Some?) ==> ParsesRotation(c.(phase := phase))
  {
  }

  /** Two staged cutovers of the same registry are the same cutover. */
  lemma StagedOnce(w: World, c: Rotation, e: Rotation)
    requires Backed(w, c) && Backed(w, e) && c.phase == Prepared && e.phase == AuthorityPersisted
    requires c.Old() == w.live.Registry() == e.Old()
    ensures c.Authority() == e.Authority()
  {
    hide Distinct, ParsesRotation, Suffix;
    assert c.Authority().Registry()[0] == e.Authority().Registry()[0];
  }

  lemma PersistKeepsBacked(w: World, path: string, m: Manifest, e: Rotation)
    requires Invariant(w) && Safe(w, path, PersistManifest(m)) && Backed(w, e)
    ensures Backed(w.(persisted := Some(m)), e)
  {
    var c := w.checkpoints[path];
    assert Backed(w, c);
    SuffixByHead(c.Old(), w.live.Registry());
    hide Distinct, ParsesRotation, Suffix, KnownKeys, AllBacked, AuthorityIsStaged, TrustCoversLive;
    if e.phase == AuthorityPersisted && e.Old() == w.live.Registry() { StagedOnce(w, c, e); }
  }

  lemma TrustKeepsBacked(w: World, path: string, x: Write, e: Rotation)
    requires x.DeployTrust? && Safe(w, path, x) && Apply(w, x).Some? && Backed(w, e)
    ensures Backed(Apply(w, x).value, e)
  {
    hide Distinct, ParsesRotation, Suffix, Bounded;
    var c := w.checkpoints[path];
    if (e.phase == Prepared || e.phase == AuthorityPersisted) && e.Old() == w.live.Registry() {
      assert w.trust.Registry() == [e.newKey] + w.live.Registry();
      assert w.trust.Registry()[0] == e.newKey;
    }
  }

  /** A write of this operator leaves every other checkpoint backed. */
  lemma WriteKeepsOthersBacked(w: World, path: string, x: Write, e: Rotation)
    requires Invariant(w) && Safe(w, path, x) && Apply(w, x).Some? && Backed(w, e)
    ensures Backed(Apply(w, x).value, e)
  {
    hide Backed, Invariant, Safe, Apply;
    match x
    case DeployTrust(_, _, _, _) => TrustKeepsBacked(w, path, x, e);
    case PersistManifest(m) =>
      PersistKeepsBacked(w, path, m, e);
      PersistIsUpdate(w, m);
    case DeployPrimary(allow) => DeployKeepsBacked(w, allow, e);
    case DeployCell => CellKeepsBacked(w, e);
    case _ => QuietKeepsBacked(w, x, e);
  }

  lemma PersistIsUpdate(w: World, m: Manifest)
    ensures Apply(w, PersistManifest(m)) == Some(w.(persisted := Some(m)))
  {
  }

  lemma CellKeepsBacked(w: World, e: Rotation)
    requires Backed(w, e) && Apply(w, DeployCell).Some?
    ensures Backed(Apply(w, DeployCell).value, e)
  {
    hide Distinct, ParsesRotation, Suffix, Bounded;
  }

  lemma QuietKeepsBacked(w: World, x: Write, e: Rotation)
    requires Backed(w, e) && Apply(w, x).Some?
    requires x.CreateKey? || x.Save? || x.SetPhase? || x.Replicate? || x.CheckAuthority?
    ensures Backed(Apply(w, x).value, e)
  {
    hide Distinct, ParsesRotation, Suffix, Bounded, Parses;
  }

  lemma DeployKeepsBacked(w: World, allow: bool, e: Rotation)
    requires Invariant(w) && Backed(w, e) && Apply(w, DeployPrimary(allow)).Some?
    ensures Backed(Apply(w, DeployPrimary(allow)).value, e)
  {
    hide Distinct, ParsesRotation, AllIn, Bounded, AllBacked, TrustCoversLive;
    var w' := Apply(w, DeployPrimary(allow)).value;
    if w.persisted.Some? {
      GuardComparesRegistries(w.live, w.persisted.value, allow);
      if w'.live.Registry() != w.live.Registry() {
        var key := w.persisted.value.current;
        assert w'.live.Registry() == [key] + w.live.Registry();
        SuffixGrows(e.Old(), w.live.Registry(), key);
        if e.phase.Index() >= 3 { SuffixGrows(e.Authority().Registry(), w.live.Registry(), key); }
      }
    }
  }

  lemma WriteKeepsInvariant(w: World, path: string, x: Write)
    requires Invariant(w) && Safe(w, path, x) && Apply(w, x).Some?
    ensures Invariant(Apply(w, x).value)
  {
    var w' := Apply(w, x).value;
    WriteKeepsTrust(w, path, x);
    WriteKeepsKeys(w, path, x);
    WriteKeepsAuthority(w, path, x);
    hide Backed, SafePhase, TrustCoversLive, KnownKeys, AuthorityIsStaged;
    forall p | p in w'.checkpoints
      ensures Backed(w', w'.checkpoints[p])
    {
      if x.SetPhase? && p == x.path {
        PhaseKeepsBacked(w, w.checkpoints[p], x.phase);
        BackingIgnoresCheckpoints(w, w', w'.checkpoints[p]);
      } else if x.Save? && p == x.path {
        BackingIgnoresCheckpoints(w, w', w'.checkpoints[p]);
      } else {
        WriteKeepsOthersBacked(w, path, x, w.checkpoints[p]);
      }
    }
  }

  lemma BackingIgnoresCheckpoints(w: World, w': World, c: Rotation)
    requires w' == w.(checkpoints := w'.checkpoints) && Backed(w, c)
    ensures Backed(w', c)
  {
  }

  // ----- Whole scripts -----

  /** Every write of the script is safe where it is performed. */
  predicate SafeScript(w: World, path: string, script: seq<Write>)
    decreases |script|
  {
    |script| > 0 ==>
      && Safe(w, path, script[0])
      && (Apply(w, script[0]).Some? ==> SafeScript(Apply(w, script[0]).value, path, script[1..]))
  }

  lemma SafeCons(w: World, path: string, x: Write, rest: seq<Write>)
    requires Safe(w, path, x)
    requires Apply(w, x).Some? ==> SafeScript(Apply(w, x).value, path, rest)
    ensures SafeScript(w, path, [x] + rest)
  {
    hide Apply, Safe;
    assert ([x] + rest)[1..] == rest;
  }

  lemma {:induction false} SafePrefixKeepsInvariant(w: World, path: string, script: seq<Write>, writes: nat)
    requires Invariant(w) && SafeScript(w, path, script)
    ensures RunPrefix(w, script, writes).Some? ==> Invariant(RunPrefix(w, script, writes).value)
    decreases writes
  {
    hide Invariant, Safe, Apply;
    if writes > 0 && |script| > 0 && Apply(w, script[0]).Some? {
      WriteKeepsInvariant(w, path, script[0]);
      SafePrefixKeepsInvariant(Apply(w, script[0]).value, path, script[1..], writes - 1);
    }
  }

  lemma ConvergeIsSafe(w: World, path: string)
    requires path in w.checkpoints && w.checkpoints[path].phase == PrimaryPromoted
    ensures SafeScript(w, path, ConvergeCell(path))
  {
    if Apply(w, DeployCell).Some? {
      var w1 := Apply(w, DeployCell).value;
      SafeCons(w1, path, SetPhase(path, PassiveConverged), []);
      assert [SetPhase(path, PassiveConverged)] == [SetPhase(path, PassiveConverged)] + [];
    }
    SafeCons(w, path, DeployCell, [SetPhase(path, PassiveConverged)]);
    assert ConvergeCell(path) == [DeployCell] + [SetPhase(path, PassiveConverged)];
  }

  /** The promotion of the primary, from a world whose persisted authority is this checkpoint's. */
  lemma PromotePrimaryIsSafe(w: World, path: string, deploys: bool)
    requires path in w.checkpoints && w.checkpoints[path].phase == AuthorityPersisted
    requires w.persisted == Some(w.checkpoints[path].Authority())
    requires !deploys ==> w.live.Registry() == w.checkpoints[path].Authority().Registry()
    ensures SafeScript(w, path, PromotePrimary(path, deploys))
    decreases deploys
  {
    if deploys {
      if Apply(w, DeployPrimary(true)).Some? {
        PromotePrimaryIsSafe(Apply(w, DeployPrimary(true)).value, path, false);
      }
      SafeCons(w, path, DeployPrimary(true), PromotePrimary(path, false));
      assert PromotePrimary(path, true) == [DeployPrimary(true)] + PromotePrimary(path, false);
    } else {
      ConvergeIsSafe(Apply(w, SetPhase(path, PrimaryPromoted)).value, path);
      SafeCons(w, path, SetPhase(path, PrimaryPromoted), ConvergeCell(path));
      assert PromotePrimary(path, false) == [SetPhase(path, PrimaryPromoted)] + ConvergeCell(path);
    }
  }

  /** A live signer that is already the new one was promoted with the whole registry. */
  lemma NewSignerMeansNewRegistry(w: World, path: string)
    requires Invariant(w) && path in w.checkpoints
    requires w.persisted == Some(w.checkpoints[path].Authority()) && w.live.current == w.checkpoints[path].newKey
    ensures w.live.Registry() == w.checkpoints[path].Authority().Registry()
  {
    var c := w.checkpoints[path];
    assert Backed(w, c);
    assert c.Old()[0] in c.Old();
    assert w.live.Registry()[0] != c.Old()[0];
  }

  lemma CheckedPromotionIsSafe(w: World, path: string, rest: seq<Write>)
    requires path in w.checkpoints
    requires w.persisted == Some(w.checkpoints[path].Authority()) ==> SafeScript(w, path, rest)
    ensures SafeScript(w, path, [CheckAuthority(w.checkpoints[path].Authority())] + rest)
  {
    hide SafeScript;
    SafeCons(w, path, CheckAuthority(w.checkpoints[path].Authority()), rest);
  }

  lemma PromoteIsSafe(w: World, path: string)
    requires Invariant(w) && PromoteScript(w, path).Some?
    ensures SafeScript(w, path, PromoteScript(w, path).value)
  {
    hide Invariant, SafeScript, ParsesRotation, Parses;
    var c := w.checkpoints[path];
    var check := CheckAuthority(c.Authority());
    match c.phase
    case Prepared =>
      var w1 := w.(persisted := Some(c.Authority()));
      var c2 := c.(phase := AuthorityPersisted);
      var w2 := w1.(checkpoints := w1.checkpoints[path := c2]);
      assert c2.Authority() == c.Authority();
      PromotePrimaryIsSafe(w2, path, true);
      CheckedPromotionIsSafe(w2, path, PromotePrimary(path, true));
      SafeCons(w1, path, SetPhase(path, AuthorityPersisted), [check] + PromotePrimary(path, true));
      SafeCons(w, path, PersistManifest(c.Authority()), [SetPhase(path, AuthorityPersisted)] + ([check] + PromotePrimary(path, true)));
      assert PromoteScript(w, path).value ==
        [PersistManifest(c.Authority())] + ([SetPhase(path, AuthorityPersisted)] + ([check] + PromotePrimary(path, true)));
    case AuthorityPersisted =>
      var deploys := w.live.current == c.oldCurrent;
      if w.persisted == Some(c.Authority()) {
        if !deploys { NewSignerMeansNewRegistry(w, path); }
        PromotePrimaryIsSafe(w, path, deploys);
      }
      CheckedPromotionIsSafe(w, path, PromotePrimary(path, deploys));
    case PrimaryPromoted =>
      ConvergeIsSafe(w, path);
      CheckedPromotionIsSafe(w, path, ConvergeCell(path));
    case PassiveConverged =>
      SafeCons(w, path, check, []) by { NothingIsSafe(path); }
      assert [check] + [] == [check];
  }

  lemma NothingIsSafe(path: string)
    ensures forall w :: SafeScript(w, path, [])
  {
  }

  lemma VerifyIsSafe(w: World, path: string)
    requires VerifyScript(w, path).Some?
    ensures SafeScript(w, path, VerifyScript(w, path).value)
  {
  }

  /** The last part of a preparation, once the replica exists. */
  lemma StageIsSafe(w: World, path: string, c: Rotation)
    requires Invariant(w) && Backed(w, c) && c.phase == KeyStaged && c.newKey in w.replicas
    requires c.Old() == w.live.Registry()
    requires w.trust.Registry() == c.OldReplicas() || w.trust.Registry() == [c.newKey] + c.OldReplicas()
    ensures SafeScript(w, path, [Save(path, c.(newReplica := Some(c.newKey))),
                                 DeployTrust(c.newKey, c.Old(), c.newKey, c.OldReplicas()),
                                 SetPhase(path, Prepared)])
  {
    var c1 := c.(newReplica := Some(c.newKey));
    assert c1.Old() == c.Old() && c1.OldReplicas() == c.OldReplicas() && c1.Authority() == c.Authority();
    var save, stage, done := Save(path, c1), DeployTrust(c.newKey, c.Old(), c.newKey, c.OldReplicas()), SetPhase(path, Prepared);
    var w1 := Apply(w, save).value;
    assert Backed(w, c1);
    hide Backed, Invariant, SafeScript;
    if Apply(w1, stage).Some? {
      var w2 := Apply(w1, stage).value;
      StagedParses(w2, c1);
      SafeCons(w2, path, done, []) by { NothingIsSafe(path); }
      assert [done] == [done] + [];
    }
    SafeCons(w1, path, stage, [done]);
    assert [stage, done] == [stage] + [done];
    SafeCons(w, path, save, [stage, done]);
    assert [save, stage, done] == [save] + [stage, done];
  }

  /** A trust deployment that passed its guard proves that the checkpoint will parse. */
  lemma StagedParses(w: World, c: Rotation)
    requires c.newReplica == Some(c.newKey) && c.OldReplicas() == c.Old() && Bounded(c.Old())
    ensures ParsesRotation(c) && |c.Old()| <= 8
  {
    assert c.OldReplicas()[0] == c.Old()[0] && c.OldReplicas()[1..] == c.Old()[1..];
    forall i, j | 0 <= i < j < |c.oldHistory|
      ensures c.oldHistory[i] != c.oldHistory[j]
    {
      assert c.Old()[i + 1] != c.Old()[j + 1];
    }
  }

  lemma FinishIsSafe(w: World, path: string, c: Rotation)
    requires Invariant(w) && Backed(w, c) && c.phase == KeyStaged && c.Old() == w.live.Registry()
    requires w.trust.Registry() == c.OldReplicas() || w.trust.Registry() == [c.newKey] + c.OldReplicas()
    ensures SafeScript(w, path, FinishPreparation(w, path, c))
  {
    hide SafeScript, Invariant, Backed;
    var rest := [Save(path, c.(newReplica := Some(c.newKey))),
                 DeployTrust(c.newKey, c.Old(), c.newKey, c.OldReplicas()),
                 SetPhase(path, Prepared)];
    if c.newKey in w.replicas {
      StageIsSafe(w, path, c);
      assert FinishPreparation(w, path, c) == rest;
    } else {
      var x := Replicate(c.newKey);
      assert c.newKey in w.keys by { BackedKeyExists(w, c); }
      var w1 := Apply(w, x).value;
      WriteKeepsInvariant(w, path, x);
      WriteKeepsOthersBacked(w, path, x, c);
      StageIsSafe(w1, path, c);
      SafeCons(w, path, x, rest);
      assert FinishPreparation(w, path, c) == [x] + rest;
    }
  }

  lemma BackedKeyExists(w: World, c: Rotation)
    requires Backed(w, c)
    ensures c.newKey in w.keys
  {
  }

  lemma PrepareIsSafe(w: World, path: string, minted: Key)
    requires Invariant(w) && PrepareScript(w, path, minted).Some?
    ensures SafeScript(w, path, PrepareScript(w, path, minted).value)
  {
    if path in w.checkpoints {
      var c := w.checkpoints[path];
      assert Backed(w, c);
      if c.phase == KeyStaged { FinishIsSafe(w, path, c); }
    } else {
      var c := FreshRotation(w, minted);
      var w0 := w.(keys := w.keys + {minted});
      var create, save, rest := CreateKey(minted), Save(path, c), FinishPreparation(w0, path, c);
      if Apply(w, create).Some? {
        FreshRotationIsSafe(w, path, minted);
      }
      SafeCons(w, path, create, [save] + rest);
      assert PrepareScript(w, path, minted).value == [create] + ([save] + rest);
    }
  }

  lemma FreshRotationIsSafe(w: World, path: string, minted: Key)
    requires Invariant(w) && minted !in w.keys && path !in w.checkpoints
    ensures var c := FreshRotation(w, minted);
            var w0 := w.(keys := w.keys + {minted});
            SafeScript(w0, path, [Save(path, c)] + FinishPreparation(w0, path, c))
  {
    var c := FreshRotation(w, minted);
    var w0 := w.(keys := w.keys + {minted});
    WriteKeepsInvariant(w, path, CreateKey(minted));
    assert c.Old() == w.live.Registry() && c.OldReplicas() == w.trust.Registry();
    assert Backed(w0, c);
    var w1 := Apply(w0, Save(path, c)).value;
    WriteKeepsInvariant(w0, path, Save(path, c));
    BackingIgnoresCheckpoints(w0, w1, c);
    FinishIsSafe(w1, path, c);
    SafeCons(w0, path, Save(path, c), FinishPreparation(w0, path, c));
  }

  // ----- Every run -----

  lemma ActKeepsInvariant(w: World, a: Action)
    requires Invariant(w)
    ensures Invariant(Act(w, a))
  {
    hide Safe, Apply, SafeScript, RunPrefix;
    match a
    case Prepares(path, minted, n) =>
      if PrepareScript(w, path, minted).Some? {
        PrepareIsSafe(w, path, minted);
        SafePrefixKeepsInvariant(w, path, PrepareScript(w, path, minted).value, n);
      }
    case Promotes(path, n) =>
      if PromoteScript(w, path).Some? {
        PromoteIsSafe(w, path);
        SafePrefixKeepsInvariant(w, path, PromoteScript(w, path).value, n);
      }
    case Verifies(path, n) =>
      if VerifyScript(w, path).Some? {
        VerifyIsSafe(w, path);
        SafePrefixKeepsInvariant(w, path, VerifyScript(w, path).value, n);
      }
    case Deploys =>
      RoutineIsSafe(w);
      SafePrefixKeepsInvariant(w, "", [DeployPrimary(false)], 1);
    case Forgets(path) =>
      ForgettingKeepsInvariant(w, path);
  }

  lemma RoutineIsSafe(w: World)
    ensures SafeScript(w, "", [DeployPrimary(false)])
  {
  }

  lemma ForgettingKeepsInvariant(w: World, path: string)
    requires Invariant(w)
    ensures Invariant(w.(checkpoints := w.checkpoints - {path}))
  {
    var w' := w.(checkpoints := w.checkpoints - {path});
    forall p | p in w'.checkpoints
      ensures Backed(w', w'.checkpoints[p])
    {
      BackingIgnoresCheckpoints(w, w', w.checkpoints[p]);
    }
  }

  lemma {:induction false} PlayKeepsInvariant(own: Key, actions: seq<Action>)
    ensures Invariant(Play(own, actions))
  {
    if |actions| > 0 {
      hide Invariant, Act;
      PlayKeepsInvariant(own, actions[..|actions| - 1]);
      ActKeepsInvariant(Play(own, actions[..|actions| - 1]), actions[|actions| - 1]);
    }
  }

  /**
   Trust precedes signing: in every reachable state the replica of the live signer, and of
   every signer before it, exists and is in the passive registry, at most one staged key behind.
   */
  lemma TrustPrecedesSigning(own: Key, actions: seq<Action>, key: Key)
    ensures var w := Play(own, actions);
            && (w.trust.Registry() == w.live.Registry() || w.trust.history == w.live.Registry())
            && (key in w.live.Registry() ==> key in w.trust.Registry() && key in w.replicas)
  {
    hide Play;
    PlayKeepsInvariant(own, actions);
    var w := Play(own, actions);
    var live, trust := w.live.Registry(), w.trust.Registry();
    if key in live {
      var i :| 0 <= i < |live| && live[i] == key;
      var j := if trust == live then i else i + 1;
      assert trust[j] == key;
    }
  }

  /** No checkpoint is ahead of the providers: each phase's effects are really there. */
  lemma CheckpointIsNeverAhead(own: Key, actions: seq<Action>, path: string)
    requires path in Play(own, actions).checkpoints
    ensures var w := Play(own, actions);
            var c := w.checkpoints[path];
            && (c.phase == Prepared && c.Old() == w.live.Registry() ==> w.trust.Registry() == [c.newKey] + c.Old())
            && (c.phase == AuthorityPersisted && c.Old() == w.live.Registry() ==> w.persisted == Some(c.Authority()))
            && (c.phase.Index() >= 3 ==> Suffix([c.newKey] + c.Old(), w.live.Registry()))
            && (c.phase.Index() >= 4 ==> Suffix([c.newKey] + c.Old(), w.cell))
  {
    hide Play;
    PlayKeepsInvariant(own, actions);
    assert Backed(Play(own, actions), Play(own, actions).checkpoints[path]);
  }
}
