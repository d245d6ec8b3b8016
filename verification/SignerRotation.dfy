/**
 Rotating the assurance signer: a checkpoint file, the live primary signer, the persisted
 manifest and the passive trust registry, changed one provider call or file write at a time.
 */
module SignerRotation {
  import opened Base
  import opened SignerRegistry

  datatype Phase = KeyStaged | Prepared | AuthorityPersisted | PrimaryPromoted | PassiveConverged | Verified {
    function Index(): nat {
      match this
      case KeyStaged => 0
      case Prepared => 1
      case AuthorityPersisted => 2
      case PrimaryPromoted => 3
      case PassiveConverged => 4
      case Verified => 5
    }
  }

  /** The checkpoint of one cutover. */
  datatype Rotation = Rotation(
    phase: Phase,
    oldCurrent: Key,
    oldReplica: Key,
    oldHistory: seq<Key>,
    oldReplicaHistory: seq<Key>,
    newKey: Key,
    newReplica: Option<Key>)
  {
    function Old(): seq<Key> { [oldCurrent] + oldHistory }

    function OldReplicas(): seq<Key> { [oldReplica] + oldReplicaHistory }

    function Authority(): Manifest { Manifest(newKey, Old()) }
  }

  predicate Bounded(keys: seq<Key>) { |keys| <= 8 && Distinct(keys) }

  /** What reading a checkpoint file accepts. */
  predicate ParsesRotation(c: Rotation) {
    && Bounded(c.oldHistory) && Bounded(c.oldReplicaHistory)
    && c.oldReplica == c.oldCurrent && c.oldReplicaHistory == c.oldHistory
    && (c.newReplica.None? ==> c.phase == KeyStaged)
    && (c.newReplica.Some? ==> c.newReplica.value == c.newKey)
  }

  /** The replica registry of the recovery Region's trust stack. */
  datatype Trust = Trust(current: Key, history: seq<Key>) {
    function Registry(): seq<Key> { [current] + history }
  }

  datatype World = World(
    own: Key,
    live: Live,
    persisted: Option<Manifest>,
    trust: Trust,
    cell: seq<Key>,
    keys: set<Key>,
    replicas: set<Key>,
    checkpoints: map<string, Rotation>)

  // ----- Single writes -----

  datatype Write =
    | CreateKey(key: Key)
    | Save(path: string, rotation: Rotation)
    | SetPhase(path: string, phase: Phase)
    | Replicate(key: Key)
    | DeployTrust(current: Key, history: seq<Key>, replica: Key, replicaHistory: seq<Key>)
    | PersistManifest(manifest: Manifest)
    | CheckAuthority(manifest: Manifest)
    | DeployPrimary(allowTransition: bool)
    | DeployCell

  /** Length, identity and coverage checks in front of the trust stack's deployment. */
  predicate TrustGuard(current: Key, history: seq<Key>, replica: Key, replicaHistory: seq<Key>) {
    && Bounded(history) && current !in history
    && Bounded(replicaHistory) && replica == current
    && (replicaHistory != [] ==> replicaHistory == history)
  }

  /** One write: the new world, or None when it is refused. */
  function Apply(w: World, x: Write): Option<World> {
    match x
    case CreateKey(k) => if k in w.keys then None else Some(w.(keys := w.keys + {k}))
    case Save(path, c) => Some(w.(checkpoints := w.checkpoints[path := c]))
    case SetPhase(path, phase) =>
      if path in w.checkpoints && w.checkpoints[path].phase.Index() <= phase.Index() <= w.checkpoints[path].phase.Index() + 1
      then Some(w.(checkpoints := w.checkpoints[path := w.checkpoints[path].(phase := phase)]))
      else None
    case Replicate(k) => if k in w.keys then Some(w.(replicas := w.replicas + {k})) else None
    case DeployTrust(current, history, replica, replicaHistory) =>
      if TrustGuard(current, history, replica, replicaHistory) then Some(w.(trust := Trust(replica, replicaHistory))) else None
    case PersistManifest(m) => Some(w.(persisted := Some(m)))
    case CheckAuthority(m) => if w.persisted == Some(m) && Parses(m) then Some(w) else None
    case DeployPrimary(allow) =>
      if MayDeploy(Some(w.live), w.persisted, allow) then Some(w.(live := Synthesized(w.own, w.persisted))) else None
    case DeployCell =>
      if w.trust.Registry() == w.live.Registry() && Bounded(w.live.history) then Some(w.(cell := w.trust.Registry())) else None
  }

  /** The world after the first `writes` writes of a script, if they all succeed. */
  function RunPrefix(w: World, script: seq<Write>, writes: nat): Option<World>
    decreases writes
  {
    if writes == 0 then Some(w)
    else if |script| == 0 then None
    else match Apply(w, script[0])
      case None => None
      case Some(w') => RunPrefix(w', script[1..], writes - 1)
  }

  // ----- The commands as scripts -----

  /** The part of `prepare` that every run performs: replicate, record, stage trust, record. */
  function FinishPreparation(w: World, path: string, c: Rotation): seq<Write> {
    (if c.newKey in w.replicas then [] else [Replicate(c.newKey)])
    + [Save(path, c.(newReplica := Some(c.newKey))),
       DeployTrust(c.newKey, c.Old(), c.newKey, c.OldReplicas()),
       SetPhase(path, Prepared)]
  }

  function FreshRotation(w: World, minted: Key): Rotation {
    Rotation(KeyStaged, w.live.current, w.trust.current, w.live.history, w.trust.history, minted, None)
  }

  /** Whether an existing checkpoint still describes the live trust. */
  predicate Resumable(w: World, c: Rotation) {
    && ParsesRotation(c)
    && (c.phase == KeyStaged || c.phase == Prepared)
    && c.oldCurrent == w.live.current && c.oldHistory == w.live.history
    && ((w.trust.current == c.oldReplica && w.trust.history == c.oldReplicaHistory)
        || (c.newReplica.Some? && w.trust.current == c.newReplica.value && w.trust.history == c.OldReplicas()))
  }

  function PrepareScript(w: World, path: string, minted: Key): Option<seq<Write>> {
    if !Bounded(w.live.history) || !Bounded(w.trust.history) then None
    else if path in w.checkpoints then
      var c := w.checkpoints[path];
      if !Resumable(w, c) then None
      else if c.phase == Prepared then Some([])
      else Some(FinishPreparation(w, path, c))
    else
      var c := FreshRotation(w, minted);
      Some([CreateKey(minted), Save(path, c)] + FinishPreparation(w.(keys := w.keys + {minted}), path, c))
  }

  function ConvergeCell(path: string): seq<Write> { [DeployCell, SetPhase(path, PassiveConverged)] }

  function PromotePrimary(path: string, deploys: bool): seq<Write> {
    (if deploys then [DeployPrimary(true)] else []) + [SetPhase(path, PrimaryPromoted)] + ConvergeCell(path)
  }

  /** `promote` from any durable phase. */
  function PromoteScript(w: World, path: string): Option<seq<Write>> {
    if path !in w.checkpoints || !ParsesRotation(w.checkpoints[path]) || w.checkpoints[path].newReplica.None? then None
    else
      var c := w.checkpoints[path];
      var check := [CheckAuthority(c.Authority())];
      match c.phase
      case Prepared =>
        if w.live.current != c.oldCurrent then None
        else Some([PersistManifest(c.Authority()), SetPhase(path, AuthorityPersisted)] + check + PromotePrimary(path, true))
      case AuthorityPersisted =>
        if w.live.current == c.oldCurrent then Some(check + PromotePrimary(path, true))
        else if w.live.current == c.newKey then Some(check + PromotePrimary(path, false))
        else None
      case PrimaryPromoted => Some(check + ConvergeCell(path))
      case PassiveConverged => Some(check)
      case _ => None
  }

  function VerifyScript(w: World, path: string): Option<seq<Write>> {
    if path !in w.checkpoints || !ParsesRotation(w.checkpoints[path]) then None
    else match w.checkpoints[path].phase
      case PassiveConverged => Some([SetPhase(path, Verified)])
      case Verified => Some([])
      case _ => None
  }

  // ----- Runs -----

  /**
   One command stopped after some number of writes, a routine deployment without the
   transition flag, or a checkpoint file lost or abandoned.
   */
  datatype Action =
    | Prepares(path: string, minted: Key, writes: nat)
    | Promotes(path: string, writes: nat)
    | Verifies(path: string, writes: nat)
    | Deploys
    | Forgets(path: string)

  function ScriptOf(w: World, a: Action): Option<seq<Write>> {
    match a
    case Prepares(path, minted, _) => PrepareScript(w, path, minted)
    case Promotes(path, _) => PromoteScript(w, path)
    case Verifies(path, _) => VerifyScript(w, path)
    case Deploys => Some([DeployPrimary(false)])
    case Forgets(_) => None
  }

  function WritesOf(a: Action): nat {
    match a
    case Prepares(_, _, n) => n
    case Promotes(_, n) => n
    case Verifies(_, n) => n
    case Deploys => 1
    case Forgets(_) => 0
  }

  function Act(w: World, a: Action): World {
    if a.Forgets? then w.(checkpoints := w.checkpoints - {a.path})
    else match ScriptOf(w, a)
      case None => w
      case Some(script) =>
        match RunPrefix(w, script, WritesOf(a))
        case None => w
        case Some(w') => w'
  }

  /** A stack that still signs with its own first key, replicated and trusted in both Regions. */
  function Bootstrap(own: Key): World {
    World(own, Live(own, [], false), None, Trust(own, []), [own], {own}, {own}, map[])
  }

  function Play(own: Key, actions: seq<Action>): World {
    if |actions| == 0 then Bootstrap(own)
    else Act(Play(own, actions[..|actions| - 1]), actions[|actions| - 1])
  }

  // ----- The operator -----

  class Operator {
    var world: World
    /** Whether the process has been lost. */
    ghost var gone: bool

    constructor (own: Key)
      ensures world == Bootstrap(own) && !gone
    {
      world, gone := Bootstrap(own), false;
    }

    /** The next write of a script; the process may be lost before it. */
    method Perform(x: Write, ghost start: World, ghost script: seq<Write>, ghost before: nat)
      returns (done: bool, ghost writes: nat)
      requires before < |script| && script[before] == x && RunPrefix(start, script, before) == Some(world)
      modifies this
      ensures RunPrefix(start, script, writes) == Some(world)
      ensures writes == if done then before + 1 else before
      ensures !done ==> gone || Apply(world, x).None?
    {
      hide Apply;
      NextWrite(start, script, before, world);
      var lost := *;
      var next := Apply(world, x);
      done := !lost && next.Some?;
      if done { world := next.value; }
      gone := gone || lost;
      writes := if done then before + 1 else before;
    }

    /** Stage or resume passive trust without changing the active signer. */
    method Prepare(path: string, minted: Key) returns (ok: bool, ghost writes: nat)
      modifies this
      ensures PrepareScript(old(world), path, minted).None? ==> !ok && world == old(world)
      ensures PrepareScript(old(world), path, minted).Some? ==>
                Ran(old(world), PrepareScript(old(world), path, minted).value, writes, world, ok, gone)
    {
      hide Apply, RunPrefix, Resumable, Bounded, FinishPreparation;
      writes := 0;
      ghost var start := world;
      StartRun(world);
      if !Bounded(world.live.history) || !Bounded(world.trust.history) {
        return false, 0;
      }
      ghost var script := [];
      var state;
      var replicated;
      if path in world.checkpoints {
        state := world.checkpoints[path];
        if !Resumable(world, state) { return false, 0; }
        if state.phase == Prepared { return true, 0; }
        script := FinishPreparation(world, path, state);
        replicated := state.newKey in world.replicas;
        assert script[0..] == script;
        ok, writes := Finish(path, state, replicated, world, start, script, 0);
      } else {
        state := FreshRotation(world, minted);
        script := PrepareScript(world, path, minted).value;
        replicated := state.newKey in world.replicas;
        ghost var seen := world.(keys := world.keys + {minted});
        assert script[2..] == FinishPreparation(seen, path, state);
        ok, writes := Perform(CreateKey(minted), start, script, 0);
        if !ok { return; }
        ok, writes := Perform(Save(path, state), start, script, writes);
        if !ok { return; }
        ok, writes := Finish(path, state, replicated, seen, start, script, writes);
      }
    }

    /** Replicate unless that is done, record the replica, stage the trust, record the phase. */
    method Finish(path: string, c: Rotation, replicated: bool, ghost seen: World,
                  ghost start: World, ghost script: seq<Write>, ghost before: nat)
      returns (ok: bool, ghost writes: nat)
      requires replicated == (c.newKey in seen.replicas)
      requires before <= |script| && script[before..] == FinishPreparation(seen, path, c)
      requires RunPrefix(start, script, before) == Some(world)
      modifies this
      ensures Ran(start, script, writes, world, ok, gone)
    {
      hide Apply, RunPrefix;
      var state := c.(newReplica := Some(c.newKey));
      assert forall k :: 0 <= k < |FinishPreparation(seen, path, c)| ==> script[before + k] == script[before..][k];
      writes := before;
      if !replicated {
        ok, writes := Perform(Replicate(c.newKey), start, script, writes);
        if !ok { return; }
      }
      ok, writes := Perform(Save(path, state), start, script, writes);
      if !ok { return; }
      ok, writes := Perform(DeployTrust(state.newKey, state.Old(), state.newKey, state.OldReplicas()), start, script, writes);
      if !ok { return; }
      ok, writes := Perform(SetPhase(path, Prepared), start, script, writes);
    }

    /** Resume the promotion from every durable phase boundary. */
    method Promote(path: string) returns (ok: bool, ghost writes: nat)
      modifies this
      ensures PromoteScript(old(world), path).None? ==> !ok && world == old(world)
      ensures PromoteScript(old(world), path).Some? ==>
                Ran(old(world), PromoteScript(old(world), path).value, writes, world, ok, gone)
    {
      hide Apply, RunPrefix, ParsesRotation;
      writes := 0;
      ghost var start := world;
      StartRun(world);
      if path !in world.checkpoints || !ParsesRotation(world.checkpoints[path]) || world.checkpoints[path].newReplica.None? {
        return false, 0;
      }
      var state := world.checkpoints[path];
      if state.phase == KeyStaged || state.phase == Verified {
        return false, 0;
      }
      var liveSigner := world.live.current;
      if state.phase == Prepared && liveSigner != state.oldCurrent {
        return false, 0;
      }
      if state.phase == AuthorityPersisted && liveSigner != state.oldCurrent && liveSigner != state.newKey {
        return false, 0;
      }
      ghost var script := PromoteScript(world, path).value;
      if state.phase == Prepared {
        assert script[2..] == FromCheck(path, state.(phase := AuthorityPersisted), true);
        ok, writes := Perform(PersistManifest(state.Authority()), start, script, writes);
        if !ok { return; }
        ok, writes := Perform(SetPhase(path, AuthorityPersisted), start, script, writes);
        if !ok { return; }
        state := state.(phase := AuthorityPersisted);
      } else {
        assert script[0..] == FromCheck(path, state, liveSigner == state.oldCurrent);
      }
      ok, writes := Continue(path, state, liveSigner == state.oldCurrent, start, script, writes);
    }

    /** The part of a promotion that starts by checking the persisted authority. */
    method Continue(path: string, c: Rotation, deploys: bool, ghost start: World, ghost script: seq<Write>, ghost before: nat)
      returns (ok: bool, ghost writes: nat)
      requires c.phase != KeyStaged && c.phase != Prepared && c.phase != Verified
      requires before <= |script| && script[before..] == FromCheck(path, c, deploys)
      requires RunPrefix(start, script, before) == Some(world)
      modifies this
      ensures Ran(start, script, writes, world, ok, gone)
    {
      hide Apply, RunPrefix;
      var state := c;
      assert forall k :: 0 <= k < |FromCheck(path, c, deploys)| ==> script[before + k] == script[before..][k];
      ok, writes := Perform(CheckAuthority(state.Authority()), start, script, before);
      if !ok { return; }
      if state.phase == AuthorityPersisted {
        if deploys {
          ok, writes := Perform(DeployPrimary(true), start, script, writes);
          if !ok { return; }
        }
        ok, writes := Perform(SetPhase(path, PrimaryPromoted), start, script, writes);
        if !ok { return; }
        state := state.(phase := PrimaryPromoted);
      }
      if state.phase == PrimaryPromoted {
        ok, writes := Perform(DeployCell, start, script, writes);
        if !ok { return; }
        ok, writes := Perform(SetPhase(path, PassiveConverged), start, script, writes);
      }
    }
  }

  /** What a promotion still writes once its authority has been persisted. */
  function FromCheck(path: string, c: Rotation, deploys: bool): seq<Write> {
    [CheckAuthority(c.Authority())]
    + (if c.phase == AuthorityPersisted then PromotePrimary(path, deploys)
       else if c.phase == PrimaryPromoted then ConvergeCell(path) else [])
  }

  /**
   A command left exactly its first `writes` writes. It returned normally when those are all,
   and stopped before only because its process was lost or its next write is refused.
   */
  predicate Ran(before: World, script: seq<Write>, writes: nat, after: World, ok: bool, gone: bool) {
    && writes <= |script|
    && RunPrefix(before, script, writes) == Some(after)
    && (ok <==> writes == |script|)
    && (!ok ==> gone || Apply(after, script[writes]).None?)
  }

  lemma StartRun(w: World)
    ensures forall script :: RunPrefix(w, script, 0) == Some(w)
  {
  }

  /** Running one more write of a script. */
  lemma {:induction false} NextWrite(w: World, script: seq<Write>, writes: nat, now: World)
    requires writes < |script| && RunPrefix(w, script, writes) == Some(now)
    ensures RunPrefix(w, script, writes + 1) == Apply(now, script[writes])
    decreases writes
  {
    hide Apply;
    if writes > 0 {
      NextWrite(Apply(w, script[0]).value, script[1..], writes - 1, now);
    }
  }
}
