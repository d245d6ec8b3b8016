/**
 The assurance signer guard of the control-plane deployment: what a deploy may do to the
 list of keys whose signatures still verify.

 A multi-Region key is its key identifier, the same for the primary and its replica.
 */
module SignerRegistry {
  import opened Base

  type Key = string

  /** The persisted current/history authority. */
  datatype Manifest = Manifest(current: Key, history: seq<Key>) {
    function Registry(): seq<Key> { [current] + history }
  }

  /** The signer outputs of a deployed stack; `rotated` once they came from a manifest. */
  datatype Live = Live(current: Key, history: seq<Key>, rotated: bool) {
    function Registry(): seq<Key> { [current] + history }
  }

  predicate Distinct(keys: seq<Key>) {
    forall i, j :: 0 <= i < j < |keys| ==> keys[i] != keys[j]
  }

  /** What loading the persisted manifest accepts. */
  predicate Parses(m: Manifest) {
    1 <= |m.history| <= 8 && Distinct(m.history) && m.current !in m.history
  }

  /** The guard in front of a deployment, branch by branch. */
  predicate MayDeploy(live: Option<Live>, persisted: Option<Manifest>, allowTransition: bool) {
    match persisted
    case None => live.None? || !live.value.rotated
    case Some(m) =>
      && Parses(m)
      && (live.None?
          || (if live.value.current == m.current then live.value.history == m.history
              else && allowTransition && |m.history| > 0 && live.value.current == m.history[0]
                   && live.value.history == m.history[1..]))
  }

  /** What the templates produce: the manifest's registry, or the stack's own first key. */
  function Synthesized(own: Key, persisted: Option<Manifest>): Live {
    match persisted
    case None => Live(own, [], false)
    case Some(m) => Live(m.current, m.history, true)
  }

  predicate Posture(live: Live, persisted: Option<Manifest>) {
    persisted.Some? ==> live.rotated && live.current == persisted.value.current && live.history == persisted.value.history
  }

  /** On an existing stack the guard passes exactly when the registry stays or gains one key. */
  lemma GuardComparesRegistries(live: Live, m: Manifest, allowTransition: bool)
    requires Parses(m)
    ensures MayDeploy(Some(live), Some(m), allowTransition) <==>
              m.Registry() == live.Registry() || (allowTransition && m.history == live.Registry())
  {
    if m.Registry() == live.Registry() {
      assert m.Registry()[0] == live.Registry()[0] && m.Registry()[1..] == live.Registry()[1..];
    } else if m.history == live.Registry() {
      assert m.history[0] == live.current && m.history[1..] == live.history;
    }
  }

  /**
   The guard over every deployment: a stack that exists needs the persisted registry to be its own
   or its own plus one flagged key; a new stack takes any valid registry; and without a persisted
   registry only a stack that was never rotated passes.
   */
  lemma GuardExactlyWhen(live: Option<Live>, persisted: Option<Manifest>, allowTransition: bool)
    ensures MayDeploy(live, persisted, allowTransition) <==>
              if persisted.None? then live.Some? ==> !live.value.rotated
              else
                var wanted := persisted.value.Registry();
                && 2 <= |wanted| <= 9 && (forall i, j :: 0 <= i < j < |wanted| ==> wanted[i] != wanted[j])
                && (live.Some? ==>
                      wanted == live.value.Registry() || (allowTransition && wanted[1..] == live.value.Registry()))
  {
    if persisted.Some? {
      var m := persisted.value;
      if Parses(m) {
        ParsedRegistryIsDistinct(m);
        if live.Some? { GuardComparesRegistries(live.value, m, allowTransition); }
      } else if 1 <= |m.history| <= 8 && Distinct(m.Registry()) {
        DistinctRegistryParses(m);
      }
    }
  }

  lemma DistinctRegistryParses(m: Manifest)
    requires Distinct(m.Registry()) && 1 <= |m.history| <= 8
    ensures Parses(m)
  {
    forall i, j | 0 <= i < j < |m.history|
      ensures m.history[i] != m.history[j]
    {
      assert m.Registry()[i + 1] != m.Registry()[j + 1];
    }
    forall i | 0 <= i < |m.history|
      ensures m.history[i] != m.current
    {
      assert m.Registry()[0] != m.Registry()[i + 1];
    }
  }

  class ControlPlane {
    const own: Key
    var live: Option<Live>
    var persisted: Option<Manifest>
    /** Whether any deployment command has failed so far. */
    ghost var failed: bool

    constructor (own: Key, live: Option<Live>, persisted: Option<Manifest>)
      ensures this.own == own && this.live == live && this.persisted == persisted && !failed
    {
      this.own, this.live, this.persisted, this.failed := own, live, persisted, false;
    }

    /** One external command; the stack update itself is atomic but may still be reported as failed. */
    method Run(updates: bool, environment: Option<Manifest>) returns (ok: bool)
      modifies this`live, this`failed
      ensures failed == (old(failed) || !ok)
      ensures live == old(live) || (updates && live == Some(Synthesized(own, environment)))
      ensures ok && updates ==> live == Some(Synthesized(own, environment))
    {
      var applied := *;
      if updates && applied { live := Some(Synthesized(own, environment)); }
      ok := *;
      ok := ok && (updates ==> applied);
      failed := failed || !ok;
    }

    /** Guard, build, deploy, and check the deployed posture. */
    method Deploy(allowTransition: bool) returns (ok: bool)
      modifies this`live, this`failed
      ensures MayDeploy(old(live), persisted, allowTransition) ==> ok || failed
      ensures !MayDeploy(old(live), persisted, allowTransition) ==> !ok && live == old(live)
      ensures live == old(live) || live == Some(Synthesized(own, persisted))
      ensures ok ==> live == Some(Synthesized(own, persisted)) && Posture(live.value, persisted)
    {
      var authority := persisted;
      if !MayDeploy(live, authority, allowTransition) {
        return false;
      }
      var commands := [false, true];
      for i := 0 to |commands|
        invariant live == old(live) || live == Some(Synthesized(own, authority))
        invariant i == 2 ==> live == Some(Synthesized(own, authority))
      {
        ok := Run(commands[i], authority);
        if !ok { return false; }
      }
      ok := live.Some? && Posture(live.value, authority);
    }
  }

  // ----- Sequences of deploys -----

  /** A deploy that is guarded and whose stack update took effect; otherwise nothing changes. */
  datatype Deployment = Deployment(persisted: Option<Manifest>, allowTransition: bool)

  function AfterDeploy(own: Key, live: Live, d: Deployment): Live {
    if MayDeploy(Some(live), d.persisted, d.allowTransition) then Synthesized(own, d.persisted) else live
  }

  function AfterAll(own: Key, live: Live, deploys: seq<Deployment>): Live {
    if |deploys| == 0 then live
    else AfterDeploy(own, AfterAll(own, live, deploys[..|deploys| - 1]), deploys[|deploys| - 1])
  }

  /** A stack that was never rotated signs with its own first key. */
  predicate Bootstrapped(own: Key, live: Live) {
    (!live.rotated ==> live == Live(own, [], false)) && Distinct(live.Registry())
  }

  predicate Suffix(short: seq<Key>, long: seq<Key>) {
    |short| <= |long| && long[|long| - |short|..] == short
  }

  lemma ParsedRegistryIsDistinct(m: Manifest)
    requires Parses(m)
    ensures Distinct(m.Registry())
  {
    forall i, j | 0 <= i < j < |m.Registry()|
      ensures m.Registry()[i] != m.Registry()[j]
    {
      assert m.Registry()[j] == m.history[j - 1] && m.history[j - 1] in m.history;
      if i > 0 { assert m.Registry()[i] == m.history[i - 1]; }
    }
  }

  /** One deploy keeps the registry or puts one new key in front of it. */
  lemma DeployExtendsByOne(own: Key, live: Live, d: Deployment)
    requires Bootstrapped(own, live)
    ensures var after := AfterDeploy(own, live, d);
            && Bootstrapped(own, after)
            && (after.Registry() == live.Registry()
                || (d.allowTransition && after.Registry() == [after.current] + live.Registry()))
  {
    if d.persisted.Some? && Parses(d.persisted.value) {
      GuardComparesRegistries(live, d.persisted.value, d.allowTransition);
      ParsedRegistryIsDistinct(d.persisted.value);
    }
  }

  function Flagged(deploys: seq<Deployment>): nat {
    if |deploys| == 0 then 0
    else Flagged(deploys[..|deploys| - 1]) + (if deploys[|deploys| - 1].allowTransition then 1 else 0)
  }

  /**
   Append-only: after any deploys under any persisted manifests the old registry is a suffix of
   the new one, which has grown at most once per deploy that carried the transition flag.
   */
  lemma {:induction false} RegistryIsAppendOnly(own: Key, live: Live, deploys: seq<Deployment>)
    requires Bootstrapped(own, live)
    ensures var after := AfterAll(own, live, deploys);
            && Bootstrapped(own, after)
            && Suffix(live.Registry(), after.Registry())
            && |after.Registry()| <= |live.Registry()| + Flagged(deploys)
    ensures Flagged(deploys) == 0 ==> AfterAll(own, live, deploys).Registry() == live.Registry()
  {
    hide Bootstrapped, AfterDeploy, Suffix, Distinct, Live.Registry;
    if |deploys| == 0 {
      SuffixOfItself(live.Registry());
    } else {
      var n := |deploys| - 1;
      var before := AfterAll(own, live, deploys[..n]);
      RegistryIsAppendOnly(own, live, deploys[..n]);
      DeployExtendsByOne(own, before, deploys[n]);
      var after := AfterAll(own, live, deploys);
      assert after == AfterDeploy(own, before, deploys[n]);
      GrowsByOne(live.Registry(), before.Registry(), after.Registry(), after.current, Flagged(deploys[..n]), deploys[n].allowTransition);
      assert Flagged(deploys) == Flagged(deploys[..n]) + (if deploys[n].allowTransition then 1 else 0);
    }
  }

  lemma GrowsByOne(first: seq<Key>, before: seq<Key>, after: seq<Key>, key: Key, flags: nat, flagged: bool)
    requires Suffix(first, before) && |before| <= |first| + flags
    requires after == before || (flagged && after == [key] + before)
    ensures Suffix(first, after) && |after| <= |first| + flags + (if flagged then 1 else 0)
    ensures flags == 0 && !flagged && before == first ==> after == first
  {
    SuffixGrows(first, before, key);
  }

  lemma SuffixOfItself(keys: seq<Key>)
    ensures Suffix(keys, keys)
  {
  }

  lemma SuffixGrows(short: seq<Key>, long: seq<Key>, key: Key)
    requires Suffix(short, long)
    ensures Suffix(short, [key] + long)
  {
    assert ([key] + long)[|long| + 1 - |short|..] == long[|long| - |short|..];
  }

  /** Every signer that ever verified still verifies, and a retired signer never signs again. */
  lemma SignersAreNeverForgottenNorRevived(own: Key, live: Live, deploys: seq<Deployment>, key: Key)
    requires Bootstrapped(own, live)
    ensures key in live.Registry() ==> key in AfterAll(own, live, deploys).Registry()
    ensures key in live.history ==> AfterAll(own, live, deploys).current != key
  {
    hide AfterAll;
    RegistryIsAppendOnly(own, live, deploys);
    var before, after := live.Registry(), AfterAll(own, live, deploys).Registry();
    if key in before {
      var i :| 0 <= i < |before| && before[i] == key;
      assert after[|after| - |before| + i] == key;
    }
    if key in live.history {
      var i :| 0 <= i < |live.history| && live.history[i] == key;
      assert before[i + 1] == key && after[|after| - |before| + i + 1] == key;
      assert after[0] == AfterAll(own, live, deploys).current;
    }
  }
}
