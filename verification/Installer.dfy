/**
 The managed package installer: staged files replace their targets one by one, and any
 failure undoes the replacements that already happened, last one first.
 */
module Installer {
  import opened Base
  import opened InstallSteps

  class Endpoint {
    var files: Files
    var nextTemp: nat
    /** How many operations of the host have failed so far. */
    ghost var failures: nat

    constructor (files: Files, nextTemp: nat)
      requires forall k: nat :: Temp(k) in files ==> k < nextTemp
      ensures this.files == files && this.nextTemp == nextTemp && failures == 0 && Valid()
    {
      this.files, this.nextTemp, this.failures := files, nextTemp, 0;
    }

    /** Private names are never reused. */
    ghost predicate Valid()
      reads this
    {
      forall k: nat :: Temp(k) in files ==> k < nextTemp
    }

    /** A host operation other than a rename may fail; nothing of it is visible then. */
    method Fails() returns (fails: bool)
      modifies this`failures
      ensures failures == old(failures) + if fails then 1 else 0
    {
      fails := *;
      failures := failures + if fails then 1 else 0;
    }

    /** An atomic rename: it happens completely, or raises and changes nothing. */
    method Replace(from: Path, to: Path) returns (ok: bool)
      modifies this`files, this`failures
      ensures ok ==> from in old(files) && files == Moved(old(files), from, to) && failures == old(failures)
      ensures !ok ==> files == old(files)
      ensures !ok && from in files ==> failures == old(failures) + 1
    {
      var fails := Fails();
      if fails || from !in files { return false; }
      files := Moved(files, from, to);
      return true;
    }

    /** Write one restrictive regular file beside each target; a failed write leaves nothing. */
    method StageAll(artifacts: seq<Artifact>) returns (ok: bool, staged: nat)
      requires Valid()
      modifies this
      ensures Valid() && nextTemp == old(nextTemp) + staged && (ok ==> staged == |artifacts|)
      ensures Staged(files, artifacts, old(files), old(nextTemp), staged)
      ensures failures == old(failures) + if ok then 0 else 1
    {
      staged := 0;
      while staged < |artifacts|
        invariant staged <= |artifacts| && nextTemp == old(nextTemp) + staged
        invariant Valid() && Staged(files, artifacts, old(files), old(nextTemp), staged)
        invariant failures == old(failures)
      {
        var fails := Fails();
        if fails { return false, staged; }
        files := files[Temp(nextTemp) := artifacts[staged].content];
        nextTemp := nextTemp + 1;
        staged := staged + 1;
      }
      return true, staged;
    }

    /** Move each old file aside, track it, then put the staged file in its place. */
    method ReplaceAll(artifacts: seq<Artifact>, first: nat, ghost base: Files)
      returns (ok: bool, completed: seq<Completed>)
      requires Valid() && nextTemp == first + |artifacts|
      requires Progress(files, [], artifacts, 0, base, first) && Kept(files, [], base)
      modifies this
      ensures Valid()
      ensures Reversible(files, completed, base, first, first + |artifacts|) && Kept(files, completed, base)
      ensures ok ==> Progress(files, completed, artifacts, |artifacts|, base, first)
      ensures failures == old(failures) + if ok then 0 else 1
    {
      hide Landed, Tracked, Overlay, Undo, Unstage, UndoOne, Kept;
      completed := [];
      ghost var end := first + |artifacts|;
      var i := 0;
      while i < |artifacts|
        invariant i <= |artifacts| && Valid() && end <= nextTemp && failures == old(failures)
        invariant Progress(files, completed, artifacts, i, base, first) && Kept(files, completed, base)
      {
        var target := artifacts[i].path;
        assert StagedAt(files, first + i, artifacts[i]);
        StepLands(files, completed, artifacts, i, base, first, nextTemp);
        AsideIsReversible(files, completed, target, nextTemp, base, first, end);
        AsideKeeps(files, completed, base, target, nextTemp);
        var backup := None;
        if Named(target) in files {
          backup := Some(nextTemp);
          nextTemp := nextTemp + 1;
          ok := Replace(Named(target), Temp(backup.value));
          if !ok { return false, completed; }
        }
        // Tracked as soon as the old file moves.
        completed := completed + [Completed(target, backup)];
        ReplacementIsReversible(files, completed, first + i, base, first, end);
        ReplacementKeeps(files, completed, base, first + i, end);
        ok := Replace(Temp(first + i), Named(target));
        if !ok { return false, completed; }
        i := i + 1;
        var unsynced := Fails();
        if unsynced { return false, completed; }
      }
      ok := true;
    }

    /** Compare every installed file with its artifact while the backups still exist. */
    method VerifyAll(artifacts: seq<Artifact>) returns (ok: bool)
      modifies this`failures
      ensures ok ==> (forall a :: a in artifacts ==> Holds(files, a)) && failures == old(failures)
      ensures !ok ==>
                || failures == old(failures) + 1
                || (failures == old(failures) && exists a :: a in artifacts && !Holds(files, a))
    {
      for i := 0 to |artifacts|
        invariant forall j :: 0 <= j < i ==> Holds(files, artifacts[j])
        invariant failures == old(failures)
      {
        var fails := Fails();
        if fails || !Holds(files, artifacts[i]) {
          assert artifacts[i] in artifacts;
          return false;
        }
      }
      return true;
    }

    /**
     Undo every tracked entry, last one first, carrying on past failures: exactly the entries
     whose own operations failed are left undone, and the rollback is complete exactly when no
     operation of its own failed.
     */
    method Rollback(completed: seq<Completed>, ghost base: Files, ghost end: nat)
      returns (complete: bool, ghost fates: seq<Fate>)
      requires Kept(files, completed, base) && Tracked(completed, end)
      modifies this`files, this`failures
      ensures |fates| == |completed| && files == UndoAs(old(files), completed, fates)
      ensures failures == old(failures) + Failed(fates)
      ensures complete <==> failures == old(failures)
      ensures complete ==> files == Undo(old(files), completed)
      ensures NothingLost(files, base, end)
    {
      hide Kept, Recoverable, NothingLost, Tracked, UndoAs, Undo;
      complete, fates := true, [];
      var i := |completed|;
      assert completed[..i] == completed;
      KeptIsRecoverable(files, completed, base, end);
      NothingUndone(files, completed);
      while i > 0
        invariant i <= |completed| && Recoverable(files, completed[..i], base, end) && Backed(files, completed[..i])
        invariant |fates| == |completed| - i && files == UndoAs(old(files), completed[i..], fates)
        invariant failures == old(failures) + Failed(fates) && (complete <==> Failed(fates) == 0)
      {
        i := i - 1;
        ghost var before, earlier := files, fates;
        var fate := UndoEntry(completed[i]);
        if fate != Clean { complete := false; }
        fates := [fate] + fates;
        assert completed[..i + 1][..i] == completed[..i] && completed[i..] == [completed[i]] + completed[i + 1..];
        UndoOneMore(old(files), completed[i], completed[i + 1..], fate, earlier);
        UndoKeepsRecoverable(before, completed[..i + 1], base, end, files);
        UndoKeepsBacked(before, completed[..i + 1], fate);
      }
      assert completed[..0] == [] && completed[0..] == completed;
      RecoverableAtTheEnd(files, base, end);
      if complete { CleanUndo(old(files), completed, fates); }
    }

    /** Remove the new file, put the old one back and sync; the first failure ends this entry. */
    method UndoEntry(c: Completed) returns (fate: Fate)
      requires c.backup.Some? ==> Temp(c.backup.value) in files
      modifies this`files, this`failures
      ensures files == UndoneAs(old(files), c, fate)
      ensures failures == old(failures) + if fate == Clean then 0 else 1
    {
      var fails := Fails();
      if fails { return UnlinkFailed; }
      files := files - {Named(c.target)};
      if c.backup.Some? {
        var restored := Replace(Temp(c.backup.value), Named(c.target));
        if !restored { return RestoreFailed; }
      }
      fails := Fails();
      return if fails then SyncFailed else Clean;
    }

    /** Remove what is left of the staged files. */
    method UnlinkStaged(first: nat, staged: nat)
      modifies this`files
      ensures files == Unstage(old(files), first, first + staged)
    {
      for j := 0 to staged
        invariant files == Unstage(old(files), first, first + j)
      {
        files := files - {Temp(first + j)};
      }
    }

    method RemoveBackups(completed: seq<Completed>)
      modifies this`files
      ensures files == old(files) - Backups(completed)
    {
      for j := 0 to |completed|
        invariant files == old(files) - Backups(completed[..j])
      {
        assert completed[..j + 1] == completed[..j] + [completed[j]];
        if completed[j].backup.Some? { files := files - {Temp(completed[j].backup.value)}; }
      }
      assert completed[..|completed|] == completed;
    }

    /**
     All or nothing: an installation that is reported rolled back leaves every file as it was, and
     one that succeeds leaves exactly the overlay. Of artifacts that agree, it succeeds exactly when
     no host operation fails, is rolled back when one fails, and is incomplete when more do: the
     first failure stops the pass, any other one is the rollback's own. Artifacts that disagree are
     never installed, and without host failures they are rolled back.
     */
    method Install(artifacts: seq<Artifact>) returns (outcome: Outcome)
      requires Valid()
      modifies this
      ensures outcome.RolledBack? ==> files == old(files)
      ensures outcome.Installed? ==> files == Overlay(old(files), artifacts)
      ensures failures >= old(failures)
      ensures Consistent(artifacts) ==>
                outcome == if failures == old(failures) then Installed
                           else if failures == old(failures) + 1 then RolledBack else Incomplete
      ensures !Consistent(artifacts) ==>
                && !outcome.Installed?
                && (failures == old(failures) ==> outcome.RolledBack?)
                && (failures >= old(failures) + 2 ==> outcome.Incomplete?)
      ensures outcome.Incomplete? ==> NothingLost(files, old(files), old(nextTemp) + |artifacts|)
    {
      hide Landed, Tracked, Overlay, Undo, Unstage, Consistent, Kept, NothingLost;
      ghost var base := files;
      var first := nextTemp;
      var completed := [];
      var ok, staged := StageAll(artifacts);
      if !ok {
        UnlinkStaged(first, staged);
        return RolledBack;
      }
      StagedIsProgress(files, artifacts, base, first);
      ok, completed := ReplaceAll(artifacts, first, base);
      if ok {
        FullPassVerifies(files, completed, artifacts, base, first);
        ok := VerifyAll(artifacts);
      }
      if !ok {
        var complete, _ := Rollback(completed, base, first + |artifacts|);
        UnstagingLosesNothing(files, base, first, staged, first + |artifacts|);
        UnlinkStaged(first, staged);
        return if complete then RolledBack else Incomplete;
      }
      FullPassIsOverlay(files, completed, artifacts, base, first);
      UnlinkStaged(first, staged);
      RemoveBackups(completed);
      outcome := Installed;
    }
  }
}
