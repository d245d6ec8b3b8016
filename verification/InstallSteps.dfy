/**
 What the managed package installer does to the files of an endpoint, step by step, and
 what undoing the steps in reverse order gives back.
 */
module InstallSteps {
  import opened Base

  /** A file name of the endpoint, or the private name of a staged or backup file. */
  datatype Path = Named(name: string) | Temp(id: nat)

  type Files = map<Path, string>

  datatype Artifact = Artifact(path: string, content: string)

  /** One entry of the rollback list: the target and where its old file went. */
  datatype Completed = Completed(target: string, backup: Option<nat>)

  datatype Outcome = Installed | RolledBack | Incomplete

  /** What a fully successful installation leaves: later artifacts win, nothing else changes. */
  function Overlay(base: Files, artifacts: seq<Artifact>): Files {
    if |artifacts| == 0 then base
    else
      var last := artifacts[|artifacts| - 1];
      Overlay(base, artifacts[..|artifacts| - 1])[Named(last.path) := last.content]
  }

  /** Artifacts that share a path share their content. */
  predicate Consistent(artifacts: seq<Artifact>) {
    forall i, j :: 0 <= i < j < |artifacts| && artifacts[i].path == artifacts[j].path ==>
      artifacts[i].content == artifacts[j].content
  }

  predicate Holds(files: Files, a: Artifact) {
    Named(a.path) in files && files[Named(a.path)] == a.content
  }

  /** Every target of an overlay holds its artifact exactly when no two artifacts disagree. */
  lemma {:induction false} OverlayHoldsExactlyWhenConsistent(base: Files, artifacts: seq<Artifact>)
    ensures (forall a :: a in artifacts ==> Holds(Overlay(base, artifacts), a)) <==> Consistent(artifacts)
  {
    forall i | 0 <= i < |artifacts|
      ensures LastWins(base, artifacts, i)
    {
      OverlayAt(base, artifacts, i);
    }
    if forall a :: a in artifacts ==> Holds(Overlay(base, artifacts), a) {
      forall i, j | 0 <= i < j < |artifacts| && artifacts[i].path == artifacts[j].path
        ensures artifacts[i].content == artifacts[j].content
      {
        assert artifacts[i] in artifacts && artifacts[j] in artifacts;
      }
    } else {
      var a :| a in artifacts && !Holds(Overlay(base, artifacts), a);
      var i :| 0 <= i < |artifacts| && artifacts[i] == a;
      assert LastWins(base, artifacts, i);
    }
  }

  ghost predicate LastWins(base: Files, artifacts: seq<Artifact>, i: nat)
    requires i < |artifacts|
  {
    exists j :: i <= j < |artifacts| && artifacts[j].path == artifacts[i].path && Holds(Overlay(base, artifacts), artifacts[j])
  }

  lemma {:induction false} OverlayAt(base: Files, artifacts: seq<Artifact>, i: nat)
    requires i < |artifacts|
    ensures LastWins(base, artifacts, i)
  {
    var n := |artifacts| - 1;
    if artifacts[n].path == artifacts[i].path {
      assert Holds(Overlay(base, artifacts), artifacts[n]);
    } else {
      OverlayAt(base, artifacts[..n], i);
      var j :| i <= j < n && artifacts[j].path == artifacts[i].path && Holds(Overlay(base, artifacts[..n]), artifacts[..n][j]);
      assert Holds(Overlay(base, artifacts), artifacts[j]);
    }
  }

  lemma {:induction false} OverlayKeepsOthers(base: Files, artifacts: seq<Artifact>, p: Path)
    requires forall a :: a in artifacts ==> Named(a.path) != p
    ensures p in Overlay(base, artifacts) <==> p in base
    ensures p in base ==> Overlay(base, artifacts)[p] == base[p]
  {
    if |artifacts| > 0 {
      var n := |artifacts| - 1;
      assert artifacts[n] in artifacts;
      OverlayKeepsOthers(base, artifacts[..n], p);
    }
  }

  // ----- Undoing -----

  function Moved(files: Files, from: Path, to: Path): Files {
    if from in files then (files - {from})[to := files[from]] else files
  }

  function UndoOne(files: Files, c: Completed): Files {
    var removed := files - {Named(c.target)};
    match c.backup
    case None => removed
    case Some(k) => Moved(removed, Temp(k), Named(c.target))
  }

  /** The rollback order of the source: last entry first. */
  function Undo(files: Files, completed: seq<Completed>): Files
    decreases |completed|
  {
    if |completed| == 0 then files
    else Undo(UndoOne(files, completed[|completed| - 1]), completed[..|completed| - 1])
  }

  /** The same entries undone in the order they were made. */
  function UndoForward(files: Files, completed: seq<Completed>): Files
    decreases |completed|
  {
    if |completed| == 0 then files else UndoForward(UndoOne(files, completed[0]), completed[1..])
  }

  /** How undoing one entry went: cleanly, or up to the operation that failed. */
  datatype Fate = Clean | UnlinkFailed | RestoreFailed | SyncFailed

  function UndoneAs(files: Files, c: Completed, fate: Fate): Files {
    match fate
    case UnlinkFailed => files
    case RestoreFailed => files - {Named(c.target)}
    case _ => UndoOne(files, c)
  }

  /** The list undone last entry first, each entry as its own fate says. */
  function UndoAs(files: Files, completed: seq<Completed>, fates: seq<Fate>): Files
    requires |fates| == |completed|
    decreases |completed|
  {
    var n := |completed| - 1;
    if n < 0 then files else UndoAs(UndoneAs(files, completed[n], fates[n]), completed[..n], fates[..n])
  }

  function Failed(fates: seq<Fate>): nat {
    if |fates| == 0 then 0 else (if fates[0] == Clean then 0 else 1) + Failed(fates[1..])
  }

  lemma {:induction false} UndoOneMore(files: Files, c: Completed, later: seq<Completed>, fate: Fate, fates: seq<Fate>)
    requires |fates| == |later|
    ensures UndoAs(files, [c] + later, [fate] + fates) == UndoneAs(UndoAs(files, later, fates), c, fate)
    decreases |later|
  {
    var n := |later|;
    if n == 0 {
      assert [c] + later == [c] && [fate] + fates == [fate];
      assert [c][..0] == [] && [fate][..0] == [];
    } else {
      assert ([c] + later)[..n] == [c] + later[..n - 1] && ([fate] + fates)[..n] == [fate] + fates[..n - 1];
      UndoOneMore(UndoneAs(files, later[n - 1], fates[n - 1]), c, later[..n - 1], fate, fates[..n - 1]);
    }
  }

  lemma NothingUndone(files: Files, completed: seq<Completed>)
    ensures UndoAs(files, completed[|completed|..], []) == files
  {
  }

  /** Entries that all go cleanly are the whole undo. */
  lemma {:induction false} CleanUndo(files: Files, completed: seq<Completed>, fates: seq<Fate>)
    requires |fates| == |completed| && Failed(fates) == 0
    ensures UndoAs(files, completed, fates) == Undo(files, completed)
    decreases |completed|
  {
    var n := |completed| - 1;
    if n >= 0 {
      FailedSplits(fates);
      CleanUndo(UndoneAs(files, completed[n], fates[n]), completed[..n], fates[..n]);
    }
  }

  lemma {:induction false} FailedSplits(fates: seq<Fate>)
    requires |fates| > 0
    ensures Failed(fates) == Failed(fates[..|fates| - 1]) + if fates[|fates| - 1] == Clean then 0 else 1
  {
    if |fates| > 1 {
      FailedSplits(fates[1..]);
      assert fates[1..][..|fates| - 2] == fates[..|fates| - 1][1..];
    } else {
      assert fates[..0] == [] && fates[1..] == [];
    }
  }

  /** The files without the staged names `lo..hi`. */
  function Unstage(files: Files, lo: nat, hi: nat): Files {
    files - (set k | lo <= k < hi :: Temp(k))
  }

  /** A staged file that is no backup of the list can be dropped before or after undoing. */
  lemma {:induction false} UndoIgnoresStaged(files: Files, completed: seq<Completed>, k: nat)
    requires forall c :: c in completed ==> c.backup != Some(k)
    ensures Undo(files - {Temp(k)}, completed) == Undo(files, completed) - {Temp(k)}
    decreases |completed|
  {
    if |completed| > 0 {
      var c := completed[|completed| - 1];
      assert c in completed;
      assert UndoOne(files - {Temp(k)}, c) == UndoOne(files, c) - {Temp(k)};
      UndoIgnoresStaged(UndoOne(files, c), completed[..|completed| - 1], k);
    }
  }

  /** Moving the old file aside, or finding none, is undone by its own entry. */
  lemma UndoBackup(files: Files, completed: seq<Completed>, target: string, backup: nat)
    requires Temp(backup) !in files
    ensures Named(target) in files ==>
              Undo(Moved(files, Named(target), Temp(backup)), completed + [Completed(target, Some(backup))]) == Undo(files, completed)
    ensures Named(target) !in files ==>
              Undo(files, completed + [Completed(target, None)]) == Undo(files, completed)
  {
    var c := Completed(target, if Named(target) in files then Some(backup) else None);
    var aside := if Named(target) in files then Moved(files, Named(target), Temp(backup)) else files;
    assert UndoOne(aside, c) == files;
    assert (completed + [c])[..|completed|] == completed;
  }

  /** Installing a staged file over its target is undone by that target's entry. */
  lemma UndoReplacement(files: Files, completed: seq<Completed>, staged: nat)
    requires |completed| > 0 && Temp(staged) in files
    requires forall c :: c in completed ==> c.backup != Some(staged)
    ensures Undo(Moved(files, Temp(staged), Named(completed[|completed| - 1].target)), completed)
            == Undo(files, completed) - {Temp(staged)}
  {
    var c := completed[|completed| - 1];
    assert c in completed;
    assert UndoOne(Moved(files, Temp(staged), Named(c.target)), c) == UndoOne(files, c) - {Temp(staged)};
    UndoIgnoresStaged(UndoOne(files, c), completed[..|completed| - 1], staged);
  }

  /**
   Why the order is reversed: for a target installed twice, undoing forwards ends with the
   first artifact in place of the original, and undoing backwards restores the original.
   */
  lemma RepeatedTargetNeedsReverseOrder(target: string, original: string, first: string, second: string, b1: nat, b2: nat)
    requires b1 != b2 && first != original
    ensures var done := [Completed(target, Some(b1)), Completed(target, Some(b2))];
            var files := map[Named(target) := second, Temp(b1) := original, Temp(b2) := first];
            && Undo(files, done) == map[Named(target) := original]
            && UndoForward(files, done) == map[Named(target) := first]
  {
    var c1, c2 := Completed(target, Some(b1)), Completed(target, Some(b2));
    var files := map[Named(target) := second, Temp(b1) := original, Temp(b2) := first];
    assert [c1, c2][..1] == [c1] && [c1][..0] == [] && [c1, c2][1..] == [c2] && [c2][1..] == [];
    assert UndoOne(files, c2) == map[Named(target) := first, Temp(b1) := original];
    assert UndoOne(files, c1) == map[Named(target) := original, Temp(b2) := first];
    assert UndoOne(UndoOne(files, c2), c1) == map[Named(target) := original];
    assert UndoOne(UndoOne(files, c1), c2) == map[Named(target) := first];
    assert Undo(files, [c1, c2]) == Undo(UndoOne(files, c2), [c1]);
    assert UndoForward(files, [c1, c2]) == UndoForward(UndoOne(files, c1), [c2]);
  }

  predicate DistinctTargets(completed: seq<Completed>) {
    && (forall i, j :: 0 <= i < j < |completed| ==> completed[i].target != completed[j].target)
    && (forall i, j :: 0 <= i < j < |completed| && completed[i].backup.Some? ==> completed[i].backup != completed[j].backup)
  }

  /** Without repeated targets both orders agree. */
  lemma {:induction false} DistinctTargetsUndoInAnyOrder(files: Files, completed: seq<Completed>)
    requires DistinctTargets(completed)
    ensures UndoForward(files, completed) == Undo(files, completed)
    decreases |completed|
  {
    if |completed| > 0 {
      DistinctTargetsUndoInAnyOrder(UndoOne(files, completed[0]), completed[1..]);
      UndoFirstLast(files, completed);
    }
  }

  lemma {:induction false} UndoFirstLast(files: Files, completed: seq<Completed>)
    requires |completed| > 0 && DistinctTargets(completed)
    ensures Undo(UndoOne(files, completed[0]), completed[1..]) == Undo(files, completed)
    decreases |completed|
  {
    var n := |completed| - 1;
    if n == 0 {
      assert completed[..0] == [];
    } else {
      var first, last := completed[0], completed[n];
      assert UndoOne(UndoOne(files, first), last) == UndoOne(UndoOne(files, last), first);
      assert completed[1..][..n - 1] == completed[..n][1..];
      UndoFirstLast(UndoOne(files, last), completed[..n]);
    }
  }

  predicate StagedAt(files: Files, id: nat, a: Artifact) {
    Temp(id) in files && files[Temp(id)] == a.content
  }

  /** Every tracked backup has its own private name, taken after all staged ones. */
  predicate Tracked(completed: seq<Completed>, end: nat) {
    forall c :: c in completed && c.backup.Some? ==> end <= c.backup.value
  }

  /** Named files and older private files are as in `goal`; newer private files are backups. */
  ghost predicate Landed(files: Files, goal: Files, first: nat, completed: seq<Completed>, end: nat) {
    && (forall n :: Named(n) in files <==> Named(n) in goal)
    && (forall n :: Named(n) in files ==> files[Named(n)] == goal[Named(n)])
    && (forall k: nat :: k < first ==> (Temp(k) in files <==> Temp(k) in goal))
    && (forall k: nat :: k < first && Temp(k) in files ==> files[Temp(k)] == goal[Temp(k)])
    && (forall k: nat :: Temp(k) in files && end <= k ==> exists c :: c in completed && c.backup == Some(k))
  }

  /** Undoing the list and dropping the staged files gives back the initial files. */
  ghost predicate Reversible(files: Files, completed: seq<Completed>, base: Files, first: nat, end: nat) {
    && Unstage(Undo(files, completed), first, end) == base
    && Tracked(completed, end)
  }

  /** The loop state after `i` artifacts. */
  ghost predicate Progress(files: Files, completed: seq<Completed>, artifacts: seq<Artifact>, i: nat, base: Files, first: nat)
    requires i <= |artifacts|
  {
    && Reversible(files, completed, base, first, first + |artifacts|)
    && Landed(files, Overlay(base, artifacts[..i]), first, completed, first + |artifacts|)
    && forall j :: i <= j < |artifacts| ==> StagedAt(files, first + j, artifacts[j])
  }

  /** The files and rollback list once the old file is out of the way. */
  function Aside(files: Files, target: string, backup: nat): Files {
    if Named(target) in files then Moved(files, Named(target), Temp(backup)) else files
  }

  function EntryFor(files: Files, target: string, backup: nat): Completed {
    Completed(target, if Named(target) in files then Some(backup) else None)
  }

  lemma AsideIsReversible(files: Files, completed: seq<Completed>, target: string, backup: nat, base: Files, first: nat, end: nat)
    requires Reversible(files, completed, base, first, end) && end <= backup && Temp(backup) !in files
    ensures Reversible(Aside(files, target, backup), completed + [EntryFor(files, target, backup)], base, first, end)
  {
    hide Undo;
    UndoBackup(files, completed, target, backup);
  }

  lemma ReplacementIsReversible(files: Files, completed: seq<Completed>, staged: nat, base: Files, first: nat, end: nat)
    requires |completed| > 0 && first <= staged < end && Temp(staged) in files
    requires Reversible(files, completed, base, first, end)
    ensures Reversible(Moved(files, Temp(staged), Named(completed[|completed| - 1].target)), completed, base, first, end)
  {
    hide Undo;
    UndoReplacement(files, completed, staged);
    var undone := Undo(files, completed);
    assert Unstage(undone - {Temp(staged)}, first, end) == Unstage(undone, first, end);
  }

  lemma StepLands(files: Files, completed: seq<Completed>, artifacts: seq<Artifact>, i: nat, base: Files, first: nat, backup: nat)
    requires i < |artifacts| && first + |artifacts| <= backup && Temp(backup) !in files
    requires Progress(files, completed, artifacts, i, base, first)
    ensures var a, end := artifacts[i], first + |artifacts|;
            var done := Moved(Aside(files, a.path, backup), Temp(first + i), Named(a.path));
            && Landed(done, Overlay(base, artifacts[..i + 1]), first, completed + [EntryFor(files, a.path, backup)], end)
            && forall j :: i < j < |artifacts| ==> StagedAt(done, first + j, artifacts[j])
  {
    hide Reversible;
    var a, end := artifacts[i], first + |artifacts|;
    var entry := EntryFor(files, a.path, backup);
    var done := Moved(Aside(files, a.path, backup), Temp(first + i), Named(a.path));
    assert artifacts[..i + 1][..i] == artifacts[..i];
    assert StagedAt(files, first + i, artifacts[i]);
    forall k: nat | Temp(k) in done && end <= k
      ensures exists c :: c in completed + [entry] && c.backup == Some(k)
    {
      if k == backup && entry.backup == Some(k) {
        assert entry in completed + [entry];
      } else {
        assert Temp(k) in files;
        var c :| c in completed && c.backup == Some(k);
        assert c in completed + [entry];
      }
    }
  }

  /** The private names of the tracked backups. */
  function Backups(completed: seq<Completed>): set<Path> {
    set c | c in completed && c.backup.Some? :: Temp(c.backup.value)
  }

  /** After a full pass, dropping staged and backup files leaves exactly the overlay. */
  lemma FullPassIsOverlay(files: Files, completed: seq<Completed>, artifacts: seq<Artifact>, base: Files, first: nat)
    requires Progress(files, completed, artifacts, |artifacts|, base, first)
    requires forall k: nat :: Temp(k) in base ==> k < first
    ensures Unstage(files, first, first + |artifacts|) - Backups(completed) == Overlay(base, artifacts)
  {
    hide Undo;
    var end := first + |artifacts|;
    assert artifacts[..|artifacts|] == artifacts;
    var cleaned, goal := Unstage(files, first, end) - Backups(completed), Overlay(base, artifacts);
    forall p
      ensures p in cleaned <==> p in goal
      ensures p in cleaned ==> cleaned[p] == goal[p]
    {
      match p
      case Named(n) =>
      case Temp(k) => if k >= first { OverlayKeepsOthers(base, artifacts, p); }
    }
  }

  /** What a full pass left at the targets verifies exactly when the artifacts agree. */
  lemma FullPassVerifies(files: Files, completed: seq<Completed>, artifacts: seq<Artifact>, base: Files, first: nat)
    requires Progress(files, completed, artifacts, |artifacts|, base, first)
    ensures (forall a :: a in artifacts ==> Holds(files, a)) <==> Consistent(artifacts)
  {
    hide Reversible, Consistent;
    assert artifacts[..|artifacts|] == artifacts;
    OverlayHoldsExactlyWhenConsistent(base, artifacts);
    assert forall a :: Holds(files, a) <==> Holds(Overlay(base, artifacts), a);
  }

  /** `files` is `base` with artifact `i` staged under the name `first + i`. */
  ghost predicate Staged(files: Files, artifacts: seq<Artifact>, base: Files, first: nat, staged: nat) {
    && staged <= |artifacts|
    && Unstage(files, first, first + staged) == base
    && (forall i :: 0 <= i < staged ==> StagedAt(files, first + i, artifacts[i]))
    && (forall k: nat :: Temp(k) in base ==> k < first)
  }

  lemma StagedIsProgress(files: Files, artifacts: seq<Artifact>, base: Files, first: nat)
    requires Staged(files, artifacts, base, first, |artifacts|)
    ensures Progress(files, [], artifacts, 0, base, first) && Kept(files, [], base)
  {
    forall p: Path | p.Named? || p.id < first
      ensures p in files <==> p in base
      ensures p in files ==> files[p] == base[p]
    {
      assert p in files <==> p in Unstage(files, first, first + |artifacts|);
    }
    assert artifacts[..0] == [];
    forall n | Named(n) in base
      ensures !Touched([], n) && HoldsAt(files, Named(n), base[Named(n)])
    {
    }
  }

  // ----- Nothing is lost when a rollback stays incomplete -----

  predicate FirstFor(completed: seq<Completed>, n: string, q: nat) {
    && q < |completed| && completed[q].target == n
    && forall i :: 0 <= i < q ==> completed[i].target != n
  }

  predicate HoldsAt(files: Files, p: Path, content: string) {
    p in files && files[p] == content
  }

  /** The first entry for this name still has the original content in its backup. */
  ghost predicate BackedUp(files: Files, completed: seq<Completed>, n: string, content: string) {
    exists q: nat :: FirstFor(completed, n, q) && completed[q].backup.Some?
                && HoldsAt(files, Temp(completed[q].backup.value), content)
  }

  predicate Touched(completed: seq<Completed>, n: string) {
    exists i :: 0 <= i < |completed| && completed[i].target == n
  }

  predicate UniqueBackups(completed: seq<Completed>) {
    forall i, j :: 0 <= i < j < |completed| && completed[i].backup.Some? ==> completed[i].backup != completed[j].backup
  }

  /** While replacing: an original is in place, or behind the first entry for its name. */
  ghost predicate Kept(files: Files, completed: seq<Completed>, base: Files) {
    && UniqueBackups(completed)
    && (forall i :: 0 <= i < |completed| && completed[i].backup.Some? ==> Temp(completed[i].backup.value) in files)
    && forall n {:trigger Touched(completed, n)} :: Named(n) in base ==>
         || BackedUp(files, completed, n, base[Named(n)])
         || (!Touched(completed, n) && HoldsAt(files, Named(n), base[Named(n)]))
  }

  /** A private file outside the list and the staged range that holds this content. */
  ghost predicate Stranded(files: Files, completed: seq<Completed>, content: string, end: nat) {
    exists k: nat :: end <= k && HoldsAt(files, Temp(k), content)
                     && forall i :: 0 <= i < |completed| ==> completed[i].backup != Some(k)
  }

  /** While rolling back the rest of a list: an original may also be left in a backup. */
  ghost predicate Recoverable(files: Files, completed: seq<Completed>, base: Files, end: nat) {
    && UniqueBackups(completed) && Tracked(completed, end)
    && forall n {:trigger Touched(completed, n)} :: Named(n) in base ==>
         || BackedUp(files, completed, n, base[Named(n)])
         || (!Touched(completed, n)
             && (HoldsAt(files, Named(n), base[Named(n)]) || Stranded(files, completed, base[Named(n)], end)))
  }

  /** Every original is in place or in a private file that no cleanup removes. */
  ghost predicate NothingLost(files: Files, base: Files, end: nat) {
    forall n :: Named(n) in base ==>
      || HoldsAt(files, Named(n), base[Named(n)])
      || exists k: nat :: end <= k && HoldsAt(files, Temp(k), base[Named(n)])
  }

  lemma AsideKeeps(files: Files, completed: seq<Completed>, base: Files, target: string, backup: nat)
    requires Kept(files, completed, base) && Temp(backup) !in files
    ensures Kept(Aside(files, target, backup), completed + [EntryFor(files, target, backup)], base)
  {
    var files', completed' := Aside(files, target, backup), completed + [EntryFor(files, target, backup)];
    var m := |completed|;
    forall n | Named(n) in base
      ensures || BackedUp(files', completed', n, base[Named(n)])
              || (!Touched(completed', n) && HoldsAt(files', Named(n), base[Named(n)]))
    {
      if BackedUp(files, completed, n, base[Named(n)]) {
        var q: nat :| FirstFor(completed, n, q) && completed[q].backup.Some?
                 && HoldsAt(files, Temp(completed[q].backup.value), base[Named(n)]);
        assert FirstFor(completed', n, q) && completed'[q] == completed[q];
      } else {
        assert !Touched(completed, n);
        if n == target {
          assert FirstFor(completed', n, m);
        } else {
          assert completed'[m].target != n;
          assert !Touched(completed', n);
        }
      }
    }
  }

  lemma ReplacementKeeps(files: Files, completed: seq<Completed>, base: Files, staged: nat, end: nat)
    requires Kept(files, completed, base) && Tracked(completed, end) && staged < end && |completed| > 0
    ensures Kept(Moved(files, Temp(staged), Named(completed[|completed| - 1].target)), completed, base)
  {
    var c := completed[|completed| - 1];
    var files' := Moved(files, Temp(staged), Named(c.target));
    forall i | 0 <= i < |completed| && completed[i].backup.Some?
      ensures Temp(completed[i].backup.value) in files'
      ensures files'[Temp(completed[i].backup.value)] == files[Temp(completed[i].backup.value)]
    {
      assert completed[i] in completed;
    }
    forall n | Named(n) in base
      ensures || BackedUp(files', completed, n, base[Named(n)])
              || (!Touched(completed, n) && HoldsAt(files', Named(n), base[Named(n)]))
    {
      if BackedUp(files, completed, n, base[Named(n)]) {
        var q: nat :| FirstFor(completed, n, q) && completed[q].backup.Some?
                      && HoldsAt(files, Temp(completed[q].backup.value), base[Named(n)]);
        assert HoldsAt(files', Temp(completed[q].backup.value), base[Named(n)]);
      } else {
        assert !Touched(completed, n) && completed[|completed| - 1] == c;
      }
    }
  }

  /** Every listed backup exists, and none is listed twice. */
  predicate Backed(files: Files, completed: seq<Completed>) {
    && UniqueBackups(completed)
    && forall i :: 0 <= i < |completed| && completed[i].backup.Some? ==> Temp(completed[i].backup.value) in files
  }

  lemma UndoKeepsBacked(files: Files, completed: seq<Completed>, fate: Fate)
    requires Backed(files, completed) && |completed| > 0
    ensures Backed(UndoneAs(files, completed[|completed| - 1], fate), completed[..|completed| - 1])
  {
  }

  /**
   Carrying on past failures: the oldest entry for a target decides what is left there. If its own
   undo got past the rename, the target is what it was before that entry was made, whatever failed
   before or after.
   */
  lemma {:induction false} FirstEntryDecides(files: Files, completed: seq<Completed>, fates: seq<Fate>, i: nat)
    requires |fates| == |completed| && Backed(files, completed) && i < |completed|
    requires FirstFor(completed, completed[i].target, i) && (fates[i] == Clean || fates[i] == SyncFailed)
    ensures var after, c := UndoAs(files, completed, fates), completed[i];
            match c.backup
            case None => Named(c.target) !in after
            case Some(k) => HoldsAt(after, Named(c.target), files[Temp(k)])
    decreases |completed|
  {
    var n, c := |completed| - 1, completed[i];
    var next := UndoneAs(files, completed[n], fates[n]);
    UndoKeepsBacked(files, completed, fates[n]);
    if i < n {
      assert FirstFor(completed[..n], c.target, i);
      assert c.backup.Some? ==> HoldsAt(next, Temp(c.backup.value), files[Temp(c.backup.value)]);
      FirstEntryDecides(next, completed[..n], fates[..n], i);
    } else {
      OtherTargetsStay(next, completed[..n], fates[..n], c.target);
    }
  }

  lemma {:induction false} OtherTargetsStay(files: Files, completed: seq<Completed>, fates: seq<Fate>, n: string)
    requires |fates| == |completed| && !Touched(completed, n)
    ensures var after := UndoAs(files, completed, fates);
            (Named(n) in after <==> Named(n) in files) && (Named(n) in files ==> after[Named(n)] == files[Named(n)])
    decreases |completed|
  {
    var m := |completed| - 1;
    if m >= 0 {
      assert completed[m].target != n;
      assert !Touched(completed[..m], n);
      OtherTargetsStay(UndoneAs(files, completed[m], fates[m]), completed[..m], fates[..m], n);
    }
  }

  /** Whatever part of one undo took effect, the originals stay recoverable. */
  lemma UndoKeepsRecoverable(files: Files, completed: seq<Completed>, base: Files, end: nat, files': Files)
    requires Recoverable(files, completed, base, end) && |completed| > 0
    requires var c := completed[|completed| - 1];
             || files' == files
             || files' == files - {Named(c.target)}
             || files' == UndoOne(files, c)
    ensures Recoverable(files', completed[..|completed| - 1], base, end)
  {
    var m := |completed| - 1;
    var c, rest := completed[m], completed[..m];
    assert c in completed;
    assert Tracked(rest, end) by {
      forall d | d in rest ensures d in completed {}
    }
    forall n | Named(n) in base
      ensures || BackedUp(files', rest, n, base[Named(n)])
              || (!Touched(rest, n)
                  && (HoldsAt(files', Named(n), base[Named(n)]) || Stranded(files', rest, base[Named(n)], end)))
    {
      UndoKeepsOriginal(files, completed, base[Named(n)], end, files', n);
    }
  }

  lemma UndoKeepsOriginal(files: Files, completed: seq<Completed>, content: string, end: nat, files': Files, n: string)
    requires |completed| > 0 && UniqueBackups(completed) && Tracked(completed, end)
    requires || BackedUp(files, completed, n, content)
             || (!Touched(completed, n) && (HoldsAt(files, Named(n), content) || Stranded(files, completed, content, end)))
    requires var c := completed[|completed| - 1];
             || files' == files
             || files' == files - {Named(c.target)}
             || files' == UndoOne(files, c)
    ensures var rest := completed[..|completed| - 1];
            || BackedUp(files', rest, n, content)
            || (!Touched(rest, n) && (HoldsAt(files', Named(n), content) || Stranded(files', rest, content, end)))
  {
    var m := |completed| - 1;
    var c, rest := completed[m], completed[..m];
    if BackedUp(files, completed, n, content) {
      var q: nat :| FirstFor(completed, n, q) && completed[q].backup.Some?
               && HoldsAt(files, Temp(completed[q].backup.value), content);
      var k := completed[q].backup.value;
      assert completed[q] in completed;
      if q < m {
        assert FirstFor(rest, n, q) && rest[q].backup == Some(k);
        assert completed[q].backup != c.backup;
        assert HoldsAt(files', Temp(k), content);
      } else {
        assert !Touched(rest, n);
        if files' != UndoOne(files, c) {
          assert HoldsAt(files', Temp(k), content);
          assert Stranded(files', rest, content, end);
        }
      }
    } else {
      assert completed[m].target != n;
      assert !Touched(rest, n);
      if !HoldsAt(files, Named(n), content) {
        var k: nat :| end <= k && HoldsAt(files, Temp(k), content)
                      && forall i :: 0 <= i < |completed| ==> completed[i].backup != Some(k);
        assert HoldsAt(files', Temp(k), content);
      }
    }
  }

  lemma KeptIsRecoverable(files: Files, completed: seq<Completed>, base: Files, end: nat)
    requires Kept(files, completed, base) && Tracked(completed, end)
    ensures Recoverable(files, completed, base, end) && Backed(files, completed)
  {
    hide BackedUp, Stranded;
    forall n | Named(n) in base
      ensures || BackedUp(files, completed, n, base[Named(n)])
              || (!Touched(completed, n) && HoldsAt(files, Named(n), base[Named(n)]))
    {
      assert Touched(completed, n) || !Touched(completed, n);
    }
  }

  lemma RecoverableAtTheEnd(files: Files, base: Files, end: nat)
    requires Recoverable(files, [], base, end)
    ensures NothingLost(files, base, end)
  {
    forall n | Named(n) in base
      ensures || HoldsAt(files, Named(n), base[Named(n)])
              || exists k: nat :: end <= k && HoldsAt(files, Temp(k), base[Named(n)])
    {
      assert !Touched([], n);
    }
  }

  lemma UnstagingLosesNothing(files: Files, base: Files, first: nat, staged: nat, end: nat)
    requires NothingLost(files, base, end) && first + staged <= end
    ensures NothingLost(Unstage(files, first, first + staged), base, end)
  {
    var files' := Unstage(files, first, first + staged);
    forall n | Named(n) in base
      ensures || HoldsAt(files', Named(n), base[Named(n)])
              || exists k: nat :: end <= k && HoldsAt(files', Temp(k), base[Named(n)])
    {
      if !HoldsAt(files, Named(n), base[Named(n)]) {
        var k: nat :| end <= k && HoldsAt(files, Temp(k), base[Named(n)]);
        assert HoldsAt(files', Temp(k), base[Named(n)]);
      }
    }
  }
}
