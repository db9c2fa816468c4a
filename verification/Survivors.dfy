/** Who is still there to repair: `boot.py` and `main.py` are targets like any
    other, so a device recovers by itself only while at most one target is absent. */
module Survivors {
  import opened Disks
  import opened Names
  import opened Journals
  import opened Restore
  import opened Healing
  import opened Atomicity
  import opened Limits

  /** The target is gone and only its retained copy is left. */
  predicate Missing(fs: Files, t: Path) { t !in fs && Bck(t) in fs }

  /** The target runs, and a restore would put its retained copy in its place. */
  predicate Replaceable(fs: Files, t: Path) { t in fs && Bck(t) in fs }

  ghost predicate Lone(fs: Files, ts: set<Path>) {
    forall t, u | t in ts && u in ts && Missing(fs, t) && Missing(fs, u) :: t == u
  }

  /** Of the targets that existed, at most one is absent. */
  ghost predicate OneAbsent(was: Files, now: Files, ts: set<Path>) {
    forall t, u | t in ts && u in ts && t in was && u in was && t !in now && u !in now :: t == u
  }

  /* ---- commit ---- */

  lemma EvenIsPresent(was: Files, now: Files, t: Path)
    requires Even(was, now, t) && t in was
    ensures t in now
  {}

  /** A cut inside the step for one target leaves the others present. */
  lemma PlacedOneLeavesOthers(was: Files, d: Disk, ts: set<Path>, s: Staged, journal: Path)
    requires Apart(ts, journal) && d.Sound() && AllEven(was, d.files, ts)
    requires s.staging == Ota(s.target) && (s.staging in d.files ==> s.target in ts)
    ensures OneAbsent(was, PlacedOne(d, s).disk.files, ts)
  {
    var e, t := PlacedOne(d, s).disk.files, s.target;
    PlacedOneFrame(d, s);
    forall u | u in ts && u != t && u in was ensures u in e {
      if s.staging in d.files { EvenStays(was, d.files, e, t, u); }
      EvenIsPresent(was, e, u);
    }
    if s.staging !in d.files && t in ts && t in was { EvenIsPresent(was, e, t); }
  }

  lemma {:induction false} PlacedLeavesOthers(was: Files, d: Disk, cfg: Config, ts: set<Path>, staged: seq<Staged>)
    requires Apart(ts, cfg.journal) && d.Sound() && d.Alive() && AllEven(was, d.files, ts)
    requires forall s | s in staged :: s.staging == Ota(s.target) && (s.staging in d.files ==> s.target in ts)
    ensures OneAbsent(was, Placed(d, staged).disk.files, ts)
    decreases |staged|
  {
    if staged == [] {
      forall t | t in ts && t in was ensures t in d.files { EvenIsPresent(was, d.files, t); }
    } else {
      var one := PlacedOne(d, staged[0]);
      PlacedOneStep(was, d, cfg, ts, staged[0]);
      PlacedOneLeavesOthers(was, d, ts, staged[0], cfg.journal);
      if one.disk.Alive() {
        PlacedLeavesOthers(was, one.disk, cfg, ts, staged[1..]);
      } else if one.ok {
        DeadPlaced(one.disk, staged[1..]);
      }
    }
  }

  /** Cut `commit` anywhere: at most one of the targets that existed is absent. */
  lemma CommitLosesAtMostOne(d: Disk, cfg: Config, staged: seq<Staged>, deletes: seq<Path>)
    requires d.Sound() && Ready(d.files, cfg, staged, deletes)
    ensures OneAbsent(d.files, Committed(d, cfg, staged, deletes).0.files, Targets(StagedTargets(d.files, staged)))
  {
    var was, paths := d.files, StagedTargets(d.files, staged);
    var ts := Targets(paths);
    var d1 := WroteJournal(d, cfg, COMMITTING, paths);
    StagedTargetsAre(was, staged);
    if d1.power == 0 {
      CommitDies(d, cfg, staged, deletes);
    } else {
      CommitStarts(d, cfg, staged, deletes);
      CommitPlaces(d, cfg, staged, deletes);
      PlacedLeavesOthers(was, d1, cfg, ts, staged);
      var p := Placed(d1, staged);
      if p.disk.power == 0 {
        CommitDies(d, cfg, staged, deletes);
      } else {
        DeletedKeeps(was, p.disk, cfg, ts, deletes);
        var e := Committed(d, cfg, staged, deletes).0;
        forall t | t in ts && t in was ensures t in e.files { assert New(was, Deleted(p.disk, deletes).files, t); }
      }
    }
  }

  /* ---- restore_all ---- */

  /** A target that runs stands before one that is missing in the journal's order. */
  ghost predicate RunsBeforeMissing(fs: Files, paths: seq<Path>) {
    exists i, j :: 0 <= i < j < |paths| && Replaceable(fs, paths[i]) && Missing(fs, paths[j])
  }

  /** Restoring one target leaves the others as they were. */
  lemma RestoredOneElsewhere(d: Disk, t: Path, u: Path)
    requires t != u && !IsBck(t) && !IsBck(u)
    ensures SameAt(d.files, RestoredOne(d, t).files, u)
  {
    OtherNames(t, u);
  }

  /** Every target that is missing is one of those still to come. */
  ghost predicate AheadOnly(fs: Files, ts: set<Path>, paths: seq<Path>) {
    forall t | t in ts && Missing(fs, t) :: t in paths
  }

  /** `g` differs from `f` at one target at most. */
  ghost predicate OnlyTarget(f: Files, g: Files, ts: set<Path>, t: Path) {
    forall u | u in ts && u != t :: SameAt(f, g, u)
  }

  lemma OneStepLone(f: Files, g: Files, ts: set<Path>, paths: seq<Path>)
    requires paths != [] && NoDuplicates(paths) && (forall p | p in paths :: p in ts) && OnlyTarget(f, g, ts, paths[0])
    requires Lone(f, ts) && AheadOnly(f, ts, paths) && !RunsBeforeMissing(f, paths)
    requires !Replaceable(f, paths[0]) && !Missing(f, paths[0]) ==> !Missing(g, paths[0])
    ensures Lone(g, ts)
  {
    var t := paths[0];
    forall u | u in ts && u != t && Missing(g, u) ensures !Missing(g, t) {
      assert SameAt(f, g, u);
      assert u in paths && t in paths;
      var j :| 0 <= j < |paths| && paths[j] == u;
      assert Missing(f, paths[j]);
    }
    forall u, v | u in ts && v in ts && Missing(g, u) && Missing(g, v) ensures u == v {
      if u != t && v != t { assert SameAt(f, g, u) && SameAt(f, g, v); }
    }
  }

  lemma OneStepOrder(f: Files, g: Files, ts: set<Path>, paths: seq<Path>)
    requires paths != [] && NoDuplicates(paths) && (forall p | p in paths :: p in ts) && OnlyTarget(f, g, ts, paths[0])
    ensures RunsBeforeMissing(g, paths[1..]) ==> RunsBeforeMissing(f, paths)
  {
    var rest := paths[1..];
    if RunsBeforeMissing(g, rest) {
      var i, j :| 0 <= i < j < |rest| && Replaceable(g, rest[i]) && Missing(g, rest[j]);
      assert rest[i] == paths[i + 1] && rest[j] == paths[j + 1];
      assert rest[i] in paths && rest[j] in paths;
      assert SameAt(f, g, rest[i]) && SameAt(f, g, rest[j]);
      assert Replaceable(f, paths[i + 1]) && Missing(f, paths[j + 1]);
    }
  }

  lemma RestoreOneKeepsLone(d: Disk, ts: set<Path>, paths: seq<Path>)
    requires paths != [] && NoDuplicates(paths) && (forall p | p in paths :: p in ts) && (forall t | t in ts :: !IsBck(t)) && d.Sound()
    requires Lone(d.files, ts) && AheadOnly(d.files, ts, paths) && !RunsBeforeMissing(d.files, paths)
    ensures var e := RestoredOne(d, paths[0]);
            && e.Sound() && Lone(e.files, ts)
            && (e.Alive() ==> AheadOnly(e.files, ts, paths[1..]) && !RunsBeforeMissing(e.files, paths[1..]))
  {
    var t, e := paths[0], RestoredOne(d, paths[0]);
    assert t in paths;
    forall u | u in ts && u != t ensures SameAt(d.files, e.files, u) { RestoredOneElsewhere(d, t, u); }
    RestoredOneHeals(d, ts, t);
    assert !Replaceable(d.files, t) && !Missing(d.files, t) ==> !Missing(e.files, t);
    hide RestoredOne, Lone, AheadOnly, RunsBeforeMissing, NoDuplicates;
    OneStepLone(d.files, e.files, ts, paths);
    if e.Alive() {
      OneStepOrder(d.files, e.files, ts, paths);
    }
  }

  lemma {:induction false} RestoreKeepsLone(d: Disk, ts: set<Path>, paths: seq<Path>)
    requires NoDuplicates(paths) && (forall p | p in paths :: p in ts) && (forall t | t in ts :: !IsBck(t)) && d.Sound()
    requires Lone(d.files, ts) && AheadOnly(d.files, ts, paths) && !RunsBeforeMissing(d.files, paths)
    ensures Lone(RestoredEach(d, paths).files, ts)
    decreases |paths|
  {
    if paths != [] {
      var e := RestoredOne(d, paths[0]);
      RestoreOneKeepsLone(d, ts, paths);
      if e.Alive() {
        RestoreKeepsLone(e, ts, paths[1..]);
      } else {
        DeadRestored(e, paths[1..]);
      }
    }
  }

  /** What one step needs: with that much more power the rest goes on as before. */
  lemma MorePower(d: Disk, t: Path, k: nat) returns (used: nat)
    requires d.Sound() && !IsBck(t)
    ensures RestoredOne(d.Reboot(k + used), t) == RestoredOne(d.Reboot(2), t).Reboot(k)
  {
    used := 2 - RestoredOne(d.Reboot(2), t).power;
    if Bck(t) in d.files {
      var a, b := Removed(d.Reboot(2), t), Removed(d.Reboot(k + used), t);
      assert a.files == b.files && a.power > 0 && b.power > 0;
      assert CanRename(a, Bck(t), t) && CanRename(b, Bck(t), t);
    }
  }

  lemma FirstCut(d: Disk, paths: seq<Path>, u: Path)
    requires paths != [] && Replaceable(d.files, paths[0]) && !IsBck(paths[0])
    requires u != paths[0] && !IsBck(u) && Missing(d.files, u)
    ensures var e := RestoredEach(d.Reboot(1), paths);
            Missing(e.files, paths[0]) && Missing(e.files, u) && e.power == 0
  {
    var t, rest := paths[0], paths[1..];
    var e := RestoredOne(d.Reboot(1), t);
    RestoredOneElsewhere(d.Reboot(1), t, u);
    DeadRestored(e, rest);
    AttemptsGrow(e, rest);
  }

  /** The first step, done in full: what it leaves for the rest of the list. */
  lemma FirstStep(d: Disk, paths: seq<Path>, i: nat, j: nat)
    requires NoDuplicates(paths) && (forall p | p in paths :: !IsBck(p)) && d.Sound()
    requires 0 < i < j < |paths| && Replaceable(d.files, paths[i]) && Missing(d.files, paths[j])
    ensures var e, rest := RestoredOne(d.Reboot(2), paths[0]), paths[1..];
            && !IsBck(paths[0]) && e.Sound() && (forall p | p in rest :: !IsBck(p)) && NoDuplicates(rest)
            && rest[i - 1] == paths[i] && rest[j - 1] == paths[j]
            && Replaceable(e.files, rest[i - 1]) && Missing(e.files, rest[j - 1])
  {
    var t, rest := paths[0], paths[1..];
    assert t in paths && paths[i] in paths && paths[j] in paths;
    forall p | p in rest ensures !IsBck(p) { assert p in paths; }
    assert t != paths[i] && t != paths[j];
    hide *;
  }

  lemma TwoOf(paths: seq<Path>, i: nat, j: nat)
    requires i < j < |paths| && NoDuplicates(paths)
    ensures paths[i] in paths && paths[j] in paths && paths[i] != paths[j]
  {}

  /** The cut just after `paths[i]` has been removed, while `paths[j]` is missing. */
  lemma {:induction false} CutLosesTwo(d: Disk, paths: seq<Path>, i: nat, j: nat) returns (k: nat)
    requires NoDuplicates(paths) && (forall p | p in paths :: !IsBck(p)) && d.Sound()
    requires i < j < |paths| && Replaceable(d.files, paths[i]) && Missing(d.files, paths[j])
    ensures var e := RestoredEach(d.Reboot(k), paths);
            Missing(e.files, paths[i]) && Missing(e.files, paths[j]) && e.power == 0
    decreases |paths|
  {
    hide *;
    if i == 0 {
      TwoOf(paths, 0, j);
      k := 1;
      FirstCut(d, paths, paths[j]);
    } else {
      FirstStep(d, paths, i, j);
      var k' := CutLosesTwo(RestoredOne(d.Reboot(2), paths[0]), paths[1..], i - 1, j - 1);
      var used := MorePower(d, paths[0], k');
      k := k' + used;
      RestoredFirst(d.Reboot(k), paths);
    }
  }

  lemma RestoredFirst(d: Disk, paths: seq<Path>)
    requires paths != []
    ensures RestoredEach(d, paths) == RestoredEach(RestoredOne(d, paths[0]), paths[1..])
  {}

  /** Can a cut restore leave two targets missing at once? */
  ghost predicate SomeCutLosesTwo(d: Disk, cfg: Config) {
    exists k: nat :: !Lone(RestoredAll(d.Reboot(k), cfg).files, Targets(ReadJournal(d.files, cfg.journal).paths))
  }

  lemma RestoredLone(d: Disk, cfg: Config)
    requires d.Sound() && Sane(d.files, cfg.journal) && NoDuplicates(ReadJournal(d.files, cfg.journal).paths)
    requires var paths := ReadJournal(d.files, cfg.journal).paths; Lone(d.files, Targets(paths)) && !RunsBeforeMissing(d.files, paths)
    ensures Lone(RestoredAll(d, cfg).files, Targets(ReadJournal(d.files, cfg.journal).paths))
  {
    var paths := ReadJournal(d.files, cfg.journal).paths;
    var ts := Targets(paths);
    hide NoDuplicates, RunsBeforeMissing;
    assert AheadOnly(d.files, ts, paths);
    RestoreKeepsLone(d, ts, paths);
    hide RestoredEach, ReadJournal;
    JournalAside(RestoredEach(d, paths).files, ts, cfg.journal);
  }

  lemma JournalAside(f: Files, ts: set<Path>, journal: Path)
    requires Apart(ts, journal) && Lone(f, ts)
    ensures Lone(f - {journal}, ts)
  {
    forall t | t in ts ensures Missing(f - {journal}, t) ==> Missing(f, t) {}
  }

  /** The documentation says that at most one of `boot.py` and `main.py` is ever
      absent, so that the survivor restores the set. That is true of `commit`. The
      restore which answers an interrupted commit removes each target before it
      renames: cut there, it leaves a second target missing exactly when some
      target that runs precedes the missing one in the journal. */
  lemma RestoreLosesTwoIff(d: Disk, cfg: Config)
    requires d.Sound() && Sane(d.files, cfg.journal) && NoDuplicates(ReadJournal(d.files, cfg.journal).paths)
    requires Lone(d.files, Targets(ReadJournal(d.files, cfg.journal).paths))
    ensures SomeCutLosesTwo(d, cfg) <==> RunsBeforeMissing(d.files, ReadJournal(d.files, cfg.journal).paths)
  {
    var paths := ReadJournal(d.files, cfg.journal).paths;
    var ts := Targets(paths);
    if RunsBeforeMissing(d.files, paths) {
      var i, j :| 0 <= i < j < |paths| && Replaceable(d.files, paths[i]) && Missing(d.files, paths[j]);
      forall p | p in paths ensures !IsBck(p) { assert p in ts; }
      var k := CutLosesTwo(d, paths, i, j);
      assert paths[i] in ts && paths[j] in ts;
      assert RestoredAll(d.Reboot(k), cfg) == RestoredEach(d.Reboot(k), paths);
      assert !Lone(RestoredAll(d.Reboot(k), cfg).files, ts);
    } else {
      forall k: nat ensures Lone(RestoredAll(d.Reboot(k), cfg).files, ts) { RestoredLone(d.Reboot(k), cfg); }
    }
  }

  /* ---- the two together ---- */

  /** What the update loop builds, seen from the disk. */
  ghost predicate Listed(fs: Files, ts: set<Path>, staged: seq<Staged>) {
    forall s | s in staged :: s.staging == Ota(s.target) && (s.staging in fs ==> s.target in ts)
  }

  /** Once the loop is past its step, a staged file is gone for good. */
  lemma StagingGone(was: Files, d: Disk, cfg: Config, ts: set<Path>, staged: seq<Staged>)
    requires Apart(ts, cfg.journal) && d.Sound() && d.Alive() && AllEven(was, d.files, ts) && staged != [] && Listed(d.files, ts, staged)
    requires PlacedOne(d, staged[0]).disk.Alive()
    ensures staged[0].staging !in Placed(d, staged).disk.files
  {
    var one := PlacedOne(d, staged[0]);
    assert staged[0] in staged;
    PlacedOneStep(was, d, cfg, ts, staged[0]);
    PlacedSteps(was, one.disk, cfg, ts, staged[1..]);
  }

  /** Placing goes on with the rest of the list exactly while there is power. */
  lemma LaterPlaced(was: Files, d: Disk, cfg: Config, ts: set<Path>, staged: seq<Staged>)
    requires Apart(ts, cfg.journal) && d.Sound() && d.Alive() && AllEven(was, d.files, ts) && staged != [] && Listed(d.files, ts, staged)
    requires PlacedOne(d, staged[0]).disk.Alive()
    ensures var e := PlacedOne(d, staged[0]).disk;
            && e.Sound() && AllEven(was, e.files, ts) && Listed(e.files, ts, staged[1..])
            && staged[0].staging !in e.files && Placed(d, staged).disk == Placed(e, staged[1..]).disk
  {
    assert staged[0] in staged;
    PlacedOneStep(was, d, cfg, ts, staged[0]);
  }

  /** The set is placed in order: while one staged file waits, the later targets
      have not been begun. */
  lemma {:induction false} PlacedInOrder(was: Files, d: Disk, cfg: Config, ts: set<Path>, staged: seq<Staged>, i: nat, j: nat)
    requires Apart(ts, cfg.journal) && d.Sound() && d.Alive() && AllEven(was, d.files, ts) && Listed(d.files, ts, staged)
    requires i < j < |staged| && (forall k | 0 <= k < j :: staged[k].target != staged[j].target) && staged[j].target in ts
    requires staged[i].staging in Placed(d, staged).disk.files
    ensures Even(was, Placed(d, staged).disk.files, staged[j].target)
    decreases |staged|
  {
    hide *;
    var e, rest := PlacedOne(d, staged[0]).disk, staged[1..];
    if e.power == 0 {
      DeadInOrder(was, d, ts, staged, staged[j].target, cfg.journal);
    } else {
      AliveIsPowered(e);
      if i == 0 { StagingGone(was, d, cfg, ts, staged); }
      LaterPlaced(was, d, cfg, ts, staged);
      if i > 0 {
        assert rest[i - 1] == staged[i] && rest[j - 1] == staged[j];
        PlacedInOrder(was, e, cfg, ts, rest, i - 1, j - 1);
      }
    }
  }

  lemma AliveIsPowered(d: Disk)
    ensures d.Alive() <==> d.power > 0
  {}

  lemma DeadInOrder(was: Files, d: Disk, ts: set<Path>, staged: seq<Staged>, u: Path, journal: Path)
    requires Apart(ts, journal) && d.Sound() && AllEven(was, d.files, ts) && staged != [] && Listed(d.files, ts, staged)
    requires u in ts && u != staged[0].target && PlacedOne(d, staged[0]).disk.power == 0
    ensures Even(was, Placed(d, staged).disk.files, u)
  {
    var s := staged[0];
    var one := PlacedOne(d, s);
    assert s in staged;
    PlacedOneFrame(d, s);
    if s.staging in d.files { EvenStays(was, d.files, one.disk.files, s.target, u); }
    DeadPlaced(one.disk, staged[1..]);
  }

  lemma PlacedIsNew(was: Files, now: Files, t: Path)
    requires Half(was, now, t) && Ota(t) !in now
    ensures New(was, now, t)
  {}

  /** The retained set in manifest order: every file staged, no target twice. */
  ghost predicate Complete(fs: Files, staged: seq<Staged>) {
    && (forall s | s in staged :: s.staging in fs)
    && (forall i, j | 0 <= i < j < |staged| :: staged[i].target != staged[j].target)
  }

  lemma {:induction false} CompleteTargets(fs: Files, staged: seq<Staged>)
    requires forall s | s in staged :: s.staging in fs
    ensures |StagedTargets(fs, staged)| == |staged|
    ensures forall i | 0 <= i < |staged| :: StagedTargets(fs, staged)[i] == staged[i].target
  {
    if staged != [] {
      assert staged[0] in staged;
      CompleteTargets(fs, staged[1..]);
    }
  }

  /** A commit cut while target `j` is absent: everything before it is new. */
  lemma EarlierAreNew(d: Disk, cfg: Config, staged: seq<Staged>, deletes: seq<Path>, i: nat, j: nat)
    requires d.Sound() && Ready(d.files, cfg, staged, deletes) && Complete(d.files, staged)
    requires i < j < |staged| && staged[j].target in d.files
    requires var d1 := WroteJournal(d, cfg, COMMITTING, StagedTargets(d.files, staged));
             d1.Alive() && staged[j].target !in Placed(d1, staged).disk.files
    ensures var d1 := WroteJournal(d, cfg, COMMITTING, StagedTargets(d.files, staged));
            New(d.files, Placed(d1, staged).disk.files, staged[i].target)
  {
    var was, paths := d.files, StagedTargets(d.files, staged);
    var d1, ts := WroteJournal(d, cfg, COMMITTING, paths), Targets(paths);
    var f := Placed(d1, staged).disk.files;
    StagedTargetsAre(was, staged);
    CompleteTargets(was, staged);
    assert staged[i] in staged && staged[j] in staged && paths[i] in ts && paths[j] in ts;
    CommitStarts(d, cfg, staged, deletes);
    PlacedSteps(was, d1, cfg, ts, staged);
    if staged[i].staging in f {
      PlacedInOrder(was, d1, cfg, ts, staged, i, j);
      EvenIsPresent(was, f, staged[j].target);
    }
    PlacedIsNew(was, f, staged[i].target);
  }

  /** What is known of a commit that was cut while target `j` is absent. */
  lemma CutAt(d: Disk, cfg: Config, staged: seq<Staged>, deletes: seq<Path>, j: nat)
    requires d.Sound() && d.Alive() && Ready(d.files, cfg, staged, deletes) && Complete(d.files, staged)
    requires j < |staged| && staged[j].target in d.files && staged[j].target !in Committed(d, cfg, staged, deletes).0.files
    ensures var c := Committed(d, cfg, staged, deletes).0;
            && c.Sound() && Midway(d.files, c.files, cfg, StagedTargets(d.files, staged), deletes)
            && forall i | 0 <= i < j :: New(d.files, c.files, staged[i].target)
  {
    CompleteTargets(d.files, staged);
    assert StagedTargets(d.files, staged)[j] in StagedTargets(d.files, staged);
    hide Committed, Placed, WroteJournal, Midway, NewWhole, New, StagedTargets, Ready, Complete;
    CommitCut(d, cfg, staged, deletes);
    CutWhilePlacing(d, cfg, staged, deletes, staged[j].target);
    var c := Committed(d, cfg, staged, deletes).0;
    forall i | 0 <= i < j ensures New(d.files, c.files, staged[i].target) { EarlierAreNew(d, cfg, staged, deletes, i, j); }
  }

  lemma Usable(fs: Files, cfg: Config, staged: seq<Staged>, deletes: seq<Path>)
    requires Ready(fs, cfg, staged, deletes) && Complete(fs, staged)
    ensures var paths := StagedTargets(fs, staged);
            && Apart(Targets(paths), cfg.journal) && NoDuplicates(paths)
            && |paths| == |staged| && forall i | 0 <= i < |staged| :: paths[i] == staged[i].target
  {
    CompleteTargets(fs, staged);
  }

  /** Cut the commit while target `j` is absent, then cut the repair: both can be
      missing, and no program left to repair them, exactly when some target listed
      before `j` existed. */
  lemma RepairAfterCutLosesTwoIff(d: Disk, cfg: Config, staged: seq<Staged>, deletes: seq<Path>, j: nat)
    requires d.Sound() && d.Alive() && Ready(d.files, cfg, staged, deletes) && Complete(d.files, staged)
    requires Fresh(d.files, Targets(StagedTargets(d.files, staged)))
    requires j < |staged| && staged[j].target in d.files && staged[j].target !in Committed(d, cfg, staged, deletes).0.files
    ensures var c := Committed(d, cfg, staged, deletes).0;
            && ReadJournal(c.files, cfg.journal).state == Committing
            && (SomeCutLosesTwo(c, cfg) <==> exists i :: 0 <= i < j && staged[i].target in d.files)
  {
    hide *;
    var was, paths := d.files, StagedTargets(d.files, staged);
    var c := Committed(d, cfg, staged, deletes).0;
    Usable(was, cfg, staged, deletes);
    CommitLosesAtMostOne(d, cfg, staged, deletes);
    CutAt(d, cfg, staged, deletes, j);
    MidwayCommitting(was, c.files, cfg, paths, deletes);
    LosesTwoByOrder(was, c, cfg, paths, deletes, j);
  }

  lemma MidwayCommitting(was: Files, now: Files, cfg: Config, paths: seq<Path>, deletes: seq<Path>)
    requires Midway(was, now, cfg, paths, deletes)
    ensures ReadJournal(now, cfg.journal).state == Committing
  {}

  /** A commit that got past placing the set has every target in place. */
  lemma PastPlacing(d: Disk, cfg: Config, staged: seq<Staged>, deletes: seq<Path>, t: Path)
    requires d.Sound() && d.Alive() && Ready(d.files, cfg, staged, deletes) && t in StagedTargets(d.files, staged)
    requires var d1 := WroteJournal(d, cfg, COMMITTING, StagedTargets(d.files, staged)); d1.Alive() && Placed(d1, staged).disk.Alive()
    ensures t in Committed(d, cfg, staged, deletes).0.files
  {
    var was, paths := d.files, StagedTargets(d.files, staged);
    var ts, d1 := Targets(paths), WroteJournal(d, cfg, COMMITTING, paths);
    CommitPlaces(d, cfg, staged, deletes);
    DeletedKeeps(was, Placed(d1, staged).disk, cfg, ts, deletes);
    assert New(was, Deleted(Placed(d1, staged).disk, deletes).files, t);
  }

  lemma CutWhilePlacing(d: Disk, cfg: Config, staged: seq<Staged>, deletes: seq<Path>, t: Path)
    requires d.Sound() && d.Alive() && Ready(d.files, cfg, staged, deletes) && t in StagedTargets(d.files, staged)
    requires t in d.files && t !in Committed(d, cfg, staged, deletes).0.files
    ensures var d1 := WroteJournal(d, cfg, COMMITTING, StagedTargets(d.files, staged));
            d1.Alive() && Placed(d1, staged).disk == Committed(d, cfg, staged, deletes).0
    ensures Midway(d.files, Committed(d, cfg, staged, deletes).0.files, cfg, StagedTargets(d.files, staged), deletes)
  {
    var was, paths := d.files, StagedTargets(d.files, staged);
    var ts, d1 := Targets(paths), WroteJournal(d, cfg, COMMITTING, paths);
    CommitStarts(d, cfg, staged, deletes);
    assert t in ts;
    EvenIsPresent(was, d1.files, t);
    hide Midway, Ready, Committed, Placed, AllEven, StagedTargets, WroteJournal;
    if d1.power == 0 {
      CommitDies(d, cfg, staged, deletes);
    } else {
      CommitPlaces(d, cfg, staged, deletes);
      if Placed(d1, staged).disk.Alive() { PastPlacing(d, cfg, staged, deletes, t); }
      CommitDies(d, cfg, staged, deletes);
    }
  }

  lemma MissingIsAside(was: Files, now: Files, cfg: Config, paths: seq<Path>, deletes: seq<Path>, p: Path)
    requires Midway(was, now, cfg, paths, deletes) && Fresh(was, Targets(paths)) && p in paths
    ensures Missing(now, p) <==> p in was && p !in now
  {
    assert p in Targets(paths) && Half(was, now, p);
  }

  lemma SameAbsentee(was: Files, now: Files, paths: seq<Path>, i: nat, j: nat)
    requires OneAbsent(was, now, Targets(paths)) && NoDuplicates(paths) && i < |paths| && j < |paths|
    requires paths[i] in was && paths[i] !in now && paths[j] in was && paths[j] !in now
    ensures i == j
  {
    assert paths[i] in Targets(paths) && paths[j] in Targets(paths);
  }

  lemma MidwayIsLone(was: Files, now: Files, cfg: Config, paths: seq<Path>, deletes: seq<Path>)
    requires Midway(was, now, cfg, paths, deletes) && Fresh(was, Targets(paths)) && OneAbsent(was, now, Targets(paths))
    ensures Lone(now, Targets(paths)) && ReadJournal(now, cfg.journal).paths == paths
  {
    forall p | p in Targets(paths) ensures Missing(now, p) <==> p in was && p !in now {
      MissingIsAside(was, now, cfg, paths, deletes, p);
    }
  }

  lemma LosesTwoByOrder(was: Files, d: Disk, cfg: Config, paths: seq<Path>, deletes: seq<Path>, j: nat)
    requires d.Sound() && Midway(was, d.files, cfg, paths, deletes) && Apart(Targets(paths), cfg.journal) && NoDuplicates(paths)
    requires Fresh(was, Targets(paths)) && OneAbsent(was, d.files, Targets(paths))
    requires j < |paths| && paths[j] in was && paths[j] !in d.files
    requires forall i | 0 <= i < j :: New(was, d.files, paths[i])
    ensures SomeCutLosesTwo(d, cfg) <==> exists i :: 0 <= i < j && paths[i] in was
  {
    hide Midway, Fresh, OneAbsent, NoDuplicates, Apart, SomeCutLosesTwo, Lone, ReadJournal;
    MidwayIsLone(was, d.files, cfg, paths, deletes);
    assert Sane(d.files, cfg.journal);
    RestoreLosesTwoIff(d, cfg);
    MissingIsAside(was, d.files, cfg, paths, deletes, paths[j]);
    if i :| 0 <= i < j && paths[i] in was {
      assert Replaceable(d.files, paths[i]);
    }
    if RunsBeforeMissing(d.files, paths) {
      var i, l :| 0 <= i < l < |paths| && Replaceable(d.files, paths[i]) && Missing(d.files, paths[l]);
      MissingIsAside(was, d.files, cfg, paths, deletes, paths[l]);
      SameAbsentee(was, d.files, paths, l, j);
    }
  }

  /* ---- a cut for every target ---- */

  /** A set that nothing stands in the way of: staged, without leftover copies. */
  ghost predicate Unhindered(fs: Files, staged: seq<Staged>) {
    && (forall s | s in staged :: s.staging == Ota(s.target) && s.staging in fs && Bck(s.target) !in fs)
    && (forall s | s in staged :: !IsBck(s.target) && !IsOta(s.target))
    && (forall i, j | 0 <= i < j < |staged| :: staged[i].target != staged[j].target)
  }

  /** Placing one of them takes two steps, or one if there is nothing to move aside;
      with `k` more the rest goes on with `k`. */
  lemma PlacedWithMore(d: Disk, s: Staged, k: nat) returns (used: nat)
    requires d.Sound() && s.staging == Ota(s.target) && s.staging in d.files && Bck(s.target) !in d.files
    requires !IsBck(s.target) && !IsOta(s.target)
    ensures var p := PlacedOne(d.Reboot(2), s);
            && PlacedOne(d.Reboot(k + used), s) == p.(disk := p.disk.Reboot(k)) && p.ok && p.disk.Sound()
  {
    used := if s.target in d.files then 2 else 1;
  }

  lemma RestApart(staged: seq<Staged>, s: Staged)
    requires staged != [] && s in staged[1..]
    requires forall i, j | 0 <= i < j < |staged| :: staged[i].target != staged[j].target
    ensures s in staged && s.target != staged[0].target
  {
    var i :| 0 <= i < |staged[1..]| && staged[1..][i] == s;
    assert staged[i + 1] == s;
  }

  lemma RestUnhindered(d: Disk, staged: seq<Staged>)
    requires d.Sound() && staged != [] && Unhindered(d.files, staged)
    ensures var e := PlacedOne(d.Reboot(2), staged[0]).disk;
            && Unhindered(e.files, staged[1..])
            && forall s | s in staged[1..] :: Same(d.files, e.files, s.target)
  {
    hide PlacedOne, Ota, Bck, IsBck, IsOta;
    var e := PlacedOne(d.Reboot(2), staged[0]).disk;
    assert staged[0] in staged;
    PlacedOneFrame(d.Reboot(2), staged[0]);
    forall s | s in staged[1..] ensures s in staged && SameAt(d.files, e.files, s.target) && Same(d.files, e.files, Ota(s.target)) {
      RestApart(staged, s);
      SameElsewhereAt(d.files, e.files, staged[0].target, s.target);
    }
  }

  lemma FirstAside(d: Disk, staged: seq<Staged>)
    requires d.Sound() && staged != [] && Unhindered(d.files, staged) && staged[0].target in d.files
    ensures var p := Placed(d.Reboot(1), staged); p.disk.power == 0 && staged[0].target !in p.disk.files
  {
    var s := staged[0];
    assert s in staged;
    var d2 := Renamed(d.Reboot(1), s.target, Bck(s.target));
    assert PlacedOne(d.Reboot(1), s) == Placement(d2, [Moved(s.target, Bck(s.target), true)], false);
  }

  /** Some power ends while target `j` is moved aside. */
  lemma {:induction false} CutPlacing(d: Disk, staged: seq<Staged>, j: nat) returns (k: nat)
    requires d.Sound() && Unhindered(d.files, staged) && j < |staged| && staged[j].target in d.files
    ensures k > 0 && var p := Placed(d.Reboot(k), staged); p.disk.power == 0 && staged[j].target !in p.disk.files
    decreases |staged|
  {
    hide Unhindered, PlacedOne, Placed, Bck, Ota;
    if j == 0 {
      k := 1;
      FirstAside(d, staged);
    } else {
      var e := PlacedOne(d.Reboot(2), staged[0]).disk;
      RestUnhindered(d, staged);
      assert staged[1..][j - 1] == staged[j] && staged[j] in staged[1..];
      var used := PlacedWithMoreFirst(d, staged, 0);
      var k' := CutPlacing(e, staged[1..], j - 1);
      used := PlacedWithMoreFirst(d, staged, k');
      k := k' + used;
    }
  }

  lemma PlacedWithMoreFirst(d: Disk, staged: seq<Staged>, k: nat) returns (used: nat)
    requires d.Sound() && staged != [] && Unhindered(d.files, staged)
    ensures var e := PlacedOne(d.Reboot(2), staged[0]).disk;
            && e.Sound() && Placed(d.Reboot(k + used), staged).disk == Placed(e.Reboot(k), staged[1..]).disk
  {
    assert staged[0] in staged;
    used := PlacedWithMore(d, staged[0], k);
  }

  /** For every target that exists there is a cut of the commit at which it is absent. */
  lemma CutReaches(d: Disk, cfg: Config, staged: seq<Staged>, deletes: seq<Path>, j: nat) returns (k: nat)
    requires d.Sound() && Ready(d.files, cfg, staged, deletes) && Complete(d.files, staged)
    requires Fresh(d.files, Targets(StagedTargets(d.files, staged))) && j < |staged| && staged[j].target in d.files
    ensures k > 0 && staged[j].target !in Committed(d.Reboot(k), cfg, staged, deletes).0.files
  {
    var paths := StagedTargets(d.files, staged);
    CompleteTargets(d.files, staged);
    forall s | s in staged ensures s.target in Targets(paths) {
      var i :| 0 <= i < |staged| && staged[i] == s;
      assert paths[i] == s.target;
    }
    var d1 := WroteJournal(d.Reboot(1), cfg, COMMITTING, paths);
    assert staged[j] in staged;
    var k1 := CutPlacing(d1, staged, j);
    k := k1 + 1;
    assert WroteJournal(d.Reboot(k), cfg, COMMITTING, paths) == d1.Reboot(k1);
    CommitDies(d.Reboot(k), cfg, staged, deletes);
  }

  /** Can a cut of the commit and a cut of the repair after it leave two targets missing? */
  ghost predicate TwoCutsLoseTwo(d: Disk, cfg: Config, staged: seq<Staged>, deletes: seq<Path>) {
    exists k: nat :: CutsLoseTwo(d, cfg, staged, deletes, k)
  }

  ghost predicate CutsLoseTwo(d: Disk, cfg: Config, staged: seq<Staged>, deletes: seq<Path>, k: nat) {
    var c := Committed(d.Reboot(k), cfg, staged, deletes).0;
    ReadJournal(c.files, cfg.journal).state == Committing && SomeCutLosesTwo(c, cfg)
  }

  /** With every target in its place a cut restore loses one at most. */
  lemma WholeLosesOne(was: Files, c: Disk, cfg: Config, paths: seq<Path>, deletes: seq<Path>)
    requires c.Sound() && Midway(was, c.files, cfg, paths, deletes) && Apart(Targets(paths), cfg.journal) && NoDuplicates(paths)
    requires Fresh(was, Targets(paths)) && forall p | p in paths && p in was :: p in c.files
    ensures !SomeCutLosesTwo(c, cfg)
  {
    forall p | p in Targets(paths) ensures !Missing(c.files, p) { MissingIsAside(was, c.files, cfg, paths, deletes, p); }
    forall p | p in paths ensures !Missing(c.files, p) { assert p in Targets(paths); }
    RestoreLosesTwoIff(c, cfg);
  }

  /** A manifest can lose two programs to two cuts, one in the commit and one in the
      repair, exactly when two of its targets existed. */
  lemma TwoCutsLoseTwoIff(d: Disk, cfg: Config, staged: seq<Staged>, deletes: seq<Path>)
    requires d.Sound() && Ready(d.files, cfg, staged, deletes) && Complete(d.files, staged) && cfg.journal !in d.files
    requires Fresh(d.files, Targets(StagedTargets(d.files, staged)))
    ensures TwoCutsLoseTwo(d, cfg, staged, deletes)
            <==> exists i, j :: 0 <= i < j < |staged| && staged[i].target in d.files && staged[j].target in d.files
  {
    hide SomeCutLosesTwo, Committed, Ready, Complete, Fresh, StagedTargets, Midway, NewWhole, NoDuplicates, Apart, ReadJournal;
    if i, j :| 0 <= i < j < |staged| && staged[i].target in d.files && staged[j].target in d.files {
      var k := CutReaches(d, cfg, staged, deletes, j);
      RepairAfterCutLosesTwoIff(d.Reboot(k), cfg, staged, deletes, j);
      assert CutsLoseTwo(d, cfg, staged, deletes, k);
    }
    if TwoCutsLoseTwo(d, cfg, staged, deletes) {
      var k: nat :| CutsLoseTwo(d, cfg, staged, deletes, k);
      EarlierExisted(d, cfg, staged, deletes, k);
    }
  }

  lemma CommittingIsMidway(d: Disk, cfg: Config, staged: seq<Staged>, deletes: seq<Path>)
    requires d.Sound() && Ready(d.files, cfg, staged, deletes) && cfg.journal !in d.files
    requires ReadJournal(Committed(d, cfg, staged, deletes).0.files, cfg.journal).state == Committing
    ensures var c := Committed(d, cfg, staged, deletes).0;
            d.Alive() && c.Sound() && Midway(d.files, c.files, cfg, StagedTargets(d.files, staged), deletes)
  {
    CommitCut(d, cfg, staged, deletes);
    if !d.Alive() { CommitDies(d, cfg, staged, deletes); }
  }

  lemma EarlierExisted(d: Disk, cfg: Config, staged: seq<Staged>, deletes: seq<Path>, k: nat)
    requires d.Sound() && Ready(d.files, cfg, staged, deletes) && Complete(d.files, staged) && cfg.journal !in d.files
    requires Fresh(d.files, Targets(StagedTargets(d.files, staged))) && CutsLoseTwo(d, cfg, staged, deletes, k)
    ensures exists i, j :: 0 <= i < j < |staged| && staged[i].target in d.files && staged[j].target in d.files
  {
    hide SomeCutLosesTwo, Committed, Ready, Complete, Fresh, StagedTargets, Midway, NoDuplicates, Apart, ReadJournal;
    var c, paths := Committed(d.Reboot(k), cfg, staged, deletes).0, StagedTargets(d.files, staged);
    CommittingIsMidway(d.Reboot(k), cfg, staged, deletes);
    Usable(d.files, cfg, staged, deletes);
    if j :| 0 <= j < |staged| && staged[j].target in d.files && staged[j].target !in c.files {
      RepairAfterCutLosesTwoIff(d.Reboot(k), cfg, staged, deletes, j);
    } else {
      forall p | p in paths && p in d.files ensures p in c.files {
        var i :| 0 <= i < |paths| && paths[i] == p;
        assert staged[i].target == p;
      }
      WholeLosesOne(d.files, c, cfg, paths, deletes);
    }
  }
}
