/** The retain-previous journal and the boot-time commit.

    Each procedure is written twice: as a method that changes a file system step
    by step, and as the function on disks that the method is proved to compute.
    Crash claims are made about the functions. */
module Restore {
  import opened Disks
  import opened Names
  import opened Journals
  import opened Text

  datatype Config = Config(journal: Path, trialBoots: Option<int>, flag: Option<Path>, mark: Path, recoveryMs: int, listenMs: int, micropython: bool)

  /** One entry of the flat target/staging list that the update loop builds. */
  datatype Staged = Staged(target: Path, staging: Path)

  /** One commit step that `_rollback` can reverse. */
  datatype Moved = Moved(target: Path, backup: Path, had: bool)

  /* ---- journal ---- */

  function WroteJournal(d: Disk, cfg: Config, line1: string, paths: seq<Path>): Disk {
    Written(d, cfg.journal, JournalText(line1, paths))
  }

  method WriteJournal(fs: FileSystem, cfg: Config, line1: string, paths: seq<Path>)
    modifies fs
    ensures fs.disk == WroteJournal(old(fs.disk), cfg, line1, paths)
  {
    var text := line1 + "\n";
    var i := 0;
    while i < |paths|
      invariant 0 <= i <= |paths|
      invariant fs.disk == old(fs.disk)
      invariant text + Lines(paths[i..]) == JournalText(line1, paths)
    {
      assert paths[i..][1..] == paths[i + 1..];
      text := text + paths[i] + "\n";
      i := i + 1;
    }
    assert text + "" == text;
    fs.Write(cfg.journal, text);
  }

  /* ---- clear_journal ---- */

  function RemovedBackups(d: Disk, paths: seq<Path>): Disk
    decreases |paths|
  {
    if paths == [] then d else RemovedBackups(Removed(d, Bck(paths[0])), paths[1..])
  }

  function Cleared(d: Disk, cfg: Config): Disk {
    Removed(RemovedBackups(d, ReadJournal(d.files, cfg.journal).paths), cfg.journal)
  }

  method ClearJournal(fs: FileSystem, cfg: Config)
    modifies fs
    ensures fs.disk == Cleared(old(fs.disk), cfg)
  {
    var paths := ReadJournal(fs.disk.files, cfg.journal).paths;
    var i := 0;
    while i < |paths|
      invariant 0 <= i <= |paths|
      invariant RemovedBackups(fs.disk, paths[i..]) == RemovedBackups(old(fs.disk), paths)
    {
      assert paths[i..][1..] == paths[i + 1..];
      fs.Remove(Bck(paths[i]));
      i := i + 1;
    }
    fs.Remove(cfg.journal);
  }

  /* ---- restore_all ---- */

  function RestoredOne(d: Disk, t: Path): Disk {
    if Bck(t) !in d.files then d else Renamed(Removed(d, t), Bck(t), t)
  }

  function RestoredEach(d: Disk, paths: seq<Path>): Disk
    decreases |paths|
  {
    if paths == [] then d else RestoredEach(RestoredOne(d, paths[0]), paths[1..])
  }

  /** How many of the paths come back. */
  function RestoredCount(d: Disk, paths: seq<Path>): nat
    decreases |paths|
  {
    if paths == [] then 0
    else (if Bck(paths[0]) in d.files && CanRename(Removed(d, paths[0]), Bck(paths[0]), paths[0]) then 1 else 0)
         + RestoredCount(RestoredOne(d, paths[0]), paths[1..])
  }

  function RestoredAll(d: Disk, cfg: Config): Disk {
    Removed(RestoredEach(d, ReadJournal(d.files, cfg.journal).paths), cfg.journal)
  }

  method RestoreAll(fs: FileSystem, cfg: Config) returns (restored: nat)
    modifies fs
    ensures fs.disk == RestoredAll(old(fs.disk), cfg)
    ensures restored == RestoredCount(old(fs.disk), ReadJournal(old(fs.disk.files), cfg.journal).paths)
  {
    var paths := ReadJournal(fs.disk.files, cfg.journal).paths;
    restored := 0;
    var i := 0;
    while i < |paths|
      invariant 0 <= i <= |paths|
      invariant RestoredEach(fs.disk, paths[i..]) == RestoredEach(old(fs.disk), paths)
      invariant restored + RestoredCount(fs.disk, paths[i..]) == RestoredCount(old(fs.disk), paths)
    {
      assert paths[i..][1..] == paths[i + 1..];
      var target := paths[i];
      i := i + 1;
      var found := fs.Exists(Bck(target));
      if !found { continue; }
      fs.Remove(target);
      var ok := fs.Rename(Bck(target), target);
      if ok { restored := restored + 1; }
    }
    fs.Remove(cfg.journal);
  }

  /* ---- commit and its in-process undo ---- */

  function Undone(d: Disk, done: seq<Moved>): Disk
    decreases |done|
  {
    if done == [] then d else
    var m := done[0];
    var d1 := Removed(d, m.target);
    Undone(if m.had then Renamed(d1, m.backup, m.target) else d1, done[1..])
  }

  method Undo(fs: FileSystem, done: seq<Moved>)
    modifies fs
    ensures fs.disk == Undone(old(fs.disk), done)
  {
    var i := 0;
    while i < |done|
      invariant 0 <= i <= |done|
      invariant Undone(fs.disk, done[i..]) == Undone(old(fs.disk), done)
    {
      assert done[i..][1..] == done[i + 1..];
      fs.Remove(done[i].target);
      if done[i].had {
        var _ := fs.Rename(done[i].backup, done[i].target);
      }
      i := i + 1;
    }
  }

  /** The targets whose staged file exists. */
  function StagedTargets(files: Files, staged: seq<Staged>): seq<Path>
  {
    if staged == [] then []
    else (if staged[0].staging in files then [staged[0].target] else []) + StagedTargets(files, staged[1..])
  }

  datatype Placement = Placement(disk: Disk, done: seq<Moved>, ok: bool)

  /** Move one target aside and its staged file into place. */
  function PlacedOne(d: Disk, s: Staged): Placement {
    if s.staging !in d.files then Placement(d, [], true) else
    var backup := Bck(s.target);
    var d1 := Removed(d, backup);
    var had := s.target in d1.files;
    if had && !CanRename(d1, s.target, backup) then Placement(Renamed(d1, s.target, backup), [], false) else
    var d2 := if had then Renamed(d1, s.target, backup) else d1;
    Placement(Renamed(d2, s.staging, s.target), [Moved(s.target, backup, had)], CanRename(d2, s.staging, s.target))
  }

  function Placed(d: Disk, staged: seq<Staged>): Placement
    decreases |staged|
  {
    if staged == [] then Placement(d, [], true) else
    var one := PlacedOne(d, staged[0]);
    if !one.ok then one else
    var rest := Placed(one.disk, staged[1..]);
    Placement(rest.disk, one.done + rest.done, rest.ok)
  }

  function Deleted(d: Disk, paths: seq<Path>): Disk
    decreases |paths|
  {
    if paths == [] then d
    else Deleted(Removed(Removed(d, paths[0]), Bck(paths[0])), paths[1..])
  }

  /** `commit`: the disk it leaves and whether it reports success. */
  function Committed(d: Disk, cfg: Config, staged: seq<Staged>, deletes: seq<Path>): (Disk, bool) {
    var targets := StagedTargets(d.files, staged);
    var p := Placed(WroteJournal(d, cfg, COMMITTING, targets), staged);
    if !p.ok then (Undone(p.disk, p.done), false)
    else (WroteJournal(Deleted(p.disk, deletes), cfg, IntText(0), targets), true)
  }

  method ListTargets(fs: FileSystem, staged: seq<Staged>) returns (targets: seq<Path>)
    ensures targets == StagedTargets(fs.disk.files, staged)
  {
    targets := [];
    var i := 0;
    while i < |staged|
      invariant 0 <= i <= |staged|
      invariant targets + StagedTargets(fs.disk.files, staged[i..]) == StagedTargets(fs.disk.files, staged)
    {
      assert staged[i..][1..] == staged[i + 1..];
      var found := fs.Exists(staged[i].staging);
      if found { targets := targets + [staged[i].target]; }
      i := i + 1;
    }
  }

  method PlaceAll(fs: FileSystem, staged: seq<Staged>) returns (done: seq<Moved>, ok: bool)
    modifies fs
    ensures Placement(fs.disk, done, ok) == Placed(old(fs.disk), staged)
  {
    done, ok := [], true;
    var i := 0;
    while i < |staged|
      invariant 0 <= i <= |staged|
      invariant ok
      invariant var rest := Placed(fs.disk, staged[i..]);
                Placed(old(fs.disk), staged) == Placement(rest.disk, done + rest.done, rest.ok)
    {
      assert staged[i..][1..] == staged[i + 1..];
      ghost var before, rest := done, Placed(fs.disk, staged[i..]);
      var moved;
      moved, ok := Place(fs, staged[i]);
      done := done + moved;
      if !ok { return; }
      ghost var tail := Placed(fs.disk, staged[i + 1..]);
      assert before + (moved + tail.done) == done + tail.done;
      i := i + 1;
    }
    assert done + [] == done;
  }

  method Delete(fs: FileSystem, paths: seq<Path>)
    modifies fs
    ensures fs.disk == Deleted(old(fs.disk), paths)
  {
    var i := 0;
    while i < |paths|
      invariant 0 <= i <= |paths|
      invariant Deleted(fs.disk, paths[i..]) == Deleted(old(fs.disk), paths)
    {
      assert paths[i..][1..] == paths[i + 1..];
      fs.Remove(paths[i]);
      fs.Remove(Bck(paths[i]));
      i := i + 1;
    }
  }

  method Commit(fs: FileSystem, cfg: Config, staged: seq<Staged>, deletes: seq<Path>) returns (ok: bool)
    modifies fs
    ensures (fs.disk, ok) == Committed(old(fs.disk), cfg, staged, deletes)
  {
    var targets := ListTargets(fs, staged);
    WriteJournal(fs, cfg, COMMITTING, targets);
    var done;
    done, ok := PlaceAll(fs, staged);
    if !ok {
      Undo(fs, done);
      return;
    }
    Delete(fs, deletes);
    WriteJournal(fs, cfg, IntText(0), targets);
  }

  /** The body of `commit`'s loop: the outcome and the entry added to `done`. */
  method Place(fs: FileSystem, s: Staged) returns (moved: seq<Moved>, ok: bool)
    modifies fs
    ensures Placement(fs.disk, moved, ok) == PlacedOne(old(fs.disk), s)
  {
    var found := fs.Exists(s.staging);
    if !found { return [], true; }
    var backup := Bck(s.target);
    fs.Remove(backup);
    var had := fs.Exists(s.target);
    if had {
      var aside := fs.Rename(s.target, backup);
      if !aside { return [], false; }
    }
    moved := [Moved(s.target, backup, had)];
    ok := fs.Rename(s.staging, s.target);
  }

  /* ---- repair ---- */

  function MendedEach(d: Disk, paths: seq<Path>): Disk
    decreases |paths|
  {
    if paths == [] then d else
    var t := paths[0];
    MendedEach(if Bck(t) in d.files && t !in d.files then Renamed(d, Bck(t), t) else d, paths[1..])
  }

  /** Does the trial branch bring any target back? */
  predicate Mends(d: Disk, paths: seq<Path>)
    decreases |paths|
  {
    paths != [] &&
    var t := paths[0];
    if Bck(t) in d.files && t !in d.files
    then CanRename(d, Bck(t), t) || Mends(Renamed(d, Bck(t), t), paths[1..])
    else Mends(d, paths[1..])
  }

  function Repaired(d: Disk, cfg: Config): Disk {
    var j := ReadJournal(d.files, cfg.journal);
    if j.paths == [] || j.state == Confirmed then d
    else if j.state == Committing then RestoredAll(d, cfg)
    else
      var d1 := MendedEach(d, j.paths);
      if Mends(d, j.paths) then WroteJournal(d1, cfg, IntText(j.attempt), j.paths) else d1
  }

  /** The loop of `repair`'s trial branch. */
  method Mend(fs: FileSystem, paths: seq<Path>) returns (restored: bool)
    modifies fs
    ensures fs.disk == MendedEach(old(fs.disk), paths)
    ensures restored == Mends(old(fs.disk), paths)
  {
    restored := false;
    var i := 0;
    while i < |paths|
      invariant 0 <= i <= |paths|
      invariant MendedEach(fs.disk, paths[i..]) == MendedEach(old(fs.disk), paths)
      invariant (restored || Mends(fs.disk, paths[i..])) == Mends(old(fs.disk), paths)
    {
      assert paths[i..][1..] == paths[i + 1..];
      var target := paths[i];
      i := i + 1;
      var kept := fs.Exists(Bck(target));
      var found := fs.Exists(target);
      if !kept || found { continue; }
      var ok := fs.Rename(Bck(target), target);
      if ok { restored := true; }
    }
  }

  method Repair(fs: FileSystem, cfg: Config)
    modifies fs
    ensures fs.disk == Repaired(old(fs.disk), cfg)
  {
    var j := ReadJournal(fs.disk.files, cfg.journal);
    if j.paths == [] || j.state == Confirmed { return; }
    if j.state == Committing {
      var _ := RestoreAll(fs, cfg);
      return;
    }
    var restored := Mend(fs, j.paths);
    if restored { WriteJournal(fs, cfg, IntText(j.attempt), j.paths); }
  }

  /* ---- confirm, rollback, trial, state ---- */

  function ConfirmedDisk(d: Disk, cfg: Config): Disk {
    var j := ReadJournal(d.files, cfg.journal);
    if j.state == Trial then WroteJournal(d, cfg, CONFIRMED, j.paths) else d
  }

  method Confirm(fs: FileSystem, cfg: Config) returns (ok: bool)
    modifies fs
    ensures fs.disk == ConfirmedDisk(old(fs.disk), cfg)
    ensures ok <==> ReadJournal(old(fs.disk.files), cfg.journal).state != Committing
  {
    var j := ReadJournal(fs.disk.files, cfg.journal);
    if j.state == Committing { return false; }
    if j.state == Trial { WriteJournal(fs, cfg, CONFIRMED, j.paths); }
    ok := true;
  }

  predicate AnyBackup(files: Files, paths: seq<Path>) {
    exists i :: 0 <= i < |paths| && Bck(paths[i]) in files
  }

  const BUSY := -1

  function RolledBack(d: Disk, cfg: Config): (Disk, int) {
    var j := ReadJournal(d.files, cfg.journal);
    if j.state == Committing then (d, BUSY)
    else if AnyBackup(d.files, j.paths) then (RestoredAll(d, cfg), RestoredCount(d, j.paths))
    else (d, 0)
  }

  method Rollback(fs: FileSystem, cfg: Config) returns (restored: int)
    modifies fs
    ensures (fs.disk, restored) == RolledBack(old(fs.disk), cfg)
  {
    hide ReadJournal, RestoredAll;
    var j := ReadJournal(fs.disk.files, cfg.journal);
    if j.state == Committing { return BUSY; }
    var i := 0;
    while i < |j.paths|
      invariant 0 <= i <= |j.paths|
      invariant fs.disk == old(fs.disk)
      invariant forall k :: 0 <= k < i ==> Bck(j.paths[k]) !in fs.disk.files
    {
      var found := fs.Exists(Bck(j.paths[i]));
      if found {
        restored := RestoreAll(fs, cfg);
        return;
      }
      i := i + 1;
    }
    restored := 0;
  }

  datatype Reply = RollbackOk | RollbackBusy | RollbackNone

  method RollbackResult(fs: FileSystem, cfg: Config) returns (reply: Reply, restored: nat)
    modifies fs
    ensures fs.disk == RolledBack(old(fs.disk), cfg).0
    ensures var n := RolledBack(old(fs.disk), cfg).1;
            && reply == (if n == BUSY then RollbackBusy else if n == 0 then RollbackNone else RollbackOk)
            && restored == if n > 0 then n else 0
  {
    var n := Rollback(fs, cfg);
    if n == BUSY { return RollbackBusy, 0; }
    if n == 0 { return RollbackNone, 0; }
    return RollbackOk, n;
  }

  const DEFAULT_TRIAL_BOOTS := 3

  function Limit(cfg: Config): (n: int)
    ensures cfg.trialBoots == Some(n) || (cfg.trialBoots == None && n == 3)
  {
    match cfg.trialBoots case Some(n) => n case None => DEFAULT_TRIAL_BOOTS
  }

  /** `trial`: the disk it leaves and whether it rolled back. */
  function Tried(d: Disk, cfg: Config): (Disk, bool) {
    var j := ReadJournal(d.files, cfg.journal);
    if j.state != Trial then (d, false)
    else if j.attempt + 1 > Limit(cfg) then (RestoredAll(d, cfg), true)
    else (WroteJournal(d, cfg, IntText(j.attempt + 1), j.paths), false)
  }

  method TrialBoot(fs: FileSystem, cfg: Config) returns (rolledBack: bool)
    modifies fs
    ensures (fs.disk, rolledBack) == Tried(old(fs.disk), cfg)
  {
    hide RestoredAll, ReadJournal, IntText, JournalText;
    var j := ReadJournal(fs.disk.files, cfg.journal);
    if j.state != Trial { return false; }
    var attempt := j.attempt + 1;
    var limit := match cfg.trialBoots { case Some(n) => n case None => DEFAULT_TRIAL_BOOTS };
    if attempt > limit {
      var _ := RestoreAll(fs, cfg);
      return true;
    }
    WriteJournal(fs, cfg, IntText(attempt), j.paths);
    rolledBack := false;
  }

  datatype Label = OnTrial(attempt: int) | Stable

  function StateLabel(files: Files, journal: Path): Label {
    var j := ReadJournal(files, journal);
    match j.state
    case Trial => OnTrial(j.attempt)
    case Committing => OnTrial(0)
    case Confirmed => Stable
  }

  /** The update-request flag removed, as the update loop and `recover` do last. */
  function WithoutFlag(d: Disk, cfg: Config): Disk {
    match cfg.flag case Some(flag) => Removed(d, flag) case None => d
  }

  method RemoveFlag(fs: FileSystem, cfg: Config)
    modifies fs
    ensures fs.disk == WithoutFlag(old(fs.disk), cfg)
    ensures cfg.flag.Some? && fs.disk.Alive() ==> cfg.flag.value !in fs.disk.files
  {
    match cfg.flag {
      case Some(flag) => fs.Remove(flag);
      case None =>
    }
  }
}
