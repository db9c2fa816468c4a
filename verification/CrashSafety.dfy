/** Whole or not at all: what repairs make of a commit that was cut anywhere. */
module CrashSafety {
  import opened Disks
  import opened Names
  import opened Journals
  import opened Restore
  import opened Healing
  import opened Atomicity

  /** `repair` run once for each budget, each run on what the last one left. */
  function RepairedMany(d: Disk, cfg: Config, budgets: seq<nat>): Disk
    decreases |budgets|
  {
    if budgets == [] then d
    else RepairedMany(Repaired(d.Reboot(budgets[0]), cfg), cfg, budgets[1..])
  }

  /** Cut `commit` after `first` steps, cut the repairs that follow after each of
      `budgets`, and let one more repair run with `last`. */
  function AfterCrashes(d: Disk, cfg: Config, staged: seq<Staged>, deletes: seq<Path>, first: nat, budgets: seq<nat>, last: nat): Disk {
    Repaired(RepairedMany(Committed(d.Reboot(first), cfg, staged, deletes).0, cfg, budgets).Reboot(last), cfg)
  }

  /** Every target that existed holds its old content again. */
  ghost predicate OldContent(was: Files, now: Files, ts: set<Path>) {
    forall t | t in ts && t in was :: t in now && now[t] == was[t]
  }

  /** The old generation is back and the update has left no trace, except that a
      target which did not exist before may hold its new content. */
  ghost predicate OldWhole(was: Files, now: Files, cfg: Config, paths: seq<Path>, deletes: seq<Path>) {
    var ts := Targets(paths);
    && OldContent(was, now, ts)
    && (forall t | t in ts :: Bck(t) !in now)
    && (forall t | t in ts && t !in was && t in now :: Ota(t) in was && now[t] == was[Ota(t)])
    && (paths != [] ==> cfg.journal !in now)
    && SameOutside(was, now, cfg, ts, deletes)
  }

  /* ---- repairs of the three kinds of disk ---- */

  /** A trial whose targets are all present needs no repair. */
  lemma {:induction false} NothingToMend(d: Disk, paths: seq<Path>)
    requires forall p | p in paths :: p in d.files
    ensures MendedEach(d, paths) == d && !Mends(d, paths)
    decreases |paths|
  {
    if paths != [] {
      assert paths[0] in paths;
      NothingToMend(d, paths[1..]);
    }
  }

  lemma NewNeedsNoRepair(was: Files, d: Disk, cfg: Config, paths: seq<Path>, deletes: seq<Path>)
    requires NewWhole(was, d.files, cfg, paths, deletes)
    ensures Repaired(d, cfg) == d
  {
    forall p | p in paths ensures p in d.files {
      assert p in Targets(paths) && New(was, d.files, p);
    }
    NothingToMend(d, paths);
  }

  lemma {:induction false} NewStaysNew(was: Files, d: Disk, cfg: Config, paths: seq<Path>, deletes: seq<Path>, budgets: seq<nat>)
    requires NewWhole(was, d.files, cfg, paths, deletes)
    ensures var e := RepairedMany(d, cfg, budgets); e.files == d.files && e.clashes == d.clashes
    decreases |budgets|
  {
    if budgets != [] {
      NewNeedsNoRepair(was, d.Reboot(budgets[0]), cfg, paths, deletes);
      NewStaysNew(was, d.Reboot(budgets[0]), cfg, paths, deletes, budgets[1..]);
    }
  }

  lemma {:induction false} IdleStaysIdle(d: Disk, cfg: Config, budgets: seq<nat>)
    requires ReadJournal(d.files, cfg.journal).paths == []
    ensures var e := RepairedMany(d, cfg, budgets); e.files == d.files && e.clashes == d.clashes
    decreases |budgets|
  {
    if budgets != [] { IdleStaysIdle(d.Reboot(budgets[0]), cfg, budgets[1..]); }
  }

  /** Until an interrupted commit is undone, each repair is a `restore_all`. */
  lemma RepairIsRestore(was: Files, d: Disk, cfg: Config)
    requires var j := ReadJournal(was, cfg.journal); j.state == Committing && j.paths != []
    requires OnTheWay(was, d.files, cfg)
    ensures Repaired(d, cfg) == RestoredAll(d, cfg)
  {
    if cfg.journal !in d.files { assert RestoredEach(d, []) == d; }
  }

  lemma {:induction false} RepairsOnTheWay(was: Files, d: Disk, cfg: Config, budgets: seq<nat>)
    requires var j := ReadJournal(was, cfg.journal); j.state == Committing && j.paths != []
    requires OnTheWay(was, d.files, cfg) && d.Sound() && Sane(was, cfg.journal)
    ensures var e := RepairedMany(d, cfg, budgets);
            e.Sound() && OnTheWay(was, e.files, cfg) && e.clashes == d.clashes
    decreases |budgets|
  {
    if budgets != [] {
      var d1 := d.Reboot(budgets[0]);
      RepairIsRestore(was, d1, cfg);
      RestoreStep(was, d1, cfg);
      RepairsOnTheWay(was, Repaired(d1, cfg), cfg, budgets[1..]);
    }
  }

  /* ---- the generation behind a half-placed set ---- */

  lemma HalfHeals(was: Files, mid: Files, cfg: Config, paths: seq<Path>, deletes: seq<Path>)
    requires Midway(was, mid, cfg, paths, deletes) && Apart(Targets(paths), cfg.journal) && Harmless(was, Targets(paths))
    ensures OldContent(was, Healed(mid, Targets(paths)) - {cfg.journal}, Targets(paths))
  {
    var ts := Targets(paths);
    var now := Healed(mid, ts) - {cfg.journal};
    forall t | t in ts && t in was ensures t in now && now[t] == was[t] {
      HalfHealsOne(was, mid, ts, t, cfg.journal);
    }
  }

  lemma HalfHealsOne(was: Files, mid: Files, ts: set<Path>, t: Path, journal: Path)
    requires t in ts && t in was && Half(was, mid, t) && Apart(ts, journal) && Harmless(was, ts)
    ensures t in Healed(mid, ts) && Healed(mid, ts)[t] == was[t] && t != journal
  {
    assert !BackupOf(t, ts);
  }

  lemma HalfHealsElsewhere(was: Files, mid: Files, cfg: Config, paths: seq<Path>, deletes: seq<Path>)
    requires Midway(was, mid, cfg, paths, deletes)
    ensures SameOutside(was, Healed(mid, Targets(paths)) - {cfg.journal}, cfg, Targets(paths), deletes)
  {
    var ts := Targets(paths);
    var now := Healed(mid, ts) - {cfg.journal};
    forall p | Outside(p, cfg, ts, deletes) ensures Same(was, now, p) {
      assert Same(was, mid, p);
      assert Elsewhere(p, ts);
      assert p in mid <==> p in now;
    }
  }

  lemma HalfHealsAdded(was: Files, mid: Files, cfg: Config, paths: seq<Path>, t: Path)
    requires t in paths && Half(was, mid, t) && Bck(t) !in was && t !in was
    requires t in Healed(mid, Targets(paths)) - {cfg.journal}
    ensures Ota(t) in was && Healed(mid, Targets(paths))[t] == was[Ota(t)]
  {
    assert Bck(t) !in mid;
  }

  lemma HalfHealsClean(was: Files, mid: Files, cfg: Config, paths: seq<Path>, deletes: seq<Path>)
    requires Midway(was, mid, cfg, paths, deletes) && Apart(Targets(paths), cfg.journal) && Fresh(was, Targets(paths))
    ensures OldWhole(was, Healed(mid, Targets(paths)) - {cfg.journal}, cfg, paths, deletes)
  {
    var ts := Targets(paths);
    var now := Healed(mid, ts) - {cfg.journal};
    HalfHeals(was, mid, cfg, paths, deletes);
    HalfHealsElsewhere(was, mid, cfg, paths, deletes);
    forall t | t in ts && t !in was && t in now ensures Ota(t) in was && now[t] == was[Ota(t)] {
      assert Half(was, mid, t);
      HalfHealsAdded(was, mid, cfg, paths, t);
    }
    forall t | t in ts ensures Bck(t) !in now { assert BackupOf(Bck(t), ts); }
  }

  /* ---- the theorems ---- */

  /** From any commit-cut disk, interrupted repairs and one complete repair lead
      to the new generation or to the old content. */
  lemma RepairedOutcome(d: Disk, cfg: Config, staged: seq<Staged>, deletes: seq<Path>, first: nat, budgets: seq<nat>, last: nat)
    requires d.Sound() && Ready(d.files, cfg, staged, deletes) && cfg.journal !in d.files
    requires AfterCrashes(d, cfg, staged, deletes, first, budgets, last).Alive()
    ensures var e := AfterCrashes(d, cfg, staged, deletes, first, budgets, last);
            var paths := StagedTargets(d.files, staged);
            && e.clashes == d.clashes
            && (|| e.files == d.files
                || NewWhole(d.files, e.files, cfg, paths, deletes)
                || exists mid :: Midway(d.files, mid, cfg, paths, deletes)
                     && e.files == if paths == [] then mid else Healed(mid, Targets(paths)) - {cfg.journal})
  {
    var paths := StagedTargets(d.files, staged);
    var c := Committed(d.Reboot(first), cfg, staged, deletes).0;
    CommitCut(d.Reboot(first), cfg, staged, deletes);
    var m := RepairedMany(c, cfg, budgets).Reboot(last);
    if NewWhole(d.files, c.files, cfg, paths, deletes) {
      NewStaysNew(d.files, c, cfg, paths, deletes, budgets);
      NewNeedsNoRepair(d.files, m, cfg, paths, deletes);
    } else if c == d.Reboot(first) || paths == [] {
      IdleStaysIdle(c, cfg, budgets);
    } else {
      assert ReadJournal(c.files, cfg.journal) == Journal(0, Committing, paths);
      RepairsOnTheWay(c.files, c, cfg, budgets);
      RepairIsRestore(c.files, m, cfg);
      RestoreStep(c.files, m, cfg);
    }
  }

  /** Crash atomicity. With no retained copy left over and no journal, every cut
      of the commit and of the repairs after it ends in the whole new generation
      on trial or in the whole old one; no rename ever met an existing file. */
  lemma CommitIsAtomic(d: Disk, cfg: Config, staged: seq<Staged>, deletes: seq<Path>, first: nat, budgets: seq<nat>, last: nat)
    requires d.Sound() && Ready(d.files, cfg, staged, deletes) && cfg.journal !in d.files
    requires Fresh(d.files, Targets(StagedTargets(d.files, staged)))
    requires AfterCrashes(d, cfg, staged, deletes, first, budgets, last).Alive()
    ensures var e := AfterCrashes(d, cfg, staged, deletes, first, budgets, last);
            var paths := StagedTargets(d.files, staged);
            && e.clashes == d.clashes
            && (NewWhole(d.files, e.files, cfg, paths, deletes) || OldWhole(d.files, e.files, cfg, paths, deletes))
  {
    var e := AfterCrashes(d, cfg, staged, deletes, first, budgets, last);
    var paths := StagedTargets(d.files, staged);
    RepairedOutcome(d, cfg, staged, deletes, first, budgets, last);
    if e.files != d.files && !NewWhole(d.files, e.files, cfg, paths, deletes) && paths != [] {
      var mid :| Midway(d.files, mid, cfg, paths, deletes) && e.files == Healed(mid, Targets(paths)) - {cfg.journal};
      HalfHealsClean(d.files, mid, cfg, paths, deletes);
    }
  }

  /** One crash: the outcome is the new generation or the old content. */
  ghost predicate ContentKept(d: Disk, cfg: Config, staged: seq<Staged>, deletes: seq<Path>, first: nat, budgets: seq<nat>, last: nat) {
    var paths := StagedTargets(d.files, staged);
    var e := AfterCrashes(d, cfg, staged, deletes, first, budgets, last);
    e.Alive() ==> NewWhole(d.files, e.files, cfg, paths, deletes) || OldContent(d.files, e.files, Targets(paths))
  }

  /** The content half of atomicity, for one starting disk and every crash. */
  ghost predicate ContentAtomic(d: Disk, cfg: Config, staged: seq<Staged>, deletes: seq<Path>) {
    forall first: nat, budgets: seq<nat>, last: nat :: ContentKept(d, cfg, staged, deletes, first, budgets, last)
  }

  /** Power that is gone after the first journal write. */
  lemma OneStepCommit(d: Disk, cfg: Config, staged: seq<Staged>, deletes: seq<Path>, last: nat)
    ensures var c := WroteJournal(d.Reboot(1), cfg, COMMITTING, StagedTargets(d.files, staged));
            AfterCrashes(d, cfg, staged, deletes, 1, [], last) == Repaired(c.Reboot(last), cfg)
  {
    CommitDies(d.Reboot(1), cfg, staged, deletes);
    var c := Committed(d.Reboot(1), cfg, staged, deletes).0;
    assert RepairedMany(c, cfg, []) == c;
  }

  lemma LeftoverRestored(c: Disk, cfg: Config, t: Path)
    requires c.Sound() && Sane(c.files, cfg.journal) && cfg.journal in c.files
    requires var j := ReadJournal(c.files, cfg.journal);
             j.state == Committing && t in j.paths && Bck(t) in c.files && c.power >= 2 * |j.paths| + 2
    ensures var e := Repaired(c, cfg);
            e.Alive() && cfg.journal !in e.files && t in e.files && e.files[t] == c.files[Bck(t)]
  {
    var ts := Targets(ReadJournal(c.files, cfg.journal).paths);
    RestoreIsBounded(c, cfg);
    RestoreOutcome(c, cfg);
    assert t in ts && !BackupOf(t, ts) && t != cfg.journal;
  }

  /** Cut after the first journal write, then one repair: the leftover copy wins. */
  lemma LeftoverWins(d: Disk, cfg: Config, paths: seq<Path>, t: Path)
    requires d.Sound() && Apart(Targets(paths), cfg.journal) && t in paths && Bck(t) in d.files
    ensures var e := Repaired(WroteJournal(d.Reboot(1), cfg, COMMITTING, paths).Reboot(2 * |paths| + 2), cfg);
            e.Alive() && cfg.journal !in e.files && t in e.files && e.files[t] == d.files[Bck(t)]
  {
    JournalWritten(d.Reboot(1), cfg, Committing, paths);
    LeftoverRestored(WroteJournal(d.Reboot(1), cfg, COMMITTING, paths).Reboot(2 * |paths| + 2), cfg, t);
  }

  lemma HarmfulIsNotAtomic(d: Disk, cfg: Config, staged: seq<Staged>, deletes: seq<Path>)
    requires d.Sound() && Apart(Targets(StagedTargets(d.files, staged)), cfg.journal)
    requires !Harmless(d.files, Targets(StagedTargets(d.files, staged)))
    ensures !ContentAtomic(d, cfg, staged, deletes)
  {
    var paths := StagedTargets(d.files, staged);
    var t :| t in Targets(paths) && t in d.files && Bck(t) in d.files && d.files[Bck(t)] != d.files[t];
    var last := 2 * |paths| + 2;
    LeftoverWins(d, cfg, paths, t);
    OneStepCommit(d, cfg, staged, deletes, last);
    assert !ContentKept(d, cfg, staged, deletes, 1, [], last);
  }

  lemma HarmlessOutcome(d: Disk, cfg: Config, staged: seq<Staged>, deletes: seq<Path>, first: nat, budgets: seq<nat>, last: nat)
    requires d.Sound() && Ready(d.files, cfg, staged, deletes) && cfg.journal !in d.files
    requires Harmless(d.files, Targets(StagedTargets(d.files, staged)))
    requires AfterCrashes(d, cfg, staged, deletes, first, budgets, last).Alive()
    ensures var e := AfterCrashes(d, cfg, staged, deletes, first, budgets, last);
            var paths := StagedTargets(d.files, staged);
            NewWhole(d.files, e.files, cfg, paths, deletes) || OldContent(d.files, e.files, Targets(paths))
  {
    var e := AfterCrashes(d, cfg, staged, deletes, first, budgets, last);
    var paths := StagedTargets(d.files, staged);
    RepairedOutcome(d, cfg, staged, deletes, first, budgets, last);
    if e.files != d.files && !NewWhole(d.files, e.files, cfg, paths, deletes) && paths != [] {
      var mid :| Midway(d.files, mid, cfg, paths, deletes) && e.files == Healed(mid, Targets(paths)) - {cfg.journal};
      HalfHeals(d.files, mid, cfg, paths, deletes);
    }
  }

  /** `commit` never looks at what a leftover `.bck` holds, so atomicity depends
      on it: it holds for every crash exactly when no target that exists has a
      leftover copy with other content. */
  lemma AtomicIffLeftoversHarmless(d: Disk, cfg: Config, staged: seq<Staged>, deletes: seq<Path>)
    requires d.Sound() && Ready(d.files, cfg, staged, deletes) && cfg.journal !in d.files
    ensures ContentAtomic(d, cfg, staged, deletes) <==> Harmless(d.files, Targets(StagedTargets(d.files, staged)))
  {
    if Harmless(d.files, Targets(StagedTargets(d.files, staged))) {
      forall first: nat, budgets: seq<nat>, last: nat ensures ContentKept(d, cfg, staged, deletes, first, budgets, last) {
        if AfterCrashes(d, cfg, staged, deletes, first, budgets, last).Alive() {
          HarmlessOutcome(d, cfg, staged, deletes, first, budgets, last);
        }
      }
    } else {
      HarmfulIsNotAtomic(d, cfg, staged, deletes);
    }
  }
}
