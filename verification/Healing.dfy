/** What a complete restore leaves, in closed form, and why an interrupted one
    can simply be run again. */
module Healing {
  import opened Disks
  import opened Names
  import opened Journals
  import opened Restore

  function Targets(paths: seq<Path>): set<Path> { set p | p in paths }

  /** Is `p` the retained copy of one of the targets? */
  predicate BackupOf(p: Path, ts: set<Path>) { IsBck(p) && Stem(p) in ts }

  /** The previous generation: every retained copy stands in for its target. */
  ghost function Healed(fs: Files, ts: set<Path>): Files {
    map p | p in fs.Keys + ts && !BackupOf(p, ts) && (p in fs || Bck(p) in fs) ::
      if p in ts && Bck(p) in fs then fs[Bck(p)] else fs[p]
  }

  lemma HealedWithoutBackups(fs: Files, ts: set<Path>)
    requires forall t | t in ts :: Bck(t) !in fs
    ensures Healed(fs, ts) == fs
  {
    forall p | p in fs ensures !BackupOf(p, ts) {
      if BackupOf(p, ts) { BckOfStem(p); }
    }
  }

  lemma HealedRemove(fs: Files, ts: set<Path>, t: Path)
    requires t in ts && !IsBck(t) && Bck(t) in fs
    ensures Healed(fs - {t}, ts) == Healed(fs, ts)
  {
    var less := fs - {t};
    var a, b := Healed(less, ts), Healed(fs, ts);
    forall p ensures (p in a <==> p in b) && (p in a ==> a[p] == b[p]) {
      assert Bck(p) in less <==> Bck(p) in fs;
    }
  }

  lemma HealedRename(fs: Files, ts: set<Path>, t: Path)
    requires t in ts && (forall u | u in ts :: !IsBck(u)) && Bck(t) in fs && t !in fs
    ensures Healed((fs - {Bck(t)})[t := fs[Bck(t)]], ts) == Healed(fs, ts)
  {
    var after := (fs - {Bck(t)})[t := fs[Bck(t)]];
    var a, b := Healed(after, ts), Healed(fs, ts);
    forall p ensures (p in a <==> p in b) && (p in a ==> a[p] == b[p]) {
      if p != t { assert Bck(p) in after <==> Bck(p) in fs; }
    }
  }

  /** Everything but the targets and their copies is left alone. */
  predicate Elsewhere(p: Path, ts: set<Path>) { p !in ts && !BackupOf(p, ts) }

  ghost predicate SameElsewhere(f: Files, g: Files, ts: set<Path>) {
    forall p | Elsewhere(p, ts) :: (p in f <==> p in g) && (p in f ==> f[p] == g[p])
  }

  lemma RestoredOneHeals(d: Disk, ts: set<Path>, t: Path)
    requires t in ts && forall u | u in ts :: !IsBck(u)
    ensures var e := RestoredOne(d, t);
            && Healed(e.files, ts) == Healed(d.files, ts) && SameElsewhere(d.files, e.files, ts)
            && e.power <= d.power && e.clashes == d.clashes
            && (forall u | Bck(u) in e.files :: Bck(u) in d.files)
            && (d.Sound() ==> e.Sound() && (e.Alive() ==> Bck(t) !in e.files))
  {
    if Bck(t) in d.files {
      var d1 := Removed(d, t);
      HealedRemove(d.files, ts, t);
      if CanRename(d1, Bck(t), t) { HealedRename(d1.files, ts, t); }
    }
  }

  lemma {:induction false} RestoredEachHeals(d: Disk, ts: set<Path>, paths: seq<Path>)
    requires (forall p | p in paths :: p in ts) && (forall u | u in ts :: !IsBck(u))
    ensures var e := RestoredEach(d, paths);
            && Healed(e.files, ts) == Healed(d.files, ts) && SameElsewhere(d.files, e.files, ts)
            && e.power <= d.power && e.clashes == d.clashes
            && (forall u | Bck(u) in e.files :: Bck(u) in d.files)
            && (d.Sound() ==> e.Sound() && (e.Alive() ==> forall p | p in paths :: Bck(p) !in e.files))
    decreases |paths|
  {
    if paths != [] {
      RestoredOneHeals(d, ts, paths[0]);
      RestoredEachHeals(RestoredOne(d, paths[0]), ts, paths[1..]);
    }
  }

  lemma {:induction false} DeadRestored(d: Disk, paths: seq<Path>)
    requires d.power == 0
    ensures RestoredEach(d, paths) == d
    decreases |paths|
  {
    if paths != [] { DeadRestored(RestoredOne(d, paths[0]), paths[1..]); }
  }

  /** The journal of a disk names targets that are usable. */
  ghost predicate Sane(fs: Files, journal: Path) {
    Apart(Targets(ReadJournal(fs, journal).paths), journal)
  }

  /** `restore_all` from a disk with a journal: cut short, it keeps the journal
      and the generation that the journal protects; otherwise that generation is
      in place and the journal gone. Nothing is ever renamed onto a file. */
  lemma RestoreOutcome(d: Disk, cfg: Config)
    requires d.Sound() && Sane(d.files, cfg.journal) && cfg.journal in d.files
    ensures var ts := Targets(ReadJournal(d.files, cfg.journal).paths);
            var e := RestoredAll(d, cfg);
            && e.Sound() && e.power <= d.power && e.clashes == d.clashes
            && SameElsewhere(d.files - {cfg.journal}, e.files - {cfg.journal}, ts)
            && ((&& cfg.journal in e.files && e.files[cfg.journal] == d.files[cfg.journal] && !e.Alive()
                 && Healed(e.files, ts) == Healed(d.files, ts)
                 && forall u | Bck(u) in e.files :: Bck(u) in d.files)
                || e.files == Healed(d.files, ts) - {cfg.journal})
            && (e.files == Healed(d.files, ts) - {cfg.journal} ==> forall t | t in ts :: Bck(t) !in e.files)
  {
    var paths := ReadJournal(d.files, cfg.journal).paths;
    var ts := Targets(paths);
    RestoredEachHeals(d, ts, paths);
    var m := RestoredEach(d, paths);
    assert Elsewhere(cfg.journal, ts);
    if m.Alive() { HealedWithoutBackups(m.files, ts); }
  }

  /** `restore_all` run once for each budget, each run on what the last one left. */
  function RestoredMany(d: Disk, cfg: Config, budgets: seq<nat>): Disk
    decreases |budgets|
  {
    if budgets == [] then d
    else RestoredMany(RestoredAll(d.Reboot(budgets[0]), cfg), cfg, budgets[1..])
  }

  /** Either still on the way with the same journal, or finished. */
  ghost predicate OnTheWay(was: Files, now: Files, cfg: Config) {
    var ts := Targets(ReadJournal(was, cfg.journal).paths);
    || (cfg.journal in was && cfg.journal in now && now[cfg.journal] == was[cfg.journal] && Healed(now, ts) == Healed(was, ts)
        && SameElsewhere(was, now, ts))
    || (cfg.journal !in now && now == Healed(was, ts) - {cfg.journal})
  }

  lemma RestoreStep(was: Files, d: Disk, cfg: Config)
    requires d.Sound() && Sane(was, cfg.journal) && OnTheWay(was, d.files, cfg)
    ensures var e := RestoredAll(d, cfg);
            && e.Sound() && OnTheWay(was, e.files, cfg) && e.clashes == d.clashes
            && (e.Alive() ==> e.files == Healed(was, Targets(ReadJournal(was, cfg.journal).paths)) - {cfg.journal})
  {
    hide Healed;
    if cfg.journal in d.files {
      RestoreOutcome(d, cfg);
    } else {
      assert RestoredEach(d, []) == d;
    }
  }

  lemma {:induction false} RestoresOnTheWay(was: Files, d: Disk, cfg: Config, budgets: seq<nat>)
    requires d.Sound() && Sane(was, cfg.journal) && OnTheWay(was, d.files, cfg)
    ensures var e := RestoredMany(d, cfg, budgets);
            e.Sound() && OnTheWay(was, e.files, cfg) && e.clashes == d.clashes
    decreases |budgets|
  {
    if budgets != [] {
      var d1 := d.Reboot(budgets[0]);
      RestoreStep(was, d1, cfg);
      RestoresOnTheWay(was, RestoredAll(d1, cfg), cfg, budgets[1..]);
    }
  }

  /** Any number of interrupted restores followed by a complete one ends on the
      very disk that a single uninterrupted restore produces, and no rename ever
      met an existing destination. */
  lemma RestoreIsReentrant(d: Disk, cfg: Config, budgets: seq<nat>, last: nat, single: nat)
    requires d.Sound() && Sane(d.files, cfg.journal)
    requires RestoredAll(RestoredMany(d, cfg, budgets).Reboot(last), cfg).Alive()
    requires RestoredAll(d.Reboot(single), cfg).Alive()
    ensures var many := RestoredAll(RestoredMany(d, cfg, budgets).Reboot(last), cfg);
            && many.files == RestoredAll(d.Reboot(single), cfg).files
            && many.clashes == d.clashes
  {
    var ts := Targets(ReadJournal(d.files, cfg.journal).paths);
    if cfg.journal !in d.files { HealedWithoutBackups(d.files, ts); }
    assert OnTheWay(d.files, d.files, cfg);
    RestoresOnTheWay(d.files, d, cfg, budgets);
    var m := RestoredMany(d, cfg, budgets).Reboot(last);
    RestoreStep(d.files, m, cfg);
    RestoreStep(d.files, d.Reboot(single), cfg);
  }

  lemma {:induction false} RestoredEachWork(d: Disk, paths: seq<Path>)
    ensures RestoredEach(d, paths).power + 2 * |paths| >= d.power
    decreases |paths|
  {
    if paths != [] { RestoredEachWork(RestoredOne(d, paths[0]), paths[1..]); }
  }

  /** A restore is bounded by the journal: two steps a path and one for the journal. */
  lemma RestoreIsBounded(d: Disk, cfg: Config)
    ensures RestoredAll(d, cfg).power + 2 * |ReadJournal(d.files, cfg.journal).paths| + 1 >= d.power
  {
    RestoredEachWork(d, ReadJournal(d.files, cfg.journal).paths);
  }
}
