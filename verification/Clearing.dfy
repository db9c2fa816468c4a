/** Where `commit`'s assumption comes from: no retained copy is left over when the
    set is committed, because every retained copy in the tree is journalled and
    UPDATE_START clears the journalled ones. */
module Clearing {
  import opened Disks
  import opened Names
  import opened Journals
  import opened Restore
  import opened Healing
  import opened Atomicity

  /** Every retained copy in the tree is one of the journal's. */
  ghost predicate Journalled(fs: Files, cfg: Config) {
    forall p | p in fs && IsBck(p) :: Stem(p) in ReadJournal(fs, cfg.journal).paths
  }

  /** No retained copy anywhere, and no journal. */
  ghost predicate Clean(fs: Files, cfg: Config) {
    cfg.journal !in fs && forall p | p in fs :: !IsBck(p)
  }

  /** Nothing new is a retained copy. */
  ghost predicate NoNewBackups(f: Files, g: Files) { forall p | p in g && IsBck(p) :: p in f }

  /* ---- clear_journal ---- */

  lemma {:induction false} ClearedBackups(d: Disk, paths: seq<Path>, journal: Path)
    requires !IsBck(journal)
    ensures var e := RemovedBackups(d, paths);
            && e.power <= d.power && e.renames == d.renames && e.bad == d.bad && e.clashes == d.clashes
            && (forall p | p in e.files :: p in d.files && e.files[p] == d.files[p])
            && (forall p | p in d.files && p !in e.files :: IsBck(p) && Stem(p) in paths)
            && (e.Alive() ==> forall p | p in e.files && IsBck(p) :: Stem(p) !in paths)
    decreases |paths|
  {
    if paths != [] {
      var t := paths[0];
      ClearedBackups(Removed(d, Bck(t)), paths[1..], journal);
      forall p | p in RemovedBackups(d, paths).files && IsBck(p) && RemovedBackups(d, paths).Alive() ensures Stem(p) !in paths {
        BckOfStem(p);
        assert paths == [t] + paths[1..];
      }
    }
  }

  /** `clear_journal` cut anywhere removes journalled copies and then the journal;
      run to its end on a journalled tree it leaves the tree clean. */
  lemma ClearJournalCleans(d: Disk, cfg: Config)
    requires Journalled(d.files, cfg) && !IsBck(cfg.journal)
    ensures var e := Cleared(d, cfg);
            && Journalled(e.files, cfg)
            && (forall p | p != cfg.journal && !IsBck(p) :: Same(d.files, e.files, p))
            && (e.Alive() ==> Clean(e.files, cfg))
  {
    var paths := ReadJournal(d.files, cfg.journal).paths;
    ClearedBackups(d, paths, cfg.journal);
    var m := RemovedBackups(d, paths);
    assert Same(d.files, m.files, cfg.journal);
  }

  /** UPDATE_START makes the commit that ends the session atomic. */
  lemma CleanIsFresh(d: Disk, cfg: Config, staged: seq<Staged>)
    requires Clean(d.files, cfg)
    ensures cfg.journal !in d.files && Fresh(d.files, Targets(StagedTargets(d.files, staged)))
  {}

  /* ---- the commit ---- */

  lemma ShrinkKeeps(f: Files, g: Files, cfg: Config)
    requires Journalled(f, cfg) && NoNewBackups(f, g) && ReadJournal(g, cfg.journal).paths == ReadJournal(f, cfg.journal).paths
    ensures Journalled(g, cfg)
  {}

  /** The commit itself, cut anywhere, starts from a clean tree and leaves a
      journalled one. */
  lemma CommitKeepsJournalled(d: Disk, cfg: Config, staged: seq<Staged>, deletes: seq<Path>)
    requires d.Sound() && Clean(d.files, cfg) && Ready(d.files, cfg, staged, deletes)
    ensures Journalled(Committed(d, cfg, staged, deletes).0.files, cfg)
  {
    var paths := StagedTargets(d.files, staged);
    var ts := Targets(paths);
    CommitCut(d, cfg, staged, deletes);
    var e := Committed(d, cfg, staged, deletes).0;
    if e != d {
      assert ReadJournal(e.files, cfg.journal).paths == paths;
      forall p | IsBck(p) && !BackupOf(p, ts) ensures p !in e.files {
        CommitAddsOnlyCopies(d, cfg, staged, deletes, p);
      }
    }
  }

  /** No step of a commit makes a retained copy of something that is no target. */
  lemma CommitAddsOnlyCopies(d: Disk, cfg: Config, staged: seq<Staged>, deletes: seq<Path>, p: Path)
    requires d.Sound() && Ready(d.files, cfg, staged, deletes)
    requires IsBck(p) && p !in d.files && !BackupOf(p, Targets(StagedTargets(d.files, staged)))
    ensures p !in Committed(d, cfg, staged, deletes).0.files
  {
    BckOfStem(p);
    CommitBringsNoOther(d, cfg, staged, deletes, p);
  }
}
