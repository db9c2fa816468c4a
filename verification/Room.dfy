/** The protocol's own renames and writes keep the file system a tree: what they
    create has its place there from the start. */
module Room {
  import opened Disks
  import opened Names
  import opened Journals
  import opened Restore
  import opened Healing
  import opened Atomicity
  import opened Sweep
  import opened Window

  /** Files, journalled targets and the device's own files have absolute names, and
      none of them is another's directory. */
  ghost predicate Roomy(files: Files, cfg: Config) {
    && Sane(files, cfg.journal)
    && Flat(files.Keys + Targets(ReadJournal(files, cfg.journal).paths) + OwnPaths(cfg))
  }

  /** Nothing but journalled targets and own files has been created, and the journal
      names no more than it did. */
  ghost predicate Inside(was: Files, now: Files, cfg: Config) {
    var paths := ReadJournal(was, cfg.journal).paths;
    && now.Keys <= was.Keys + Targets(paths) + OwnPaths(cfg)
    && (ReadJournal(now, cfg.journal).paths == paths || ReadJournal(now, cfg.journal).paths == [])
  }

  lemma RoomySane(files: Files, cfg: Config)
    requires Roomy(files, cfg)
    ensures Sane(files, cfg.journal)
  {}

  lemma RoomyInside(was: Files, now: Files, cfg: Config)
    requires Roomy(was, cfg) && Inside(was, now, cfg)
    ensures Roomy(now, cfg) && Tree(now)
  {
    hide Flat, Tree, ReadJournal, OwnPaths;
    var was', now' := Targets(ReadJournal(was, cfg.journal).paths), Targets(ReadJournal(now, cfg.journal).paths);
    FlatFewer(was.Keys + was' + OwnPaths(cfg), now.Keys + now' + OwnPaths(cfg));
    FlatFewer(now.Keys + now' + OwnPaths(cfg), now.Keys);
    FlatTree(now);
  }

  /* ---- no step of a restore touches a file that is not the journal's ---- */

  lemma {:induction false} RestoreSpares(d: Disk, paths: seq<Path>, p: Path)
    requires p !in paths && !IsBck(p)
    ensures Same(d.files, RestoredEach(d, paths).files, p)
    decreases |paths|
  {
    if paths != [] {
      assert paths[0] in paths;
      RestoreSpares(RestoredOne(d, paths[0]), paths[1..], p);
    }
  }

  lemma {:induction false} MendSpares(d: Disk, paths: seq<Path>, p: Path)
    requires p !in paths && !IsBck(p)
    ensures Same(d.files, MendedEach(d, paths).files, p)
    decreases |paths|
  {
    if paths != [] {
      var t := paths[0];
      assert t in paths;
      MendSpares(if Bck(t) in d.files && t !in d.files then Renamed(d, Bck(t), t) else d, paths[1..], p);
    }
  }

  /* ---- what each step creates ---- */

  lemma {:induction false} RestoreCreates(d: Disk, paths: seq<Path>)
    ensures RestoredEach(d, paths).files.Keys <= d.files.Keys + Targets(paths)
    decreases |paths|
  {
    if paths != [] { RestoreCreates(RestoredOne(d, paths[0]), paths[1..]); }
  }

  lemma {:induction false} MendCreates(d: Disk, paths: seq<Path>)
    ensures MendedEach(d, paths).files.Keys <= d.files.Keys + Targets(paths)
    decreases |paths|
  {
    if paths != [] {
      var t := paths[0];
      MendCreates(if Bck(t) in d.files && t !in d.files then Renamed(d, Bck(t), t) else d, paths[1..]);
    }
  }

  lemma RestoredAllInside(d: Disk, cfg: Config)
    requires Sane(d.files, cfg.journal)
    ensures Inside(d.files, RestoredAll(d, cfg).files, cfg)
  {
    var paths := ReadJournal(d.files, cfg.journal).paths;
    RestoreCreates(d, paths);
    RestoreSpares(d, paths, cfg.journal);
  }

  lemma RewrittenInside(was: Files, d: Disk, cfg: Config, state: State, attempt: int)
    requires Inside(was, d.files, cfg)
    ensures var paths := ReadJournal(was, cfg.journal).paths;
            Inside(was, WroteJournal(d, cfg, StateLine(state, attempt), paths).files, cfg)
  {
    ReadPathsAreLines(was, cfg.journal);
    JournalRoundTrip(state, attempt, ReadJournal(was, cfg.journal).paths);
  }

  lemma RepairedInside(d: Disk, cfg: Config)
    requires Sane(d.files, cfg.journal)
    ensures Inside(d.files, Repaired(d, cfg).files, cfg)
  {
    var j := ReadJournal(d.files, cfg.journal);
    if j.paths != [] && j.state == Committing {
      RestoredAllInside(d, cfg);
    } else if j.paths != [] && j.state == Trial {
      MendCreates(d, j.paths);
      MendSpares(d, j.paths, cfg.journal);
      RewrittenInside(d.files, MendedEach(d, j.paths), cfg, Trial, j.attempt);
    }
  }

  lemma TriedInside(d: Disk, cfg: Config)
    requires Sane(d.files, cfg.journal)
    ensures Inside(d.files, Tried(d, cfg).0.files, cfg)
  {
    var j := ReadJournal(d.files, cfg.journal);
    RestoredAllInside(d, cfg);
    RewrittenInside(d.files, d, cfg, Trial, j.attempt + 1);
  }

  lemma WrittenInside(d: Disk, cfg: Config, p: Path, text: Content)
    requires p in OwnPaths(cfg) && p != cfg.journal
    ensures Inside(d.files, Written(d, p, text).files, cfg)
  {}

  /** A boot up to its marker leaves a tree with room for everything it may still
      put there. */
  lemma MarkedIsRoomy(d: Disk, cfg: Config)
    requires Roomy(d.files, cfg) && cfg.mark != cfg.journal
    ensures Roomy(Marked(Settled(d, cfg).0, cfg).files, cfg) && Tree(Marked(Settled(d, cfg).0, cfg).files)
  {
    var r, s := Repaired(d, cfg), Settled(d, cfg).0;
    RepairedInside(d, cfg);
    RoomyInside(d.files, r.files, cfg);
    TriedInside(r, cfg);
    RoomyInside(r.files, s.files, cfg);
    WrittenInside(s, cfg, cfg.mark, "1");
    RoomyInside(s.files, Marked(s, cfg).files, cfg);
  }
}
