/** Crash atomicity of `commit`: cut the power anywhere inside it, then anywhere
    inside any number of repairs. The next repair that runs to its end leaves
    the new generation whole or the old one whole. */
module Atomicity {
  import opened Disks
  import opened Names
  import opened Journals
  import opened Restore
  import opened Healing
  import opened Text

  /** What the update loop hands to `commit`: staged files carry their target's
      name, and the paths to delete are none of the targets, their retained
      copies or the journal. */
  ghost predicate Ready(fs: Files, cfg: Config, staged: seq<Staged>, deletes: seq<Path>) {
    var ts := Targets(StagedTargets(fs, staged));
    && Apart(ts, cfg.journal)
    && (forall s | s in staged :: s.staging == Ota(s.target))
    && (forall p | p in deletes :: Elsewhere(p, ts) && p != cfg.journal)
  }

  /** A retained copy left over from before holds what its target holds. */
  ghost predicate Harmless(fs: Files, ts: set<Path>) {
    forall t | t in ts && t in fs && Bck(t) in fs :: fs[Bck(t)] == fs[t]
  }

  /** No retained copy is left over at all. */
  ghost predicate Fresh(fs: Files, ts: set<Path>) { forall t | t in ts :: Bck(t) !in fs }

  predicate Same(f: Files, g: Files, p: Path) { (p in f <==> p in g) && (p in f ==> f[p] == g[p]) }

  /* ---- the state of one target while the set is being placed ---- */

  ghost predicate Untouched(was: Files, now: Files, t: Path) {
    && Ota(t) in was && Same(was, now, Ota(t)) && Same(was, now, t)
    && (Bck(t) in now ==> Bck(t) in was && now[Bck(t)] == was[Bck(t)])
  }

  ghost predicate Aside(was: Files, now: Files, t: Path) {
    && Ota(t) in was && Same(was, now, Ota(t))
    && t in was && t !in now && Bck(t) in now && now[Bck(t)] == was[t]
  }

  ghost predicate New(was: Files, now: Files, t: Path) {
    && Ota(t) in was && Ota(t) !in now && t in now && now[t] == was[Ota(t)]
    && (if t in was then Bck(t) in now && now[Bck(t)] == was[t] else Bck(t) !in now)
  }

  ghost predicate Even(was: Files, now: Files, t: Path) { Untouched(was, now, t) || New(was, now, t) }

  ghost predicate Half(was: Files, now: Files, t: Path) { Even(was, now, t) || Aside(was, now, t) }

  ghost predicate AllEven(was: Files, now: Files, ts: set<Path>) { forall t | t in ts :: Even(was, now, t) }

  ghost predicate AllHalf(was: Files, now: Files, ts: set<Path>) { forall t | t in ts :: Half(was, now, t) }

  /** A path that no step of the commit names. */
  predicate Outside(p: Path, cfg: Config, ts: set<Path>, deletes: seq<Path>) {
    && Elsewhere(p, ts) && p != cfg.journal && !(IsOta(p) && Stem(p) in ts)
    && p !in deletes && !(IsBck(p) && Stem(p) in deletes)
  }

  ghost predicate SameOutside(f: Files, g: Files, cfg: Config, ts: set<Path>, deletes: seq<Path>) {
    forall p | Outside(p, cfg, ts, deletes) :: Same(f, g, p)
  }

  /** A path and its retained copy are the same on both. */
  ghost predicate SameAt(f: Files, g: Files, t: Path) { Same(f, g, t) && Same(f, g, Bck(t)) }

  /* ---- dead disks ---- */

  lemma {:induction false} DeadPlaced(d: Disk, staged: seq<Staged>)
    requires d.power == 0
    ensures Placed(d, staged).disk == d
    decreases |staged|
  {
    if staged != [] {
      if PlacedOne(d, staged[0]).ok { DeadPlaced(PlacedOne(d, staged[0]).disk, staged[1..]); }
    }
  }

  lemma {:induction false} DeadUndone(d: Disk, done: seq<Moved>)
    requires d.power == 0
    ensures Undone(d, done) == d
    decreases |done|
  {
    if done != [] { DeadUndone(d, done[1..]); }
  }

  lemma {:induction false} DeadDeleted(d: Disk, paths: seq<Path>)
    requires d.power == 0
    ensures Deleted(d, paths) == d
    decreases |paths|
  {
    if paths != [] { DeadDeleted(d, paths[1..]); }
  }

  lemma {:induction false} DeletedPower(d: Disk, paths: seq<Path>)
    ensures Deleted(d, paths).power <= d.power && Deleted(d, paths).renames == d.renames
    decreases |paths|
  {
    if paths != [] { DeletedPower(Removed(Removed(d, paths[0]), Bck(paths[0])), paths[1..]); }
  }

  /* ---- placing the set ---- */

  ghost predicate OnlyAt(f: Files, g: Files, t: Path) {
    forall p | p != t && p != Bck(t) && p != Ota(t) :: Same(f, g, p)
  }

  lemma PlacedOneFrame(d: Disk, s: Staged)
    requires s.staging == Ota(s.target) && d.Sound()
    ensures var p := PlacedOne(d, s);
            && OnlyAt(d.files, p.disk.files, s.target) && p.disk.Sound() && p.disk.power <= d.power
            && (Ota(s.target) !in d.files ==> p == Placement(d, [], true))
            && (Ota(s.target) in p.disk.files ==> Ota(s.target) in d.files)
  {}

  lemma PlacedOneTarget(was: Files, d: Disk, s: Staged)
    requires s.staging == Ota(s.target) && d.Sound() && d.Alive() && Even(was, d.files, s.target)
    requires !IsBck(s.target) && !IsOta(s.target) && s.staging in d.files
    ensures var p := PlacedOne(d, s);
            && Half(was, p.disk.files, s.target) && p.disk.clashes == d.clashes
            && (p.disk.Alive() ==> p.ok && New(was, p.disk.files, s.target))
  {
    var t := s.target;
    var d1 := Removed(d, Bck(t));
    assert Untouched(was, d1.files, t);
    if d1.Alive() {
      assert Bck(t) !in d1.files;
      if t in d1.files {
        var d2 := Renamed(d1, t, Bck(t));
        assert CanRename(d1, t, Bck(t));
        assert Aside(was, d2.files, t);
        assert d2.Alive() ==> CanRename(d2, Ota(t), t);
      }
    }
  }

  lemma SameElsewhereAt(f: Files, g: Files, t: Path, u: Path)
    requires OnlyAt(f, g, t) && t != u && !IsBck(t) && !IsOta(t) && !IsBck(u) && !IsOta(u)
    ensures SameAt(f, g, u) && Same(f, g, Ota(u))
  {
    OtherNames(t, u);
  }

  lemma EvenStays(was: Files, f: Files, g: Files, t: Path, u: Path)
    requires OnlyAt(f, g, t) && t != u && !IsBck(t) && !IsOta(t) && !IsBck(u) && !IsOta(u) && Even(was, f, u)
    ensures Even(was, g, u)
  {
    SameElsewhereAt(f, g, t, u);
  }

  /** What each step of the placing loop keeps. */
  ghost predicate Kept(f: Files, g: Files, cfg: Config, ts: set<Path>) {
    && (forall o | Ota(o) in g :: Ota(o) in f)
    && SameOutside(f, g, cfg, ts, []) && Same(f, g, cfg.journal)
  }

  lemma PlacedOneStep(was: Files, d: Disk, cfg: Config, ts: set<Path>, s: Staged)
    requires Apart(ts, cfg.journal) && d.Sound() && d.Alive() && AllEven(was, d.files, ts)
    requires s.staging == Ota(s.target) && (s.staging in d.files ==> s.target in ts)
    ensures var p := PlacedOne(d, s);
            && AllHalf(was, p.disk.files, ts) && p.disk.Sound() && p.disk.power <= d.power && p.disk.clashes == d.clashes
            && (p.disk.Alive() ==> p.ok && AllEven(was, p.disk.files, ts) && s.staging !in p.disk.files)
            && Kept(d.files, p.disk.files, cfg, ts)
  {
    var p, t := PlacedOne(d, s), s.target;
    PlacedOneFrame(d, s);
    if s.staging in d.files {
      PlacedOneTarget(was, d, s);
      forall u | u in ts && u != t ensures Even(was, p.disk.files, u) {
        EvenStays(was, d.files, p.disk.files, t, u);
      }
    }
  }

  lemma OtherNames(t: Path, u: Path)
    requires t != u
    ensures Bck(t) != Bck(u) && Ota(t) != Ota(u) && Bck(t) != Ota(u) && Ota(t) != Bck(u)
  {}

  lemma {:induction false} PlacedSteps(was: Files, d: Disk, cfg: Config, ts: set<Path>, staged: seq<Staged>)
    requires Apart(ts, cfg.journal) && d.Sound() && d.Alive() && AllEven(was, d.files, ts)
    requires forall s | s in staged :: s.staging == Ota(s.target) && (s.staging in d.files ==> s.target in ts)
    ensures var p := Placed(d, staged);
            && AllHalf(was, p.disk.files, ts) && p.disk.Sound() && p.disk.power <= d.power && p.disk.clashes == d.clashes
            && (p.disk.Alive() ==> p.ok && AllEven(was, p.disk.files, ts) && forall s | s in staged :: s.staging !in p.disk.files)
            && Kept(d.files, p.disk.files, cfg, ts)
    decreases |staged|
  {
    if staged != [] {
      var one := PlacedOne(d, staged[0]);
      PlacedOneStep(was, d, cfg, ts, staged[0]);
      if one.disk.Alive() {
        PlacedSteps(was, one.disk, cfg, ts, staged[1..]);
      } else if one.ok {
        DeadPlaced(one.disk, staged[1..]);
      }
    }
  }

  /* ---- the whole commit, cut anywhere ---- */

  lemma {:induction false} StagedTargetsAre(fs: Files, staged: seq<Staged>)
    requires forall s | s in staged :: s.staging == Ota(s.target)
    ensures forall t | t in StagedTargets(fs, staged) :: Ota(t) in fs
    ensures forall s | s in staged && s.staging in fs :: s.target in StagedTargets(fs, staged)
  {
    if staged != [] { StagedTargetsAre(fs, staged[1..]); }
  }

  lemma {:induction false} StagedWitness(fs: Files, staged: seq<Staged>, t: Path) returns (s: Staged)
    requires t in StagedTargets(fs, staged)
    ensures s in staged && s.target == t && s.staging in fs
  {
    if staged[0].staging in fs && staged[0].target == t { s := staged[0]; }
    else { s := StagedWitness(fs, staged[1..], t); }
  }

  ghost predicate AllNew(was: Files, now: Files, ts: set<Path>) { forall t | t in ts :: New(was, now, t) }

  lemma OneDeleted(was: Files, d: Disk, cfg: Config, ts: set<Path>, p: Path)
    requires Apart(ts, cfg.journal) && AllNew(was, d.files, ts) && Elsewhere(p, ts) && p != cfg.journal
    ensures var e := Removed(Removed(d, p), Bck(p));
            && AllNew(was, e.files, ts) && e.renames == d.renames && e.bad == d.bad && e.power <= d.power && e.clashes == d.clashes
            && Same(d.files, e.files, cfg.journal)
            && forall q | q != p && q != Bck(p) :: Same(d.files, e.files, q)
  {
    var e := Removed(Removed(d, p), Bck(p));
    forall t | t in ts ensures New(was, e.files, t) {
      assert New(was, d.files, t);
      assert p != Bck(t) by { assert Stem(Bck(t)) == t; }
      assert Bck(p) != Bck(t) by { assert Stem(Bck(t)) == t && Stem(Bck(p)) == p; }
    }
  }

  lemma {:induction false} DeletedKeeps(was: Files, d: Disk, cfg: Config, ts: set<Path>, deletes: seq<Path>)
    requires Apart(ts, cfg.journal) && AllNew(was, d.files, ts) && d.Sound()
    requires forall p | p in deletes :: Elsewhere(p, ts) && p != cfg.journal
    ensures var e := Deleted(d, deletes);
            && AllNew(was, e.files, ts) && e.Sound() && e.power <= d.power && e.clashes == d.clashes
            && Same(d.files, e.files, cfg.journal) && SameOutside(d.files, e.files, cfg, ts, deletes)
    decreases |deletes|
  {
    if deletes != [] {
      var p, rest := deletes[0], deletes[1..];
      assert p in deletes && forall q | q in rest :: q in deletes;
      var m := Removed(Removed(d, p), Bck(p));
      OneDeleted(was, d, cfg, ts, p);
      DeletedKeeps(was, m, cfg, ts, rest);
      var e := Deleted(d, deletes);
      forall q | Outside(q, cfg, ts, deletes) ensures Same(d.files, e.files, q) {
        assert Outside(q, cfg, ts, rest);
        assert q != Bck(p);
      }
    }
  }

  ghost predicate Midway(was: Files, now: Files, cfg: Config, paths: seq<Path>, deletes: seq<Path>) {
    && cfg.journal in now && ReadJournal(now, cfg.journal) == Journal(0, Committing, paths)
    && AllHalf(was, now, Targets(paths)) && SameOutside(was, now, cfg, Targets(paths), deletes)
  }

  /** The new generation is in place, the old one retained, and the trial begins. */
  ghost predicate NewWhole(was: Files, now: Files, cfg: Config, paths: seq<Path>, deletes: seq<Path>) {
    && ReadJournal(now, cfg.journal) == Journal(0, Trial, paths)
    && AllNew(was, now, Targets(paths)) && SameOutside(was, now, cfg, Targets(paths), deletes)
  }

  lemma JournalWritten(d: Disk, cfg: Config, state: State, paths: seq<Path>)
    requires d.Alive() && Apart(Targets(paths), cfg.journal) && state != Confirmed
    ensures ReadJournal(WroteJournal(d, cfg, StateLine(state, 0), paths).files, cfg.journal) == Journal(0, state, paths)
  {
    forall p | p in paths ensures OneLine(p) { assert p in Targets(paths); }
    JournalRoundTrip(state, 0, paths);
  }

  lemma Wider(f: Files, g: Files, cfg: Config, ts: set<Path>, deletes: seq<Path>)
    requires SameOutside(f, g, cfg, ts, [])
    ensures SameOutside(f, g, cfg, ts, deletes)
  {
    forall p | Outside(p, cfg, ts, deletes) ensures Same(f, g, p) { assert Outside(p, cfg, ts, []); }
  }

  lemma JournalLeavesTargets(was: Files, cfg: Config, text: string, ts: set<Path>)
    requires Apart(ts, cfg.journal) && forall t | t in ts :: Ota(t) in was
    ensures AllEven(was, was[cfg.journal := text], ts) && SameOutside(was, was[cfg.journal := text], cfg, ts, [])
  {
    var now := was[cfg.journal := text];
    forall t | t in ts ensures Even(was, now, t) { assert Untouched(was, now, t); }
  }

  lemma CommitStarts(d: Disk, cfg: Config, staged: seq<Staged>, deletes: seq<Path>)
    requires d.Sound() && d.Alive() && Ready(d.files, cfg, staged, deletes)
    ensures var paths := StagedTargets(d.files, staged);
            var d1 := WroteJournal(d, cfg, COMMITTING, paths);
            && d1.Sound() && d1.clashes == d.clashes && d1.power + 1 == d.power
            && AllEven(d.files, d1.files, Targets(paths)) && Midway(d.files, d1.files, cfg, paths, deletes)
            && SameOutside(d.files, d1.files, cfg, Targets(paths), [])
  {
    var was, paths := d.files, StagedTargets(d.files, staged);
    StagedTargetsAre(was, staged);
    var d1 := WroteJournal(d, cfg, COMMITTING, paths);
    JournalWritten(d, cfg, Committing, paths);
    JournalLeavesTargets(was, cfg, JournalText(COMMITTING, paths), Targets(paths));
    assert AllHalf(was, d1.files, Targets(paths));
    Wider(was, d1.files, cfg, Targets(paths), deletes);
  }

  lemma CommitPlaces(d: Disk, cfg: Config, staged: seq<Staged>, deletes: seq<Path>)
    requires var d1 := WroteJournal(d, cfg, COMMITTING, StagedTargets(d.files, staged));
             d.Sound() && d1.Alive() && Ready(d.files, cfg, staged, deletes)
    ensures var paths := StagedTargets(d.files, staged);
            var p := Placed(WroteJournal(d, cfg, COMMITTING, paths), staged);
            && p.disk.Sound() && p.disk.clashes == d.clashes && p.disk.power <= d.power
            && Midway(d.files, p.disk.files, cfg, paths, deletes) && SameOutside(d.files, p.disk.files, cfg, Targets(paths), [])
            && (p.disk.Alive() ==> p.ok && AllNew(d.files, p.disk.files, Targets(paths)))
  {
    var was, paths := d.files, StagedTargets(d.files, staged);
    var d1 := WroteJournal(d, cfg, COMMITTING, paths);
    CommitStarts(d, cfg, staged, deletes);
    StagedTargetsAre(was, staged);
    PlacedSteps(was, d1, cfg, Targets(paths), staged);
    var p := Placed(d1, staged);
    Wider(was, p.disk.files, cfg, Targets(paths), deletes);
    if p.disk.Alive() { AllPlaced(was, p.disk.files, staged); }
  }

  /** The three kinds of disk that a commit can leave, whatever its power. */
  lemma CommitCut(d: Disk, cfg: Config, staged: seq<Staged>, deletes: seq<Path>)
    requires d.Sound() && Ready(d.files, cfg, staged, deletes)
    ensures var (e, ok) := Committed(d, cfg, staged, deletes);
            var paths := StagedTargets(d.files, staged);
            && e.Sound() && e.clashes == d.clashes && e.power <= d.power
            && (e == d || Midway(d.files, e.files, cfg, paths, deletes) || NewWhole(d.files, e.files, cfg, paths, deletes))
            && (d.Alive() ==> e != d)
            && (e.Alive() ==> ok && NewWhole(d.files, e.files, cfg, paths, deletes))
  {
    var was, paths := d.files, StagedTargets(d.files, staged);
    var d1 := WroteJournal(d, cfg, COMMITTING, paths);
    if d.power == 0 { CommitDies(d, cfg, staged, deletes); return; }
    CommitStarts(d, cfg, staged, deletes);
    if d1.power == 0 { CommitDies(d, cfg, staged, deletes); return; }
    CommitPlaces(d, cfg, staged, deletes);
    var p := Placed(d1, staged);
    if p.disk.power == 0 { CommitDies(d, cfg, staged, deletes); return; }
    DeletedKeeps(was, p.disk, cfg, Targets(paths), deletes);
    CommitEnds(was, Deleted(p.disk, deletes), cfg, paths, deletes);
  }

  lemma CommitDies(d: Disk, cfg: Config, staged: seq<Staged>, deletes: seq<Path>)
    requires var d1 := WroteJournal(d, cfg, COMMITTING, StagedTargets(d.files, staged));
             d1.power == 0 || Placed(d1, staged).disk.power == 0
    ensures var d1 := WroteJournal(d, cfg, COMMITTING, StagedTargets(d.files, staged));
            && Committed(d, cfg, staged, deletes).0 == Placed(d1, staged).disk
            && (d1.power == 0 ==> Placed(d1, staged).disk == d1)
  {
    var d1 := WroteJournal(d, cfg, COMMITTING, StagedTargets(d.files, staged));
    if d1.power == 0 { DeadPlaced(d1, staged); }
    var p := Placed(d1, staged);
    DeadUndone(p.disk, p.done);
    DeadDeleted(p.disk, deletes);
  }

  lemma AllPlaced(was: Files, now: Files, staged: seq<Staged>)
    requires forall s | s in staged :: s.staging == Ota(s.target) && s.staging !in now
    requires AllEven(was, now, Targets(StagedTargets(was, staged)))
    ensures AllNew(was, now, Targets(StagedTargets(was, staged)))
  {
    forall t | t in Targets(StagedTargets(was, staged)) ensures New(was, now, t) {
      var s := StagedWitness(was, staged, t);
      assert Even(was, now, t);
    }
  }

  /** The last journal write: cut short it changes nothing, otherwise it starts the trial. */
  lemma CommitEnds(was: Files, d: Disk, cfg: Config, paths: seq<Path>, deletes: seq<Path>)
    requires Apart(Targets(paths), cfg.journal) && AllNew(was, d.files, Targets(paths))
    requires SameOutside(was, d.files, cfg, Targets(paths), deletes)
    requires cfg.journal in d.files && ReadJournal(d.files, cfg.journal) == Journal(0, Committing, paths)
    ensures var e := WroteJournal(d, cfg, IntText(0), paths);
            && (d.Alive() ==> NewWhole(was, e.files, cfg, paths, deletes))
            && (!d.Alive() ==> e == d && Midway(was, e.files, cfg, paths, deletes))
  {
    var e := WroteJournal(d, cfg, IntText(0), paths);
    if d.Alive() { JournalWritten(d, cfg, Trial, paths); }
    forall t | t in Targets(paths) ensures New(was, e.files, t) { assert New(was, d.files, t); }
  }

  /* ---- what a commit deletes ---- */

  ghost predicate Shrunk(f: Files, g: Files) { forall p | p in g :: p in f && g[p] == f[p] }

  ghost predicate Gone(files: Files, paths: seq<Path>) { forall p | p in paths :: p !in files && Bck(p) !in files }

  lemma {:induction false} DeletedShrinks(d: Disk, paths: seq<Path>)
    ensures var e := Deleted(d, paths); Shrunk(d.files, e.files) && (e.Alive() ==> Gone(e.files, paths))
    decreases |paths|
  {
    if paths != [] {
      var m := Removed(Removed(d, paths[0]), Bck(paths[0]));
      DeletedShrinks(m, paths[1..]);
      DeletedPower(m, paths[1..]);
      assert Shrunk(d.files, m.files);
      if Deleted(d, paths).Alive() { assert paths[0] !in m.files && Bck(paths[0]) !in m.files; }
    }
  }

  /** A commit whose last journal write has landed, so that the trial has begun, leaves no
      deleted path and no copy of one. */
  lemma CommitDeletes(d: Disk, cfg: Config, staged: seq<Staged>, deletes: seq<Path>)
    requires d.Sound() && Ready(d.files, cfg, staged, deletes)
    ensures var e := Committed(d, cfg, staged, deletes).0;
            e.Alive() || (ReadJournal(e.files, cfg.journal).state == Trial && ReadJournal(d.files, cfg.journal).state != Trial) ==>
              Gone(e.files, deletes)
  {
    hide Placed, Deleted, StagedTargets, JournalText, ReadJournal, Gone;
    var paths := StagedTargets(d.files, staged);
    var d1 := WroteJournal(d, cfg, COMMITTING, paths);
    if d.power == 0 { CommitDies(d, cfg, staged, deletes); return; }
    CommitStarts(d, cfg, staged, deletes);
    if d1.power == 0 { CommitDies(d, cfg, staged, deletes); return; }
    CommitPlaces(d, cfg, staged, deletes);
    var p := Placed(d1, staged);
    if p.disk.power == 0 { CommitDies(d, cfg, staged, deletes); return; }
    DeletedShrinks(p.disk, deletes);
    DeletedKeeps(d.files, p.disk, cfg, Targets(paths), deletes);
    LastWrite(p.disk, Deleted(p.disk, deletes), cfg, paths, deletes);
  }

  lemma LastWrite(d: Disk, m: Disk, cfg: Config, paths: seq<Path>, deletes: seq<Path>)
    requires (m.Alive() ==> Gone(m.files, deletes)) && Same(d.files, m.files, cfg.journal)
    requires ReadJournal(d.files, cfg.journal).state == Committing
    requires !IsBck(cfg.journal) && forall p | p in deletes :: p != cfg.journal
    ensures var e := WroteJournal(m, cfg, IntText(0), paths);
            e.Alive() || ReadJournal(e.files, cfg.journal).state == Trial ==> Gone(e.files, deletes)
  {
    hide JournalText, ParseJournal, IntText;
  }

  /** Wherever it is cut, a commit puts nothing under a name that it has no staged file for. */
  lemma CommitBringsNoOther(d: Disk, cfg: Config, staged: seq<Staged>, deletes: seq<Path>, q: Path)
    requires d.Sound() && Ready(d.files, cfg, staged, deletes)
    requires Outside(q, cfg, Targets(StagedTargets(d.files, staged)), [])
    ensures var e := Committed(d, cfg, staged, deletes).0; q in e.files ==> q in d.files && e.files[q] == d.files[q]
  {
    hide Placed, Deleted, StagedTargets, JournalText;
    var paths := StagedTargets(d.files, staged);
    var d1 := WroteJournal(d, cfg, COMMITTING, paths);
    if d.power == 0 { CommitDies(d, cfg, staged, deletes); return; }
    CommitStarts(d, cfg, staged, deletes);
    if d1.power == 0 { CommitDies(d, cfg, staged, deletes); return; }
    CommitPlaces(d, cfg, staged, deletes);
    var p := Placed(d1, staged);
    assert Same(d.files, p.disk.files, q);
    if p.disk.power == 0 { CommitDies(d, cfg, staged, deletes); return; }
    DeletedShrinks(p.disk, deletes);
  }
}
