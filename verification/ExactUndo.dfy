/** When one rename inside `commit` is refused by the medium, the in-process
    rollback takes every step back. */
module ExactUndo {
  import opened Disks
  import opened Names
  import opened Journals
  import opened Restore
  import opened Healing
  import opened Atomicity
  import opened Text

  /** Of the renames still to come only attempt `f` is refused. */
  ghost predicate OneFault(d: Disk, f: nat) { f in d.bad && d.renames <= f && forall n | n in d.bad :: n < d.renames || n == f }

  /** Targets whose staged file is still there have not been touched. */
  ghost predicate Waiting(was: Files, now: Files, ts: set<Path>) {
    forall t | t in ts && Ota(t) in now :: Same(was, now, t) && Bck(t) !in now
  }

  /** `_rollback` can put this entry's target back. */
  ghost predicate Reversible(was: Files, now: Files, m: Moved) {
    && m.backup == Bck(m.target) && (m.had <==> m.target in was)
    && (if m.had then Bck(m.target) in now && now[Bck(m.target)] == was[m.target] else Bck(m.target) !in now)
  }

  ghost predicate Distinct(done: seq<Moved>) {
    forall i, j | 0 <= i < j < |done| :: done[i].target != done[j].target
  }

  ghost predicate NotIn(t: Path, done: seq<Moved>) { forall m | m in done :: m.target != t }

  /** A path that is no target's and no copy's. */
  predicate Unrelated(p: Path, ts: set<Path>) { Elsewhere(p, ts) && !(IsOta(p) && Stem(p) in ts) }

  ghost predicate SameUnrelated(f: Files, g: Files, ts: set<Path>) { forall p | Unrelated(p, ts) :: Same(f, g, p) }

  /* ---- placing, with one refused rename ---- */

  lemma FaultyPlace(was: Files, d: Disk, ts: set<Path>, s: Staged, f: nat)
    requires OneFault(d, f) && Waiting(was, d.files, ts) && s.staging == Ota(s.target)
    requires s.target in ts && !IsBck(s.target) && !IsOta(s.target) && s.staging in d.files
    requires PlacedOne(d, s).disk.Alive()
    ensures var p := PlacedOne(d, s);
            && p.disk.power <= d.power && p.disk.bad == d.bad && p.disk.clashes == d.clashes
            && (if p.ok then OneFault(p.disk, f) && Ota(s.target) !in p.disk.files && p.done != [] else f < p.disk.renames)
            && (p.done == [] ==> SameAt(d.files, p.disk.files, s.target))
            && (p.done != [] ==> |p.done| == 1 && p.done[0].target == s.target && Reversible(was, p.disk.files, p.done[0]))
  {
    var t := s.target;
    assert Same(was, d.files, t) && Bck(t) !in d.files;
    assert Removed(d, Bck(t)) == d;
    if t in d.files && CanRename(d, t, Bck(t)) {
      var d2 := Renamed(d, t, Bck(t));
      assert Ota(t) in d2.files && t !in d2.files;
    }
  }

  lemma FramePlace(d: Disk, s: Staged, f: nat)
    requires s.staging == Ota(s.target)
    ensures OnlyAt(d.files, PlacedOne(d, s).disk.files, s.target)
    ensures Ota(s.target) !in d.files ==> PlacedOne(d, s) == Placement(d, [], true)
  {}

  /** What placing a list establishes, starting from `d`. */
  ghost predicate PlacedFairly(was: Files, d: Disk, p: Placement, ts: set<Path>, f: nat) {
    && p.disk.power <= d.power && p.disk.bad == d.bad && p.disk.clashes == d.clashes
    && (if p.ok then OneFault(p.disk, f) else f < p.disk.renames)
    && (forall m | m in p.done :: m.target in ts && Ota(m.target) in d.files && Reversible(was, p.disk.files, m))
    && Distinct(p.done)
    && (forall t | t in ts && NotIn(t, p.done) :: SameAt(d.files, p.disk.files, t))
    && SameUnrelated(d.files, p.disk.files, ts)
  }

  lemma FaultyStep(was: Files, d: Disk, ts: set<Path>, s: Staged, f: nat, j: Path)
    requires Apart(ts, j) && OneFault(d, f) && Waiting(was, d.files, ts)
    requires s.staging == Ota(s.target) && (s.staging in d.files ==> s.target in ts)
    requires PlacedOne(d, s).disk.Alive()
    ensures var p := PlacedOne(d, s);
            && PlacedFairly(was, d, p, ts, f)
            && (p.ok ==> Waiting(was, p.disk.files, ts))
            && (forall m | m in p.done && p.ok :: Ota(m.target) !in p.disk.files)
  {
    hide PlacedOne, Reversible, OneFault;
    var p, t := PlacedOne(d, s), s.target;
    FramePlace(d, s, f);
    if s.staging in d.files {
      FaultyPlace(was, d, ts, s, f);
      forall u | u in ts && u != t ensures SameAt(d.files, p.disk.files, u) && Same(d.files, p.disk.files, Ota(u)) {
        SameElsewhereAt(d.files, p.disk.files, t, u);
      }
      forall u | u in ts && NotIn(u, p.done) ensures SameAt(d.files, p.disk.files, u) {
        if u == t { assert p.done == []; }
      }
    }
  }

  /** Entries and bystanders of a first part survive a second part. */
  lemma FairlyThen(was: Files, d: Disk, one: Placement, rest: Placement, ts: set<Path>, f: nat)
    requires PlacedFairly(was, d, one, ts, f) && PlacedFairly(was, one.disk, rest, ts, f)
    requires forall m | m in one.done :: Ota(m.target) !in one.disk.files
    requires forall t | t in ts && Ota(t) in one.disk.files :: Ota(t) in d.files
    ensures PlacedFairly(was, d, Placement(rest.disk, one.done + rest.done, rest.ok), ts, f)
  {
    var done := one.done + rest.done;
    forall m | m in done ensures m.target in ts && Ota(m.target) in d.files && Reversible(was, rest.disk.files, m) {
      if m !in rest.done {
        assert m in one.done;
        forall r | r in rest.done ensures r.target != m.target { assert Ota(r.target) in one.disk.files; }
        assert NotIn(m.target, rest.done);
        assert SameAt(one.disk.files, rest.disk.files, m.target);
      }
    }
    forall i, k | 0 <= i < k < |done| ensures done[i].target != done[k].target {
      if i < |one.done| <= k {
        assert done[i] in one.done && done[k] in rest.done;
        assert Ota(done[k].target) in one.disk.files;
      }
    }
    forall t | t in ts && NotIn(t, done) ensures SameAt(d.files, rest.disk.files, t) {
      assert NotIn(t, one.done) && NotIn(t, rest.done);
    }
  }

  lemma StagedOnlyShrinks(d: Disk, s: Staged, t: Path)
    requires s.staging == Ota(s.target) && (s.staging in d.files ==> !IsOta(s.target)) && Ota(t) in PlacedOne(d, s).disk.files
    ensures Ota(t) in d.files
  {}

  lemma {:induction false} PlacedPower(d: Disk, staged: seq<Staged>)
    ensures Placed(d, staged).disk.power <= d.power
    decreases |staged|
  {
    if staged != [] { PlacedPower(PlacedOne(d, staged[0]).disk, staged[1..]); }
  }

  lemma {:induction false} FaultySteps(was: Files, d: Disk, ts: set<Path>, staged: seq<Staged>, f: nat, j: Path)
    requires Apart(ts, j) && OneFault(d, f) && Waiting(was, d.files, ts)
    requires forall s | s in staged :: s.staging == Ota(s.target) && (s.staging in d.files ==> s.target in ts)
    requires Placed(d, staged).disk.Alive()
    ensures PlacedFairly(was, d, Placed(d, staged), ts, f)
    decreases |staged|
  {
    if staged != [] {
      var one := PlacedOne(d, staged[0]);
      assert staged[0] in staged;
      if one.ok { PlacedPower(one.disk, staged[1..]); }
      FaultyStep(was, d, ts, staged[0], f, j);
      if one.ok {
        forall t | Ota(t) in one.disk.files ensures Ota(t) in d.files { StagedOnlyShrinks(d, staged[0], t); }
        forall s | s in staged[1..] ensures s.staging == Ota(s.target) && (s.staging in one.disk.files ==> s.target in ts) {
          assert s in staged;
        }
        FaultySteps(was, one.disk, ts, staged[1..], f, j);
        FairlyThen(was, d, one, Placed(one.disk, staged[1..]), ts, f);
      }
    }
  }

  /* ---- taking the steps back ---- */

  lemma {:induction false} UndoneAll(was: Files, d: Disk, ts: set<Path>, done: seq<Moved>)
    requires (forall t | t in ts :: !IsBck(t) && !IsOta(t)) && d.Sound() && Distinct(done)
    requires forall m | m in done :: m.target in ts && Reversible(was, d.files, m)
    ensures var e := Undone(d, done);
            && e.Sound() && e.power <= d.power && e.clashes == d.clashes && SameUnrelated(d.files, e.files, ts)
            && (forall t | t in ts && NotIn(t, done) :: SameAt(d.files, e.files, t))
            && (e.Alive() ==> forall m | m in done :: Same(was, e.files, m.target) && Bck(m.target) !in e.files)
    decreases |done|
  {
    if done != [] {
      var m := done[0];
      UndoneOne(was, d, ts, m);
      var d1 := Removed(d, m.target);
      var d2 := if m.had then Renamed(d1, m.backup, m.target) else d1;
      forall r | r in done[1..] ensures r.target in ts && Reversible(was, d2.files, r) && r.target != m.target {
        assert r in done;
        var i :| 1 <= i < |done| && done[i] == r;
        assert done[0].target != done[i].target;
        assert SameAt(d.files, d2.files, r.target);
      }
      UndoneAll(was, d2, ts, done[1..]);
      var e := Undone(d, done);
      assert NotIn(m.target, done[1..]);
      forall t | t in ts && NotIn(t, done) ensures SameAt(d.files, e.files, t) {
        assert done[0] in done && NotIn(t, done[1..]);
      }
    }
  }

  lemma UndoneOne(was: Files, d: Disk, ts: set<Path>, m: Moved)
    requires (forall t | t in ts :: !IsBck(t) && !IsOta(t)) && d.Sound() && m.target in ts && Reversible(was, d.files, m)
    ensures var d1 := Removed(d, m.target);
            var e := if m.had then Renamed(d1, m.backup, m.target) else d1;
            && e.Sound() && e.power <= d.power && e.clashes == d.clashes && SameUnrelated(d.files, e.files, ts)
            && (forall t | t in ts && t != m.target :: SameAt(d.files, e.files, t))
            && (e.Alive() ==> Same(was, e.files, m.target) && Bck(m.target) !in e.files)
  {
    var t := m.target;
    assert BackupOf(Bck(t), ts);
    forall u | u in ts && u != t ensures Bck(u) != Bck(t) { OtherNames(t, u); }
  }

  /* ---- the theorem ---- */

  ghost predicate Restored(was: Files, now: Files, ts: set<Path>) {
    forall t | t in ts :: Same(was, now, t) && Bck(t) !in now
  }

  lemma FairlyUndone(was: Files, d: Disk, p: Placement, ts: set<Path>, f: nat)
    requires (forall t | t in ts :: !IsBck(t) && !IsOta(t)) && PlacedFairly(was, d, p, ts, f) && !p.ok && OneFault(d, f)
    requires forall t | t in ts :: Same(was, d.files, t) && Bck(t) !in d.files
    requires Undone(p.disk, p.done).Alive()
    ensures var e := Undone(p.disk, p.done);
            e.Sound() && e.clashes == d.clashes && Restored(was, e.files, ts) && SameUnrelated(d.files, e.files, ts)
  {
    UndoneAll(was, p.disk, ts, p.done);
    var e := Undone(p.disk, p.done);
    forall t | t in ts ensures Same(was, e.files, t) && Bck(t) !in e.files {
      if NotIn(t, p.done) {
        assert SameAt(d.files, p.disk.files, t) && SameAt(p.disk.files, e.files, t);
      }
    }
  }

  /** If rename attempt `f` inside the placing loop is refused, `commit` reports
      failure and every target is exactly as before, present or absent, with no
      retained copy; nothing else but staged files and the journal has changed, and
      no rename, forth or back, met an existing file. */
  lemma RefusedRenameIsUndone(d: Disk, cfg: Config, staged: seq<Staged>, deletes: seq<Path>, f: nat)
    requires OneFault(d, f) && Ready(d.files, cfg, staged, deletes)
    requires Fresh(d.files, Targets(StagedTargets(d.files, staged)))
    requires var (e, ok) := Committed(d, cfg, staged, deletes); e.Alive() && f < e.renames
    ensures var (e, ok) := Committed(d, cfg, staged, deletes);
            var paths := StagedTargets(d.files, staged);
            && !ok && e.Sound() && e.clashes == d.clashes
            && Restored(d.files, e.files, Targets(paths))
            && (forall p | Unrelated(p, Targets(paths)) && p != cfg.journal :: Same(d.files, e.files, p))
            && ReadJournal(e.files, cfg.journal) == Journal(0, Committing, paths)
  {
    var paths := StagedTargets(d.files, staged);
    var ts := Targets(paths);
    var d1 := WroteJournal(d, cfg, COMMITTING, paths);
    var p := Placed(d1, staged);
    RefusedPlacing(d, cfg, staged, deletes, f);
    FairlyUndone(d.files, d1, p, ts, f);
    var e := Undone(p.disk, p.done);
    JournalWritten(d, cfg, Committing, paths);
    assert Unrelated(cfg.journal, ts);
    assert Same(d1.files, e.files, cfg.journal);
  }

  lemma {:induction false} UndonePower(d: Disk, done: seq<Moved>)
    ensures Undone(d, done).power <= d.power
    decreases |done|
  {
    if done != [] {
      var m := done[0];
      var d1 := Removed(d, m.target);
      UndonePower(if m.had then Renamed(d1, m.backup, m.target) else d1, done[1..]);
    }
  }

  /** A commit that had power to the end had it all the way. */
  lemma CommitPower(d: Disk, cfg: Config, staged: seq<Staged>, deletes: seq<Path>)
    requires Committed(d, cfg, staged, deletes).0.Alive()
    ensures var d1 := WroteJournal(d, cfg, COMMITTING, StagedTargets(d.files, staged));
            var p := Placed(d1, staged);
            && d.Alive() && p.disk.Alive()
            && (if p.ok then Committed(d, cfg, staged, deletes).0.renames == p.disk.renames
                else Committed(d, cfg, staged, deletes) == (Undone(p.disk, p.done), false))
  {
    var d1 := WroteJournal(d, cfg, COMMITTING, StagedTargets(d.files, staged));
    var p := Placed(d1, staged);
    hide Placed, Undone, Deleted, StagedTargets, JournalText, IntText;
    PlacedPower(d1, staged);
    UndonePower(p.disk, p.done);
    DeletedPower(p.disk, deletes);
  }

  /** The first journal write changes nothing that the placing loop looks at. */
  lemma JournalledStart(was: Files, now: Files, journal: Path, ts: set<Path>, text: Content)
    requires Apart(ts, journal) && Fresh(was, ts) && (now == was || now == was[journal := text])
    ensures Waiting(was, now, ts) && forall t | t in ts :: Same(was, now, t) && Bck(t) !in now
  {
    forall t | t in ts ensures Same(was, now, t) && Bck(t) !in now {
      assert Bck(t) !in was;
    }
  }

  lemma ListedStart(was: Files, now: Files, cfg: Config, staged: seq<Staged>, deletes: seq<Path>, text: Content)
    requires Ready(was, cfg, staged, deletes) && (now == was || now == was[cfg.journal := text])
    ensures forall s | s in staged :: s.staging == Ota(s.target) && (s.staging in now ==> s.target in Targets(StagedTargets(was, staged)))
  {
    StagedTargetsAre(was, staged);
    hide StagedTargets;
    forall s | s in staged ensures s.staging != cfg.journal { assert IsOta(s.staging); }
  }

  lemma FaultyStart(d: Disk, cfg: Config, staged: seq<Staged>, deletes: seq<Path>, f: nat)
    requires OneFault(d, f) && Ready(d.files, cfg, staged, deletes)
    requires Fresh(d.files, Targets(StagedTargets(d.files, staged)))
    ensures var paths := StagedTargets(d.files, staged);
            var d1 := WroteJournal(d, cfg, COMMITTING, paths);
            && Apart(Targets(paths), cfg.journal) && OneFault(d1, f) && Waiting(d.files, d1.files, Targets(paths))
            && (forall t | t in Targets(paths) :: Same(d.files, d1.files, t) && Bck(t) !in d1.files)
            && (forall s | s in staged :: s.staging == Ota(s.target) && (s.staging in d1.files ==> s.target in Targets(paths)))
  {
    hide StagedTargets, JournalText, Waiting, Fresh, Apart, Targets;
    var paths := StagedTargets(d.files, staged);
    var d1, text := WroteJournal(d, cfg, COMMITTING, paths), JournalText(COMMITTING, paths);
    assert OneFault(d1, f);
    JournalledStart(d.files, d1.files, cfg.journal, Targets(paths), text);
    ListedStart(d.files, d1.files, cfg, staged, deletes, text);
  }

  lemma FairlyRefused(was: Files, d: Disk, p: Placement, ts: set<Path>, f: nat)
    requires PlacedFairly(was, d, p, ts, f)
    ensures p.ok ==> p.disk.renames <= f
  {}

  lemma RefusedPlacing(d: Disk, cfg: Config, staged: seq<Staged>, deletes: seq<Path>, f: nat)
    requires OneFault(d, f) && Ready(d.files, cfg, staged, deletes)
    requires Fresh(d.files, Targets(StagedTargets(d.files, staged)))
    requires var (e, ok) := Committed(d, cfg, staged, deletes); e.Alive() && f < e.renames
    ensures var paths := StagedTargets(d.files, staged);
            var d1 := WroteJournal(d, cfg, COMMITTING, paths);
            var p := Placed(d1, staged);
            && d.Alive() && OneFault(d1, f) && !p.ok && PlacedFairly(d.files, d1, p, Targets(paths), f)
            && Committed(d, cfg, staged, deletes) == (Undone(p.disk, p.done), false)
            && (forall t | t in Targets(paths) :: Same(d.files, d1.files, t) && Bck(t) !in d1.files)
  {
    hide *;
    var paths := StagedTargets(d.files, staged);
    var d1 := WroteJournal(d, cfg, COMMITTING, paths);
    CommitPower(d, cfg, staged, deletes);
    FaultyStart(d, cfg, staged, deletes, f);
    FaultySteps(d.files, d1, Targets(paths), staged, f, cfg.journal);
    FairlyRefused(d.files, d1, Placed(d1, staged), Targets(paths), f);
  }

  /** The repair that follows a failed commit finds nothing to restore: it only
      removes the journal. */
  lemma RepairAfterUndo(was: Files, d: Disk, cfg: Config)
    requires d.Sound() && Sane(d.files, cfg.journal) && Repaired(d, cfg).Alive() && cfg.journal in d.files
    requires var j := ReadJournal(d.files, cfg.journal);
             j.state == Committing && j.paths != [] && Restored(was, d.files, Targets(j.paths))
    ensures Repaired(d, cfg).files == d.files - {cfg.journal}
  {
    RestoreOutcome(d, cfg);
    HealedWithoutBackups(d.files, Targets(ReadJournal(d.files, cfg.journal).paths));
  }
}
