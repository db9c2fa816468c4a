/** Where the protocol's promises end: inputs on which the code keeps less, and
    the exact condition under which it keeps all. */
module Limits {
  import opened Disks
  import opened Names
  import opened Journals
  import opened Restore
  import opened Healing
  import opened Atomicity
  import opened CrashSafety
  import opened Sweep
  import opened Clearing
  import opened Window
  import opened Session
  import opened Runs
  import opened Text

  /* ---- a refused rename inside restore_all ---- */

  lemma {:induction false} AttemptsGrow(d: Disk, paths: seq<Path>)
    ensures RestoredEach(d, paths).renames >= d.renames && RestoredEach(d, paths).power <= d.power
    ensures RestoredEach(d, paths).bad == d.bad
    decreases |paths|
  {
    if paths != [] { AttemptsGrow(RestoredOne(d, paths[0]), paths[1..]); }
  }

  /** The targets with a retained copy. */
  function Copied(fs: Files, ts: set<Path>): set<Path> { set t | t in ts && Bck(t) in fs }

  /** The copies that are left over when attempt `n` is the next and those in `bad` are
      refused: a path is tried each time it is listed, as long as its copy is there. */
  function Unrestored(n: nat, bad: set<nat>, copies: set<Path>, paths: seq<Path>): set<Path>
    decreases |paths|
  {
    if paths == [] then copies
    else if paths[0] !in copies then Unrestored(n, bad, copies, paths[1..])
    else Unrestored(n + 1, bad, if n in bad then copies else copies - {paths[0]}, paths[1..])
  }

  /** The same, seen from the disk on which the restore starts. */
  function LeftOver(d: Disk, paths: seq<Path>): set<Path> { Unrestored(d.renames, d.bad, Copied(d.files, Targets(paths)), paths) }

  lemma OneTried(d: Disk, ts: set<Path>, t: Path)
    requires t in ts && (forall u | u in ts :: !IsBck(u)) && RestoredOne(d, t).Alive()
    ensures var e := RestoredOne(d, t);
            && e.bad == d.bad && e.renames == d.renames + (if Bck(t) in d.files then 1 else 0)
            && Copied(e.files, ts) == if Bck(t) !in d.files || d.renames in d.bad then Copied(d.files, ts) else Copied(d.files, ts) - {t}
  {
    var e := RestoredOne(d, t);
    forall u | u in ts && u != t ensures Bck(u) in e.files <==> Bck(u) in d.files { OtherNames(t, u); }
  }

  lemma {:induction false} CopiesLeft(d: Disk, ts: set<Path>, paths: seq<Path>)
    requires (forall p | p in paths :: p in ts) && (forall u | u in ts :: !IsBck(u)) && RestoredEach(d, paths).Alive()
    ensures Copied(RestoredEach(d, paths).files, ts) == Unrestored(d.renames, d.bad, Copied(d.files, ts), paths)
    decreases |paths|
  {
    if paths != [] {
      var t, rest := paths[0], paths[1..];
      assert t in paths && forall p | p in rest :: p in paths;
      AttemptsGrow(RestoredOne(d, t), rest);
      OneTried(d, ts, t);
      CopiesLeft(RestoredOne(d, t), ts, rest);
    }
  }

  lemma RestoreLeaves(d: Disk, cfg: Config)
    requires cfg.journal in d.files && Sane(d.files, cfg.journal) && RestoredAll(d, cfg).Alive()
    ensures var paths := ReadJournal(d.files, cfg.journal).paths;
            var m := RestoredEach(d, paths);
            && RestoredAll(d, cfg).files == m.files - {cfg.journal} && m.Alive()
            && Copied(m.files, Targets(paths)) == LeftOver(d, paths) && Healed(m.files, Targets(paths)) == Healed(d.files, Targets(paths))
  {
    var paths := ReadJournal(d.files, cfg.journal).paths;
    CopiesLeft(d, Targets(paths), paths);
    RestoredEachHeals(d, Targets(paths), paths);
  }

  /** `restore_all` drops the journal whether or not its renames succeeded. It
      brings the whole generation back exactly when no copy is left over: for none of
      the retained copies did the medium refuse every attempt. */
  lemma RestoreWholeIff(d: Disk, cfg: Config)
    requires cfg.journal in d.files && Sane(d.files, cfg.journal) && RestoredAll(d, cfg).Alive()
    ensures var paths := ReadJournal(d.files, cfg.journal).paths;
            RestoredAll(d, cfg).files == Healed(d.files, Targets(paths)) - {cfg.journal} <==> LeftOver(d, paths) == {}
  {
    hide LeftOver, RestoredAll, RestoredEach, ReadJournal;
    var paths := ReadJournal(d.files, cfg.journal).paths;
    var m, ts := RestoredEach(d, paths), Targets(paths);
    RestoreLeaves(d, cfg);
    if LeftOver(d, paths) == {} {
      forall t | t in ts ensures Bck(t) !in m.files { assert t !in Copied(m.files, ts); }
      HealedWithoutBackups(m.files, ts);
    } else {
      var t :| t in LeftOver(d, paths);
      assert BackupOf(Bck(t), ts);
      assert Bck(t) in RestoredAll(d, cfg).files;
    }
  }

  ghost predicate NoDuplicates(paths: seq<Path>) { forall i, j | 0 <= i < j < |paths| :: paths[i] != paths[j] }

  /** None of the next `count` rename attempts is refused by the medium. */
  ghost predicate NoneComing(n: nat, bad: set<nat>, count: nat) { forall m | n <= m < n + count :: m !in bad }

  lemma {:induction false} UnlistedStays(n: nat, bad: set<nat>, copies: set<Path>, paths: seq<Path>, t: Path)
    requires t in copies && t !in paths
    ensures t in Unrestored(n, bad, copies, paths)
    decreases |paths|
  {
    if paths != [] {
      UnlistedStays(n, bad, copies, paths[1..], t);
      UnlistedStays(n + 1, bad, if n in bad then copies else copies - {paths[0]}, paths[1..], t);
    }
  }

  lemma {:induction false} DistinctAttempts(n: nat, bad: set<nat>, copies: set<Path>, paths: seq<Path>)
    requires NoDuplicates(paths) && copies <= Targets(paths)
    ensures Unrestored(n, bad, copies, paths) == {} <==> NoneComing(n, bad, |copies|)
    decreases |paths|
  {
    if paths == [] {
      assert copies == {};
    } else {
      var t, rest := paths[0], paths[1..];
      assert forall p | p in paths :: p == t || p in rest;
      if t !in copies {
        DistinctAttempts(n, bad, copies, rest);
      } else if n in bad {
        UnlistedStays(n + 1, bad, copies, rest, t);
      } else {
        DistinctAttempts(n + 1, bad, copies - {t}, rest);
        assert NoneComing(n, bad, |copies|) <==> NoneComing(n + 1, bad, |copies| - 1);
      }
    }
  }

  /** In a journal that names no path twice that is: exactly when the medium refuses none
      of the next attempts, one for each retained copy that the disk holds. */
  lemma RestoreWholeIffNoneRefused(d: Disk, cfg: Config)
    requires cfg.journal in d.files && Sane(d.files, cfg.journal) && RestoredAll(d, cfg).Alive()
    requires NoDuplicates(ReadJournal(d.files, cfg.journal).paths)
    ensures var paths := ReadJournal(d.files, cfg.journal).paths;
            RestoredAll(d, cfg).files == Healed(d.files, Targets(paths)) - {cfg.journal}
            <==> NoneComing(d.renames, d.bad, |Copied(d.files, Targets(paths))|)
  {
    var paths := ReadJournal(d.files, cfg.journal).paths;
    RestoreWholeIff(d, cfg);
    DistinctAttempts(d.renames, d.bad, Copied(d.files, Targets(paths)), paths);
  }

  lemma {:induction false} OthersUntouched(d: Disk, paths: seq<Path>, t: Path)
    requires t !in paths && !IsBck(t) && forall p | p in paths :: !IsBck(p)
    ensures SameAt(d.files, RestoredEach(d, paths).files, t)
    decreases |paths|
  {
    if paths != [] {
      assert paths[0] in paths;
      OtherNames(t, paths[0]);
      OthersUntouched(RestoredOne(d, paths[0]), paths[1..], t);
    }
  }

  /** A copy that is left over has lost its target. */
  lemma {:induction false} LeftIsMissing(d: Disk, paths: seq<Path>, t: Path)
    requires t in paths && (forall p | p in paths :: !IsBck(p)) && RestoredEach(d, paths).Alive() && Bck(t) in RestoredEach(d, paths).files
    ensures t !in RestoredEach(d, paths).files
    decreases |paths|
  {
    var p, rest := paths[0], paths[1..];
    var e := RestoredOne(d, p);
    AttemptsGrow(e, rest);
    assert p in paths && forall q | q in rest :: q in paths;
    if t in rest {
      LeftIsMissing(e, rest, t);
    } else {
      OthersUntouched(e, rest, t);
    }
  }

  /** A copy that is left over is an orphan then, and the next sweep that runs to its
      end deletes it: the old content is nowhere. */
  lemma RefusedRestoreLosesTargets(d: Disk, cfg: Config, swept: Disk, t: Path)
    requires cfg.journal in d.files && Sane(d.files, cfg.journal) && RestoredAll(d, cfg).Alive()
    requires Tree(RestoredAll(d, cfg).files) && SweptFrom(RestoredAll(d, cfg), swept, cfg.journal) && swept.Alive()
    requires t in LeftOver(d, ReadJournal(d.files, cfg.journal).paths)
    ensures t !in swept.files && Bck(t) !in swept.files
  {
    var paths := ReadJournal(d.files, cfg.journal).paths;
    RestoreLeaves(d, cfg);
    forall p | p in paths ensures !IsBck(p) { assert p in Targets(paths); }
    assert t in Copied(RestoredEach(d, paths).files, Targets(paths));
    LeftIsMissing(d, paths, t);
    SweepExact(RestoredAll(d, cfg), swept, cfg.journal, Bck(t));
  }

  /* ---- an answer of 0 ---- */

  /** A restore that brings nothing back only takes files away. */
  lemma {:induction false} NothingBack(d: Disk, paths: seq<Path>)
    requires RestoredCount(d, paths) == 0
    ensures var e := RestoredEach(d, paths);
            && e.files.Keys <= d.files.Keys && e.power <= d.power
            && (e.power < d.power ==> |e.files| < |d.files|) && (e.power == d.power ==> e.files == d.files)
    decreases |paths|
  {
    if paths != [] {
      var t := paths[0];
      var e := RestoredOne(d, t);
      NothingBack(e, paths[1..]);
      if e.files != d.files { assert e.files == d.files - {t} && t in d.files; assert e.files.Keys == d.files.Keys - {t}; }
    }
  }

  /** "Nothing to roll back" is answered in two cases: no journalled copy is left, and
      then nothing has changed; or every rename was refused, and then targets or the
      journal are gone. */
  lemma ZeroUnchangedIff(d: Disk, cfg: Config)
    requires Sane(d.files, cfg.journal) && RolledBack(d, cfg).1 == 0
    ensures RolledBack(d, cfg).0.files == d.files
            <==> d.power == 0 || !AnyBackup(d.files, ReadJournal(d.files, cfg.journal).paths)
  {
    var paths := ReadJournal(d.files, cfg.journal).paths;
    if d.power > 0 && AnyBackup(d.files, paths) {
      NothingBack(d, paths);
      var m, e := RestoredEach(d, paths), RestoredAll(d, cfg);
      if m.power == d.power {
        assert cfg.journal in d.files && e.files == d.files - {cfg.journal};
      } else {
        assert |e.files| < |d.files|;
      }
    } else if d.power == 0 {
      DeadRestored(d, paths);
    }
  }

  /* ---- a commit with nothing staged ---- */

  /** A commit's marker with no path behind it. */
  predicate Stuck(fs: Files, cfg: Config) { ReadJournal(fs, cfg.journal) == Journal(0, Committing, []) }

  /** With no staged file, a cut after the first journal write leaves a marker
      that no repair removes. */
  lemma EmptyCommitLeavesMarker(d: Disk, cfg: Config, staged: seq<Staged>, deletes: seq<Path>, budgets: seq<nat>, last: nat)
    requires StagedTargets(d.files, staged) == []
    ensures var e := AfterCrashes(d, cfg, staged, deletes, 1, budgets, last);
            Stuck(e.files, cfg) && e.power == last
  {
    CommitDies(d.Reboot(1), cfg, staged, deletes);
    var c := WroteJournal(d.Reboot(1), cfg, COMMITTING, []);
    JournalRoundTrip(Committing, 0, []);
    assert Committed(d.Reboot(1), cfg, staged, deletes).0 == c;
    IdleStaysIdle(c, cfg, budgets);
  }

  /** Some cut of the commit and of the repairs leaves a marker behind a repair that
      ran to its end. */
  ghost predicate SomeCutLeavesMarker(d: Disk, cfg: Config, staged: seq<Staged>, deletes: seq<Path>) {
    exists first: nat, budgets: seq<nat>, last: nat :: MarkerLeft(d, cfg, staged, deletes, first, budgets, last)
  }

  ghost predicate MarkerLeft(d: Disk, cfg: Config, staged: seq<Staged>, deletes: seq<Path>, first: nat, budgets: seq<nat>, last: nat) {
    var e := AfterCrashes(d, cfg, staged, deletes, first, budgets, last);
    e.Alive() && ReadJournal(e.files, cfg.journal).state == Committing
  }

  /** A completed repair can leave the marker standing exactly when nothing was staged. */
  lemma MarkerLeftIffNothingStaged(d: Disk, cfg: Config, staged: seq<Staged>, deletes: seq<Path>)
    requires d.Sound() && Ready(d.files, cfg, staged, deletes) && cfg.journal !in d.files
    ensures SomeCutLeavesMarker(d, cfg, staged, deletes) <==> StagedTargets(d.files, staged) == []
  {
    if StagedTargets(d.files, staged) == [] {
      EmptyCommitLeavesMarker(d, cfg, staged, deletes, [], 1);
      assert MarkerLeft(d, cfg, staged, deletes, 1, [], 1);
    } else {
      forall first: nat, budgets: seq<nat>, last: nat ensures !MarkerLeft(d, cfg, staged, deletes, first, budgets, last) {
        if AfterCrashes(d, cfg, staged, deletes, first, budgets, last).Alive() {
          RepairedOutcome(d, cfg, staged, deletes, first, budgets, last);
        }
      }
    }
  }

  /* ---- how long the marker stays ---- */

  /** The device's own files are not the journal, and no sweep takes it. */
  predicate JournalApart(cfg: Config) {
    !IsBck(cfg.journal) && !IsOta(cfg.journal) && cfg.mark != cfg.journal && cfg.flag != Some(cfg.journal)
  }

  lemma StuckStays(f: Files, g: Files, cfg: Config)
    requires Stuck(f, cfg) && Same(f, g, cfg.journal)
    ensures Stuck(g, cfg)
  {}

  lemma StuckSettles(d: Disk, cfg: Config)
    requires Stuck(d.files, cfg)
    ensures Settled(d, cfg) == (d, false) && ConfirmedDisk(d, cfg) == d && RolledBack(d, cfg) == (d, BUSY) && Repaired(d, cfg) == d
  {}

  lemma {:induction false} StuckListens(d: Disk, cfg: Config, windowMs: int, rounds: seq<Round>)
    requires Stuck(d.files, cfg)
    ensures var e := Listened(d, cfg, windowMs, rounds).0; e == d || e == Flagged(d, cfg)
    decreases |rounds|
  {
    StuckSettles(d, cfg);
    if rounds != [] { StuckListens(d, cfg, windowMs, rounds[1..]); }
  }

  lemma StuckServes(m: Disk, e: Disk, cfg: Config, talk: Talk, x: Disk, end: End)
    requires Stuck(m.files, cfg) && JournalApart(cfg) && Quiet(talk.inputs) && SessionStep(cfg, m, talk, x, end, e)
    ensures Stuck(e.files, cfg)
  {
    hide Conducted, Quiet;
    QuietSession(m, FRESH, cfg, talk.tools, talk.timeoutMs, talk.inputs, x, end);
    assert Same(m.files, x.files, cfg.journal);
  }

  lemma StuckBoots(d: Disk, e: Disk, cfg: Config, talk: Talk)
    requires Stuck(d.files, cfg) && JournalApart(cfg) && Quiet(talk.inputs) && BootStep(cfg, d, talk, e)
    ensures Stuck(e.files, cfg)
  {
    hide Settled, Listened, SessionStep, WindowOf, Quiet, KeptBackups, Stuck;
    StuckSettles(d, cfg);
    var m := Marked(d, cfg);
    StuckStays(d.files, m.files, cfg);
    if cfg.flag.Some? {
      if cfg.flag.value in m.files {
        var x, end :| SessionStep(cfg, m, talk, x, end, e);
        StuckServes(m, e, cfg, talk, x, end);
      } else {
        var w := WindowOf(d, cfg);
        var (l, _, reset) := Listened(m, cfg, w, talk.rounds);
        StuckListens(m, cfg, w, talk.rounds);
        StuckStays(m.files, l.files, cfg);
        assert !Orphan(cfg.journal, KeptBackups(l.files, cfg.journal));
        if !reset { StuckStays(l.files, e.files, cfg); }
      }
    }
  }

  lemma StuckStep(cfg: Config, ev: Event, d: Disk, e: Disk)
    requires Stuck(d.files, cfg) && JournalApart(cfg) && Step(cfg, ev, d, e) && !Updates(ev)
    ensures Stuck(e.files, cfg)
  {
    hide BootStep, Stuck, Repaired, RolledBack, ConfirmedDisk, Quiet;
    match ev {
      case Boot(k, talk) => StuckBoots(d.Reboot(k), e, cfg, talk);
      case Requesting(k) => StuckStays(d.files, e.files, cfg);
      case Confirming(k) => StuckSettles(d.Reboot(k), cfg);
      case RollingBack(k) => StuckSettles(d.Reboot(k), cfg);
      case Recovering(k) => StuckSettles(d.Reboot(k), cfg); StuckStays(d.files, e.files, cfg);
      case Polling(k) => StuckStays(d.files, e.files, cfg);
      case Asking =>
    }
  }

  lemma StartUnsticks(d: Disk, cfg: Config)
    requires Stuck(d.files, cfg) && d.Alive()
    ensures Cleared(d, cfg) == Removed(d, cfg.journal) && cfg.journal !in Cleared(d, cfg).files
  {
    assert RemovedBackups(d, []) == d;
  }

  /** Nothing but another update takes the marker away: over any run of events, each cut
      anywhere, it stays, the candidate is reported as on trial, and confirm and
      rollback are refused. The next UPDATE_START removes it with its first step. */
  lemma {:induction false} MarkerStays(cfg: Config, events: seq<Event>, ds: seq<Disk>)
    requires Run(cfg, events, ds) && Stuck(ds[0].files, cfg) && JournalApart(cfg) && forall ev | ev in events :: !Updates(ev)
    ensures var e := ds[|events|];
            && Stuck(e.files, cfg) && StateLabel(e.files, cfg.journal) == OnTrial(0)
            && (forall k :: ConfirmedDisk(e.Reboot(k), cfg) == e.Reboot(k) && RolledBack(e.Reboot(k), cfg) == (e.Reboot(k), BUSY))
            && forall k | k > 0 :: cfg.journal !in Cleared(e.Reboot(k), cfg).files
    decreases |events|
  {
    forall k | k > 0 && Stuck(ds[|events|].files, cfg) ensures cfg.journal !in Cleared(ds[|events|].Reboot(k), cfg).files {
      StartUnsticks(ds[|events|].Reboot(k), cfg);
    }
    if events != [] {
      var n := |events| - 1;
      MarkerStays(cfg, events[..n], ds[..n + 1]);
      assert events[n] in events;
      StuckStep(cfg, events[n], ds[n], ds[n + 1]);
    }
  }

  /* ---- a commit that was not announced ---- */

  /** A commit that no UPDATE_START announced leaves every copy journalled exactly when
      each copy that was there belongs to a target of the new set or is deleted. */
  lemma UnannouncedJournalledIff(d: Disk, cfg: Config, staged: seq<Staged>, deletes: seq<Path>)
    requires d.Sound() && Ready(d.files, cfg, staged, deletes) && Committed(d, cfg, staged, deletes).0.Alive()
    ensures Journalled(Committed(d, cfg, staged, deletes).0.files, cfg)
            <==> forall p | p in d.files && IsBck(p) :: Stem(p) in StagedTargets(d.files, staged) || p in deletes || Stem(p) in deletes
  {
    var paths := StagedTargets(d.files, staged);
    var ts := Targets(paths);
    var e := Committed(d, cfg, staged, deletes).0;
    CommitCut(d, cfg, staged, deletes);
    assert ReadJournal(e.files, cfg.journal).paths == paths;
    forall p | IsBck(p) && Stem(p) !in paths
      ensures p in e.files <==> p in d.files && p !in deletes && Stem(p) !in deletes
    {
      if p in deletes || Stem(p) in deletes { CommitDeletes(d, cfg, staged, deletes); BckOfStem(p); }
      else { LeftAlone(d, cfg, staged, deletes, p); }
    }
  }

  lemma LeftAlone(d: Disk, cfg: Config, staged: seq<Staged>, deletes: seq<Path>, p: Path)
    requires d.Sound() && Ready(d.files, cfg, staged, deletes) && Committed(d, cfg, staged, deletes).0.Alive()
    requires IsBck(p) && Stem(p) !in StagedTargets(d.files, staged) && p !in deletes && Stem(p) !in deletes
    ensures Same(d.files, Committed(d, cfg, staged, deletes).0.files, p)
  {
    CommitCut(d, cfg, staged, deletes);
    BckOfStem(p);
    var ts := Targets(StagedTargets(d.files, staged));
    assert forall t | t in ts :: !IsBck(t);
    assert Outside(p, cfg, ts, deletes);
  }
}
