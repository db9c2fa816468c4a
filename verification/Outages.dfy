/** An update session whose power fails anywhere, and the repairs that follow. */
module Outages {
  import opened Disks
  import opened Names
  import opened Journals
  import opened Restore
  import opened Healing
  import opened Atomicity
  import opened CrashSafety
  import opened Clearing
  import opened Freshness
  import opened Sweep
  import opened Session
  import opened Delivery
  import opened Window
  import opened Packets
  import opened Runs
  import opened Limits

  /** Repairs cut after each of `budgets`, then one with `last`. */
  function AfterRepairs(d: Disk, cfg: Config, budgets: seq<nat>, last: nat): Disk {
    Repaired(RepairedMany(d, cfg, budgets).Reboot(last), cfg)
  }

  /** Nothing that a repair would act on. */
  ghost predicate Steady(fs: Files, cfg: Config) {
    var j := ReadJournal(fs, cfg.journal);
    || j.paths == [] || j.state == Confirmed
    || (j.state == Trial && forall p | p in j.paths && Bck(p) in fs :: p in fs)
  }

  /** What a boot hands to the session that it starts. */
  ghost predicate Booted(fs: Files, cfg: Config) {
    Sane(fs, cfg.journal) && Steady(fs, cfg) && Journalled(fs, cfg)
  }

  /* ---- a steady disk stays as it is ---- */

  lemma {:induction false} NoneToMend(d: Disk, paths: seq<Path>)
    requires forall p | p in paths && Bck(p) in d.files :: p in d.files
    ensures MendedEach(d, paths) == d && !Mends(d, paths)
    decreases |paths|
  {
    if paths != [] {
      assert paths[0] in paths;
      NoneToMend(d, paths[1..]);
    }
  }

  lemma {:induction false} SteadyStays(d: Disk, cfg: Config, budgets: seq<nat>)
    requires Steady(d.files, cfg)
    ensures RepairedMany(d, cfg, budgets).files == d.files
    ensures forall k :: Repaired(d.Reboot(k), cfg) == d.Reboot(k)
    decreases |budgets|
  {
    var j := ReadJournal(d.files, cfg.journal);
    forall k ensures Repaired(d.Reboot(k), cfg) == d.Reboot(k) {
      if j.paths != [] && j.state == Trial { NoneToMend(d.Reboot(k), j.paths); }
    }
    if budgets != [] { SteadyStays(d.Reboot(budgets[0]), cfg, budgets[1..]); }
  }

  lemma SteadyOutcome(d: Disk, cfg: Config, budgets: seq<nat>, last: nat)
    requires Steady(d.files, cfg)
    ensures AfterRepairs(d, cfg, budgets, last).files == d.files
  {
    SteadyStays(d, cfg, budgets);
    SteadyStays(RepairedMany(d, cfg, budgets), cfg, []);
  }

  lemma {:induction false} AllMended(d: Disk, ts: set<Path>, paths: seq<Path>)
    requires d.Sound() && (forall t | t in ts :: !IsBck(t)) && (forall p | p in paths :: p in ts) && MendedEach(d, paths).Alive()
    ensures var e := MendedEach(d, paths);
            && (forall p | p in paths && Bck(p) in e.files :: p in e.files)
            && (forall t | t in ts :: (t in d.files ==> t in e.files) && (Bck(t) in e.files ==> Bck(t) in d.files))
    decreases |paths|
  {
    if paths != [] {
      var t := paths[0];
      assert t in paths;
      var e := if Bck(t) in d.files && t !in d.files then Renamed(d, Bck(t), t) else d;
      forall u | u in ts && u != t ensures Same(d.files, e.files, u) && Same(d.files, e.files, Bck(u)) { OtherNames(t, u); }
      MendPower(e, paths[1..]);
      AllMended(e, ts, paths[1..]);
      assert forall p | p in paths :: p == t || p in paths[1..];
    }
  }

  lemma {:induction false} MendPower(d: Disk, paths: seq<Path>)
    ensures MendedEach(d, paths).power <= d.power
    decreases |paths|
  {
    if paths != [] {
      var t := paths[0];
      MendPower(if Bck(t) in d.files && t !in d.files then Renamed(d, Bck(t), t) else d, paths[1..]);
    }
  }

  /** A repair that runs to its end leaves nothing to repair. */
  lemma RepairedIsSteady(d: Disk, cfg: Config)
    requires d.Sound() && Sane(d.files, cfg.journal) && Repaired(d, cfg).Alive()
    ensures Steady(Repaired(d, cfg).files, cfg)
  {
    var j := ReadJournal(d.files, cfg.journal);
    if j.paths != [] && j.state == Committing {
      RestoreOutcome(d, cfg);
    } else if j.paths != [] && j.state == Trial {
      var m := MendedEach(d, j.paths);
      MendAddsNoBackups(d, Targets(j.paths), j.paths, cfg.journal);
      AllMended(d, Targets(j.paths), j.paths);
      RewrittenSteady(m, cfg, j.attempt);
    }
  }

  /** Counting a boot, or recording a repair, leaves a steady disk steady. */
  lemma RewrittenSteady(m: Disk, cfg: Config, attempt: int)
    requires Sane(m.files, cfg.journal) && Steady(m.files, cfg) && ReadJournal(m.files, cfg.journal).state == Trial
    ensures var paths := ReadJournal(m.files, cfg.journal).paths;
            Steady(WroteJournal(m, cfg, StateLine(Trial, attempt), paths).files, cfg)
  {
    var paths := ReadJournal(m.files, cfg.journal).paths;
    ReadPathsAreLines(m.files, cfg.journal);
    JournalRoundTrip(Trial, attempt, paths);
    forall p | p in paths ensures Bck(p) != cfg.journal { assert IsBck(Bck(p)); }
  }

  lemma SettledPower(d: Disk, cfg: Config)
    requires Settled(d, cfg).0.Alive()
    ensures Repaired(d, cfg).Alive()
  {
    AttemptsGrow(Repaired(d, cfg), ReadJournal(Repaired(d, cfg).files, cfg.journal).paths);
  }

  lemma MarkLeavesSteady(d: Disk, cfg: Config)
    requires Steady(d.files, cfg) && cfg.mark != cfg.journal && !IsBck(cfg.mark)
    ensures Steady(Marked(d, cfg).files, cfg)
  {}

  lemma SettledIsSteady(d: Disk, cfg: Config)
    requires d.Sound() && Proper(d.files, cfg) && !Settled(d, cfg).1 && Settled(d, cfg).0.Alive()
    ensures Steady(Settled(d, cfg).0.files, cfg)
  {
    hide Proper;
    var m := Repaired(d, cfg);
    ProperSane(d.files, cfg);
    RepairKeepsJournalled(d, cfg);
    KeepsProper(d, m, cfg);
    ProperSane(m.files, cfg);
    SettledPower(d, cfg);
    RepairedIsSteady(d, cfg);
    var j := ReadJournal(m.files, cfg.journal);
    if j.state == Trial { RewrittenSteady(m, cfg, j.attempt + 1); }
  }

  /** A boot that gets as far as the session hands it such a disk. */
  lemma BootHandsOver(d: Disk, cfg: Config)
    requires d.Sound() && Proper(d.files, cfg) && Journalled(d.files, cfg)
    requires !Settled(d, cfg).1 && Settled(d, cfg).0.Alive()
    ensures var m := Marked(Settled(d, cfg).0, cfg); m.Sound() && Booted(m.files, cfg)
  {
    hide Proper, Settled, Steady, Journalled;
    MarkedKeepsJournalled(d, cfg);
    var s := Settled(d, cfg).0;
    ProperSane(d.files, cfg);
    SettledIsSteady(d, cfg);
    MarkLeavesSteady(s, cfg);
    KeepsProper(d, Marked(s, cfg), cfg);
    ProperSane(Marked(s, cfg).files, cfg);
  }

  /** So after any run under usable names with announced updates, the next boot that
      gets past its trial starts its session on a disk where a repair has nothing to do
      and every retained copy is journalled. */
  lemma AnyRunHandsOver(cfg: Config, events: seq<Event>, ds: seq<Disk>, k: nat)
    requires Run(cfg, events, ds) && ds[0].Sound() && Proper(ds[0].files, cfg) && Journalled(ds[0].files, cfg)
    requires forall ev | ev in events :: UsableEvent(ev, cfg) && AnnouncedEvent(ev)
    requires var (s, rolledBack) := Settled(ds[|events|].Reboot(k), cfg); !rolledBack && s.Alive()
    ensures var m := Marked(Settled(ds[|events|].Reboot(k), cfg).0, cfg); m.Sound() && Booted(m.files, cfg)
  {
    hide Proper, Step, UsableEvent, AnnouncedEvent, Settled, Journalled, Booted;
    RunStaysProper(cfg, events, ds);
    RunKeepsJournalled(cfg, events, ds);
    BootHandsOver(ds[|events|].Reboot(k), cfg);
  }

  /** A transfer takes nothing from a steady disk that a repair would miss. */
  lemma UntouchedSteady(was: Files, now: Files, cfg: Config)
    requires FirmwareUntouched(was, now, cfg) && Booted(was, cfg)
    ensures Steady(now, cfg)
  {
    var j := ReadJournal(was, cfg.journal);
    if cfg.journal in now {
      assert Same(was, now, cfg.journal);
      forall p | p in j.paths && Bck(p) in now && j.state == Trial ensures p in now {
        assert p in Targets(j.paths);
        assert Same(was, now, p) && Same(was, now, Bck(p));
      }
    }
  }

  /* ---- UPDATE_COMMIT, cut anywhere ---- */

  lemma DeadCommit(d: Disk, cfg: Config, staged: seq<Staged>, deletes: seq<Path>)
    requires d.power == 0
    ensures Committed(d, cfg, staged, deletes).0 == d
  {
    CommitDies(d, cfg, staged, deletes);
  }

  /** The new set is delivered, and no other named target has changed. */
  ghost predicate Whole(was: Files, staged: Files, now: Files, cfg: Config, paths: seq<Path>, ts: set<Path>) {
    && Delivered(was, staged, now, cfg, paths)
    && Targets(paths) <= ts && forall t | t in ts && t !in Targets(paths) :: Same(was, now, t)
  }

  /** The power is gone before the commit has begun. */
  lemma BeforeCommit(was: Files, d: Disk, v: Vars, cfg: Config, ts: set<Path>)
    requires d.Sound() && Committable(v, cfg, ts) && Steady(d.files, cfg) && (d.Alive() ==> Clean(d.files, cfg))
    requires (forall t | t in ts :: Same(was, d.files, t)) && RtcPlaced(d, v.files).power == 0
    ensures var f := Finished(d, v, cfg).0; Steady(f.files, cfg) && OldContent(was, f.files, Plain(ts))
  {
    var r := RtcPlaced(d, v.files);
    RtcPlacedFrame(d, v.files);
    DeadCommit(r, cfg, Session.Retained(v.files), v.deletes);
    CommittableNamed(v, cfg, ts);
    forall t | t in Plain(ts) ensures Same(was, r.files, t) { PlainAside(d, v, cfg, ts, t); }
    if d.Alive() {
      HelperLeaves(d, v, cfg);
    } else {
      DeadRtcPlaced(d, v.files);
    }
  }

  /** What the commit leaves outside its set: every target that it was not to place. */
  lemma UnstagedStay(d: Disk, v: Vars, cfg: Config, ts: set<Path>, paths: seq<Path>, e: Files, t: Path)
    requires d.Sound() && Committable(v, cfg, ts) && t in Plain(ts) && t !in Targets(paths)
    requires SameOutside(RtcPlaced(d, v.files).files, e, cfg, Targets(paths), v.deletes)
    ensures Same(d.files, e, t)
  {
    PlainAside(d, v, cfg, ts, t);
    assert Outside(t, cfg, Targets(paths), v.deletes);
  }

  lemma NewIsWhole(was: Files, d: Disk, v: Vars, cfg: Config, ts: set<Path>, paths: seq<Path>, e: Files)
    requires d.Sound() && Committable(v, cfg, ts) && Targets(paths) <= Plain(ts) && (forall t | t in ts :: Same(was, d.files, t))
    requires NewWhole(RtcPlaced(d, v.files).files, e, cfg, paths, v.deletes)
    ensures Whole(was, d.files, e, cfg, paths, Plain(ts))
  {
    var r := RtcPlaced(d, v.files).files;
    forall t | t in Plain(ts) ensures Same(d.files, r, t) && Same(d.files, r, Ota(t)) { PlainAside(d, v, cfg, ts, t); }
    NewIsDelivered(was, d.files, r, e, cfg, paths, v.deletes);
    forall t | t in Plain(ts) && t !in Targets(paths) ensures Same(was, e, t) { UnstagedStay(d, v, cfg, ts, paths, e, t); }
  }

  lemma OldIsOld(was: Files, d: Disk, v: Vars, cfg: Config, ts: set<Path>, paths: seq<Path>, e: Files)
    requires d.Sound() && Committable(v, cfg, ts) && (forall t | t in ts :: Same(was, d.files, t))
    requires OldWhole(RtcPlaced(d, v.files).files, e, cfg, paths, v.deletes)
    ensures OldContent(was, e, Plain(ts))
  {
    forall t | t in Plain(ts) && t in was ensures t in e && e[t] == was[t] {
      PlainAside(d, v, cfg, ts, t);
      if t !in Targets(paths) { UnstagedStay(d, v, cfg, ts, paths, e, t); }
    }
  }

  lemma FlagWhole(was: Files, staged: Files, c: Disk, cfg: Config, paths: seq<Path>, v: Vars, ts: set<Path>)
    requires Whole(was, staged, c.files, cfg, paths, Plain(ts)) && Committable(v, cfg, ts)
    ensures Whole(was, staged, WithoutFlag(c, cfg).files, cfg, paths, Plain(ts))
  {
    hide Delivered;
    FlagApart(was, staged, c, cfg, paths, ts);
  }

  /** The commit ran to its end; only the flag was left to remove. */
  lemma AfterCommit(was: Files, d: Disk, v: Vars, cfg: Config, ts: set<Path>)
    requires d.Sound() && Committable(v, cfg, ts) && (forall t | t in ts :: Same(was, d.files, t))
    requires AtReply(d, v, cfg).Alive()
    ensures Whole(was, d.files, Finished(d, v, cfg).0.files, cfg, Found(d, v), Plain(ts))
  {
    hide Whole, NewWhole, Committable, Committed, RtcPlaced, WithoutFlag, Same, SameOutside, Ready;
    var r, kept := RtcPlaced(d, v.files), Session.Retained(v.files);
    CommitReadies(d, v, cfg, ts);
    KeptIsPlain(v, cfg, ts);
    CommitCut(r, cfg, kept, v.deletes);
    var c := Committed(r, cfg, kept, v.deletes).0;
    NewIsWhole(was, d, v, cfg, ts, Found(d, v), c.files);
    FlagWhole(was, d.files, c, cfg, Found(d, v), v, ts);
  }

  /** The power went inside the commit: the repairs make it whole or undo it. */
  lemma InsideCommit(was: Files, d: Disk, v: Vars, cfg: Config, ts: set<Path>, budgets: seq<nat>, last: nat)
    requires d.Sound() && Clean(d.files, cfg) && Committable(v, cfg, ts) && (forall t | t in ts :: Same(was, d.files, t))
    requires AtReply(d, v, cfg).power == 0
    requires AfterRepairs(Finished(d, v, cfg).0, cfg, budgets, last).Alive()
    ensures var e := AfterRepairs(Finished(d, v, cfg).0, cfg, budgets, last);
            var paths := Found(d, v);
            Whole(was, d.files, e.files, cfg, paths, Plain(ts)) || OldContent(was, e.files, Plain(ts))
  {
    var r, kept := RtcPlaced(d, v.files), Session.Retained(v.files);
    var paths := StagedTargets(r.files, kept);
    var e := AfterRepairs(Finished(d, v, cfg).0, cfg, budgets, last);
    CommitReadies(d, v, cfg, ts);
    KeptIsPlain(v, cfg, ts);
    CommittableNamed(v, cfg, ts);
    HelperLeaves(d, v, cfg);
    CleanIsFresh(r, cfg, kept);
    assert r.Reboot(r.power) == r;
    assert e == AfterCrashes(r, cfg, kept, v.deletes, r.power, budgets, last);
    hide *;
    CommitIsAtomic(r, cfg, kept, v.deletes, r.power, budgets, last);
    if NewWhole(r.files, e.files, cfg, paths, v.deletes) {
      NewIsWhole(was, d, v, cfg, ts, paths, e.files);
    } else {
      OldIsOld(was, d, v, cfg, ts, paths, e.files);
    }
  }

  /** UPDATE_COMMIT cut anywhere, by whatever power the session had left, and any
      number of interrupted repairs: the next complete one finds the staged set whole
      or every named target that existed with its old content, the helper apart. */
  lemma FinishedSurvives(was: Files, d: Disk, v: Vars, cfg: Config, ts: set<Path>, budgets: seq<nat>, last: nat)
    requires d.Sound() && Steady(d.files, cfg) && Committable(v, cfg, ts) && (d.Alive() ==> Clean(d.files, cfg))
    requires forall t | t in ts :: Same(was, d.files, t)
    requires AfterRepairs(Finished(d, v, cfg).0, cfg, budgets, last).Alive()
    ensures var e := AfterRepairs(Finished(d, v, cfg).0, cfg, budgets, last);
            var paths := Found(d, v);
            (d.Alive() && Whole(was, d.files, e.files, cfg, paths, Plain(ts))) || OldContent(was, e.files, Plain(ts))
  {
    var r, kept := RtcPlaced(d, v.files), Session.Retained(v.files);
    var paths := StagedTargets(r.files, kept);
    var f := Finished(d, v, cfg).0;
    RtcPlacedFrame(d, v.files);
    if r.power == 0 {
      BeforeCommit(was, d, v, cfg, ts);
      SteadyOutcome(f, cfg, budgets, last);
    } else if Committed(r, cfg, kept, v.deletes).0.Alive() {
      AfterCommit(was, d, v, cfg, ts);
      SteadyOutcome(f, cfg, budgets, last);
    } else {
      InsideCommit(was, d, v, cfg, ts, budgets, last);
    }
  }

  /* ---- any session after any run ---- */

  lemma FlagLeavesSteady(d: Disk, cfg: Config)
    requires Steady(d.files, cfg)
    requires cfg.flag.Some? ==> Own(cfg, Targets(ReadJournal(d.files, cfg.journal).paths), cfg.flag.value)
    ensures Steady(WithoutFlag(d, cfg).files, cfg)
  {
    forall p | p in ReadJournal(d.files, cfg.journal).paths ensures p in Targets(ReadJournal(d.files, cfg.journal).paths) {}
  }

  lemma ProperFlag(was: Files, now: Files, cfg: Config)
    requires Proper(was, cfg) && FirmwareUntouched(was, now, cfg) && cfg.flag.Some?
    ensures Own(cfg, Targets(ReadJournal(now, cfg.journal).paths), cfg.flag.value)
  {
    assert !IsOta(cfg.journal);
    assert Same(was, now, cfg.journal) || cfg.journal !in now;
  }

  /** A session that came to no commit: nothing to repair, and the firmware as it was. */
  lemma UncommittedSurvives(m: Disk, e: Disk, cfg: Config, talk: Talk, x: Disk, end: End, ts: set<Path>, budgets: seq<nat>, last: nat)
    requires Proper(m.files, cfg) && Booted(m.files, cfg) && OwnApart(cfg, ts)
    requires SessionStep(cfg, m, talk, x, end, e) && !end.Ended?
    ensures OldContent(m.files, AfterRepairs(e, cfg, budgets, last).files, ts)
  {
    hide Conducted, FirmwareUntouched, Steady, Journalled;
    ProperSane(m.files, cfg);
    UncommittedUntouched(m, cfg, talk.tools, talk.timeoutMs, talk.inputs, x, end);
    UntouchedSteady(m.files, x.files, cfg);
    if cfg.flag.Some? { ProperFlag(m.files, x.files, cfg); }
    FlagLeavesSteady(x, cfg);
    SteadyOutcome(e, cfg, budgets, last);
    UntouchedTargets(m.files, x, e, cfg, ts);
  }

  lemma UntouchedTargets(was: Files, x: Disk, e: Disk, cfg: Config, ts: set<Path>)
    requires FirmwareUntouched(was, x.files, cfg) && OwnApart(cfg, ts) && (e == x || e == WithoutFlag(x, cfg))
    ensures OldContent(was, e.files, ts)
  {
    forall t | t in ts ensures Same(was, e.files, t) { assert !IsOta(t) && !IsBck(t) && t != cfg.journal; }
  }

  lemma TransferredTargets(was: Files, now: Files, cfg: Config, ts: set<Path>)
    requires Transferred(was, now, cfg) && Apart(ts, cfg.journal)
    ensures forall t | t in ts :: Same(was, now, t)
  {
    forall t | t in ts ensures Same(was, now, t) { assert Same(was, now, t) || Discarded(was, cfg, t); }
  }

  /** The session came to a commit and the set that it had staged is in place whole, or
      every file that it named is as it was when it began. */
  ghost predicate NewOrOld(m: Disk, now: Files, cfg: Config, talk: Talk) {
    var ts, n := Plain(Targeted(talk.inputs, cfg)), Until(talk.inputs, talk.tools, talk.timeoutMs);
    var (d, v) := After(m, FRESH, cfg, talk.tools, talk.inputs[..n]);
    || (n < |talk.inputs| && Commits(talk.inputs[n]) && Whole(m.files, d.files, now, cfg, Found(d, v), ts))
    || OldContent(m.files, now, ts)
  }

  /** Whatever packets a session receives under usable names, if it announces what it
      commits: wherever the power fails in it, and however often in the repairs that
      follow, the next complete repair finds the staged set whole or every file that
      the packets named, the helper apart, with its old content. */
  lemma SessionSurvives(m: Disk, e: Disk, cfg: Config, talk: Talk, x: Disk, end: End, budgets: seq<nat>, last: nat)
    requires m.Sound() && Proper(m.files, cfg) && Booted(m.files, cfg) && Usable(talk.inputs, cfg) && Announced(talk.inputs, talk.tools)
    requires SessionStep(cfg, m, talk, x, end, e) && AfterRepairs(e, cfg, budgets, last).Alive()
    ensures NewOrOld(m, AfterRepairs(e, cfg, budgets, last).files, cfg, talk)
  {
    hide Proper, Transferred, Journalled, Clean, Vouched, Finished, Committable, Usable, Announced, Targeted, Doomed,
      After, AfterRepairs, Whole, OldContent, SweptFrom, Sparing, Apart, Commits;
    var ts := Targeted(talk.inputs, cfg);
    UsableNames(talk.inputs, cfg);
    if end.Ended? {
      var n := Until(talk.inputs, talk.tools, talk.timeoutMs);
      AtTheEnd(m, cfg, talk.tools, talk.inputs, n);
      var (d, v) := After(m, FRESH, cfg, talk.tools, talk.inputs[..n]);
      VouchedCommittable(v, cfg, ts, Doomed(talk.inputs, cfg));
      TransferredUntouched(m.files, d.files, cfg);
      UntouchedSteady(m.files, d.files, cfg);
      TransferredTargets(m.files, d.files, cfg, ts);
      FinishedTwice(d, v, cfg);
      assert e == Finished(d, v, cfg).0;
      FinishedSurvives(m.files, d, v, cfg, ts, budgets, last);
    } else {
      UncommittedSurvives(m, e, cfg, talk, x, end, ts, budgets, last);
      FewerOld(m.files, AfterRepairs(e, cfg, budgets, last).files, ts);
    }
  }

  lemma FinishedTwice(d: Disk, v: Vars, cfg: Config)
    ensures WithoutFlag(Finished(d, v, cfg).0, cfg) == Finished(d, v, cfg).0
  {
  }

  lemma FewerOld(was: Files, now: Files, ts: set<Path>)
    requires OldContent(was, now, ts)
    ensures OldContent(was, now, Plain(ts))
  {}

  /** Every update is whole or not at all: after any run under usable names with
      announced updates, a boot that serves a session, cut anywhere, and any repairs
      after it, cut anywhere, end in the new set or in the old files. */
  lemma EveryUpdateIsWhole(cfg: Config, events: seq<Event>, ds: seq<Disk>, k: nat, talk: Talk, e: Disk, budgets: seq<nat>, last: nat)
    requires Run(cfg, events, ds) && ds[0].Sound() && Proper(ds[0].files, cfg) && Journalled(ds[0].files, cfg)
    requires forall ev | ev in events :: UsableEvent(ev, cfg) && AnnouncedEvent(ev)
    requires var (s, rolledBack) := Settled(ds[|events|].Reboot(k), cfg); !rolledBack && s.Alive()
    requires cfg.flag.Some? && cfg.flag.value in Marked(Settled(ds[|events|].Reboot(k), cfg).0, cfg).files
    requires Usable(talk.inputs, cfg) && Announced(talk.inputs, talk.tools)
    requires BootStep(cfg, ds[|events|].Reboot(k), talk, e) && AfterRepairs(e, cfg, budgets, last).Alive()
    ensures var m := Marked(Settled(ds[|events|].Reboot(k), cfg).0, cfg);
            NewOrOld(m, AfterRepairs(e, cfg, budgets, last).files, cfg, talk)
  {
    hide Proper, Step, UsableEvent, AnnouncedEvent, Settled, Marked, Journalled, Booted, Usable, Announced,
      AfterRepairs, NewOrOld, Conducted;
    var d := ds[|events|].Reboot(k);
    var m := Marked(Settled(d, cfg).0, cfg);
    RunStaysProper(cfg, events, ds);
    AnyRunHandsOver(cfg, events, ds, k);
    MarkedKeepsJournalled(d, cfg);
    var x, end :| SessionStep(cfg, m, talk, x, end, e);
    SessionSurvives(m, e, cfg, talk, x, end, budgets, last);
  }

  /** In every such session a well-formed UPDATE_START that the power outlasts leaves no
      retained copy and no journal, and none comes back before the commit. */
  lemma EveryStartCleans(cfg: Config, events: seq<Event>, ds: seq<Disk>, k: nat, tools: Tools, inputs: seq<Input>)
    requires Run(cfg, events, ds) && ds[0].Sound() && Proper(ds[0].files, cfg) && Journalled(ds[0].files, cfg)
    requires forall ev | ev in events :: UsableEvent(ev, cfg) && AnnouncedEvent(ev)
    requires var (s, rolledBack) := Settled(ds[|events|].Reboot(k), cfg); !rolledBack && s.Alive()
    requires exists i :: i in inputs && Opens(i, tools)
    ensures var m := Marked(Settled(ds[|events|].Reboot(k), cfg).0, cfg);
            var d := After(m, FRESH, cfg, tools, inputs).0;
            d.Alive() ==> Clean(d.files, cfg)
  {
    hide Proper, Step, UsableEvent, AnnouncedEvent, Settled, Marked, Steady, Opens, Clean;
    AnyRunHandsOver(cfg, events, ds, k);
    var m := Marked(Settled(ds[|events|].Reboot(k), cfg).0, cfg);
    RunStaysProper(cfg, events, ds);
    ProperSane(ds[|events|].files, cfg);
    FreshIsNeat();
    AfterKeeps(m, FRESH, cfg, tools, inputs);
  }
}
