/** Why a commit always starts clean: over any run of events, updates included, no
    retained copy outlives its entry in the journal, and so UPDATE_START leaves none. */
module Freshness {
  import opened Disks
  import opened Names
  import opened Journals
  import opened Restore
  import opened Healing
  import opened Atomicity
  import opened Paths
  import opened Sweep
  import opened Clearing
  import opened Window
  import opened Session
  import opened Packets
  import opened Runs
  import opened Text

  /* ---- the journal's names ---- */

  /** The journal names usable targets, none of them a file of the device's own. */
  ghost predicate Proper(fs: Files, cfg: Config) { OwnApart(cfg, Targets(ReadJournal(fs, cfg.journal).paths)) }

  /** The journal is gone, names what it named, or names some of `ts`; the medium has
      not begun to refuse renames. */
  ghost predicate Carries(d: Disk, e: Disk, cfg: Config, ts: set<Path>) {
    var paths := ReadJournal(e.files, cfg.journal).paths;
    e.Sound() && (paths == [] || paths == ReadJournal(d.files, cfg.journal).paths || Targets(paths) <= ts)
  }

  lemma CarriesThen(d: Disk, e: Disk, f: Disk, cfg: Config, ts: set<Path>)
    requires Carries(d, e, cfg, {}) && Carries(e, f, cfg, ts)
    ensures Carries(d, f, cfg, ts)
  {
    var paths := ReadJournal(e.files, cfg.journal).paths;
    assert Targets(paths) <= {} ==> paths == [] by {
      if paths != [] { assert paths[0] in Targets(paths); }
    }
  }

  lemma CarriesWider(d: Disk, e: Disk, cfg: Config, ts: set<Path>)
    requires Carries(d, e, cfg, {})
    ensures Carries(d, e, cfg, ts)
  {}

  lemma StaysProper(d: Disk, e: Disk, cfg: Config, ts: set<Path>)
    requires Proper(d.files, cfg) && Carries(d, e, cfg, ts) && (ts == {} || OwnApart(cfg, ts))
    ensures Proper(e.files, cfg)
  {}

  lemma ProperSane(fs: Files, cfg: Config)
    requires Proper(fs, cfg)
    ensures Sane(fs, cfg.journal) && !IsBck(cfg.journal) && !IsOta(cfg.journal)
    ensures cfg.mark != cfg.journal && !IsBck(cfg.mark) && (cfg.flag.Some? ==> cfg.flag.value != cfg.journal && !IsBck(cfg.flag.value))
  {}

  /** A step that keeps both the names and the copies journalled. */
  ghost predicate Keeps(d: Disk, e: Disk, cfg: Config) {
    Carries(d, e, cfg, {}) && (Journalled(d.files, cfg) ==> Journalled(e.files, cfg))
  }

  lemma KeepsThen(d: Disk, e: Disk, f: Disk, cfg: Config)
    requires Keeps(d, e, cfg) && Keeps(e, f, cfg)
    ensures Keeps(d, f, cfg)
  {
    CarriesThen(d, e, f, cfg, {});
  }

  /* ---- each step ---- */

  lemma {:induction false} RestoreAddsNoBackups(d: Disk, ts: set<Path>, paths: seq<Path>, journal: Path)
    requires Apart(ts, journal) && forall p | p in paths :: p in ts
    ensures var e := RestoredEach(d, paths); NoNewBackups(d.files, e.files) && Same(d.files, e.files, journal)
    decreases |paths|
  {
    if paths != [] {
      assert paths[0] in paths;
      RestoreAddsNoBackups(RestoredOne(d, paths[0]), ts, paths[1..], journal);
    }
  }

  lemma RestoreKeepsJournalled(d: Disk, cfg: Config)
    requires d.Sound() && Sane(d.files, cfg.journal)
    ensures Keeps(d, RestoredAll(d, cfg), cfg)
  {
    var paths := ReadJournal(d.files, cfg.journal).paths;
    var ts := Targets(paths);
    if cfg.journal !in d.files {
      assert RestoredEach(d, []) == d;
    } else {
      RestoreOutcome(d, cfg);
      RestoreAddsNoBackups(d, ts, paths, cfg.journal);
      var e := RestoredAll(d, cfg);
      if cfg.journal !in e.files && Journalled(d.files, cfg) {
        forall p | IsBck(p) ensures p !in e.files { BckOfStem(p); }
      }
    }
  }

  lemma {:induction false} MendAddsNoBackups(d: Disk, ts: set<Path>, paths: seq<Path>, journal: Path)
    requires Apart(ts, journal) && d.Sound() && forall p | p in paths :: p in ts
    ensures var e := MendedEach(d, paths); NoNewBackups(d.files, e.files) && Same(d.files, e.files, journal) && e.Sound()
    decreases |paths|
  {
    if paths != [] {
      var t := paths[0];
      assert t in paths;
      MendAddsNoBackups(if Bck(t) in d.files && t !in d.files then Renamed(d, Bck(t), t) else d, ts, paths[1..], journal);
    }
  }

  lemma RewriteKeepsJournalled(d: Disk, cfg: Config, state: State, attempt: int)
    requires d.Sound() && !IsBck(cfg.journal)
    ensures Keeps(d, WroteJournal(d, cfg, StateLine(state, attempt), ReadJournal(d.files, cfg.journal).paths), cfg)
  {
    ReadPathsAreLines(d.files, cfg.journal);
    JournalRoundTrip(state, attempt, ReadJournal(d.files, cfg.journal).paths);
  }

  lemma RepairKeepsJournalled(d: Disk, cfg: Config)
    requires d.Sound() && Sane(d.files, cfg.journal)
    ensures Keeps(d, Repaired(d, cfg), cfg)
  {
    var j := ReadJournal(d.files, cfg.journal);
    if j.paths != [] && j.state == Committing {
      RestoreKeepsJournalled(d, cfg);
    } else if j.paths != [] && j.state == Trial {
      var m := MendedEach(d, j.paths);
      MendAddsNoBackups(d, Targets(j.paths), j.paths, cfg.journal);
      if Journalled(d.files, cfg) { ShrinkKeeps(d.files, m.files, cfg); }
      RewriteKeepsJournalled(m, cfg, Trial, j.attempt);
    }
  }

  lemma TrialKeepsJournalled(d: Disk, cfg: Config)
    requires d.Sound() && Sane(d.files, cfg.journal)
    ensures Keeps(d, Tried(d, cfg).0, cfg)
  {
    hide RestoredAll, Journalled, JournalText, IntText;
    var j := ReadJournal(d.files, cfg.journal);
    RestoreKeepsJournalled(d, cfg);
    RewriteKeepsJournalled(d, cfg, Trial, j.attempt + 1);
  }

  /** Writing or removing a file that is neither the journal nor a retained copy. */
  lemma OwnFileKeepsJournalled(d: Disk, e: Disk, cfg: Config, p: Path)
    requires d.Sound() && p != cfg.journal && !IsBck(p)
    requires e == d || e == Written(d, p, "1") || e == Removed(d, p)
    ensures Keeps(d, e, cfg)
  {
    if Journalled(d.files, cfg) { ShrinkKeeps(d.files, e.files, cfg); }
  }

  /** `repair` and `trial`, and the marker. */
  lemma MarkedKeepsJournalled(d: Disk, cfg: Config)
    requires d.Sound() && Proper(d.files, cfg)
    ensures var s := Settled(d, cfg).0; Keeps(d, s, cfg) && Keeps(d, Marked(s, cfg), cfg)
    ensures Proper(Marked(Settled(d, cfg).0, cfg).files, cfg)
  {
    hide Proper, Repaired, Tried, Sane;
    var r := Repaired(d, cfg);
    var s := Tried(r, cfg).0;
    ProperSane(d.files, cfg);
    RepairKeepsJournalled(d, cfg);
    StaysProper(d, r, cfg, {});
    ProperSane(r.files, cfg);
    TrialKeepsJournalled(r, cfg);
    KeepsThen(d, r, s, cfg);
    OwnFileKeepsJournalled(s, Marked(s, cfg), cfg, cfg.mark);
    KeepsThen(d, s, Marked(s, cfg), cfg);
    StaysProper(d, Marked(s, cfg), cfg, {});
  }

  lemma KeepsNothing(d: Disk, cfg: Config)
    requires d.Sound()
    ensures Keeps(d, d, cfg)
  {}

  lemma {:induction false} ListenedKeepsJournalled(d: Disk, cfg: Config, windowMs: int, rounds: seq<Round>)
    requires d.Sound() && Proper(d.files, cfg)
    ensures Keeps(d, Listened(d, cfg, windowMs, rounds).0, cfg)
    decreases |rounds|
  {
    hide Proper, RestoredAll, Keeps, Sane, Obeyed;
    KeepsNothing(d, cfg);
    if rounds != [] {
      var e := Obeyed(d, cfg, rounds[0].admission).0;
      ProperSane(d.files, cfg);
      if cfg.flag.Some? { OwnFileKeepsJournalled(d, Flagged(d, cfg), cfg, cfg.flag.value); }
      RestoreKeepsJournalled(d, cfg);
      ObeyedLeaves(d, cfg, rounds[0].admission);
      KeepsProper(d, e, cfg);
      ListenedKeepsJournalled(e, cfg, windowMs, rounds[1..]);
      KeepsThen(d, e, Listened(e, cfg, windowMs, rounds[1..]).0, cfg);
    }
  }

  lemma KeepsProper(d: Disk, e: Disk, cfg: Config)
    requires Proper(d.files, cfg) && Keeps(d, e, cfg)
    ensures Proper(e.files, cfg) && e.Sound()
  {
    StaysProper(d, e, cfg, {});
  }

  lemma SweepKeepsJournalled(d: Disk, e: Disk, cfg: Config)
    requires d.Sound() && SweptFrom(d, e, cfg.journal) && !IsBck(cfg.journal) && !IsOta(cfg.journal)
    ensures Keeps(d, e, cfg)
  {
    assert !Orphan(cfg.journal, KeptBackups(d.files, cfg.journal));
    assert Same(d.files, e.files, cfg.journal);
    if Journalled(d.files, cfg) { ShrinkKeeps(d.files, e.files, cfg); }
  }

  /* ---- whole boots, updates included ---- */

  /** The targets that a session of this event may commit. */
  function Aims(ev: Event, cfg: Config): set<Path> { if ev.Boot? then Targeted(ev.talk.inputs, cfg) else {} }

  /** The names in the packets of the event's session are usable. */
  ghost predicate UsableEvent(ev: Event, cfg: Config) { ev.Boot? ==> Usable(ev.talk.inputs, cfg) }

  /** Its session announces what it commits. */
  ghost predicate AnnouncedEvent(ev: Event) { ev.Boot? ==> Announced(ev.talk.inputs, ev.talk.tools) }

  lemma SessionCarries(m: Disk, e: Disk, cfg: Config, talk: Talk, x: Disk, end: End)
    requires m.Sound() && Proper(m.files, cfg) && Usable(talk.inputs, cfg) && SessionStep(cfg, m, talk, x, end, e)
    ensures Carries(m, e, cfg, Targeted(talk.inputs, cfg))
    ensures Journalled(m.files, cfg) && Announced(talk.inputs, talk.tools) ==> Journalled(e.files, cfg)
  {
    hide Proper, Sane, Usable, Targeted, Announced, Conducted, Journalled;
    SessionKeeps(m, cfg, talk.tools, talk.timeoutMs, talk.inputs, x, end);
    ProperSane(m.files, cfg);
    if cfg.flag.Some? {
      OwnFileKeepsJournalled(x, WithoutFlag(x, cfg), cfg, cfg.flag.value);
      SameNames(x, WithoutFlag(x, cfg), cfg, cfg.flag.value);
    }
  }

  lemma SameNames(d: Disk, e: Disk, cfg: Config, p: Path)
    requires e == d || e == Removed(d, p)
    requires p != cfg.journal
    ensures ReadJournal(e.files, cfg.journal) == ReadJournal(d.files, cfg.journal)
  {}

  lemma BootCarries(d: Disk, e: Disk, cfg: Config, talk: Talk)
    requires d.Sound() && Proper(d.files, cfg) && Usable(talk.inputs, cfg) && BootStep(cfg, d, talk, e)
    ensures Carries(d, e, cfg, Targeted(talk.inputs, cfg))
    ensures Journalled(d.files, cfg) && Announced(talk.inputs, talk.tools) ==> Journalled(e.files, cfg)
  {
    hide Proper, Settled, Marked, Listened, SweptFrom, SessionStep, WindowOf, Usable, Targeted, Announced, Journalled, Carries;
    MarkedKeepsJournalled(d, cfg);
    var (s, rolledBack) := Settled(d, cfg);
    var m := Marked(s, cfg);
    var ts := Targeted(talk.inputs, cfg);
    ProperSane(m.files, cfg);
    CarriesWider(d, s, cfg, ts);
    CarriesWider(d, m, cfg, ts);
    CarriesSound(d, m, cfg, {});
    if !rolledBack && cfg.flag.Some? {
      if cfg.flag.value in m.files {
        var x, end :| SessionStep(cfg, m, talk, x, end, e);
        SessionCarries(m, e, cfg, talk, x, end);
        CarriesThen(d, m, e, cfg, ts);
      } else {
        ListenedKeepsJournalled(m, cfg, WindowOf(s, cfg), talk.rounds);
        var (l, _, reset) := Listened(m, cfg, WindowOf(s, cfg), talk.rounds);
        KeepsThen(d, m, l, cfg);
        CarriesWider(d, l, cfg, ts);
        if !reset {
          CarriesSound(d, l, cfg, {});
          SweepKeepsJournalled(l, e, cfg);
          KeepsThen(d, l, e, cfg);
          CarriesWider(d, e, cfg, ts);
        }
      }
    }
  }

  lemma CarriesSound(d: Disk, e: Disk, cfg: Config, ts: set<Path>)
    requires Carries(d, e, cfg, ts)
    ensures e.Sound()
  {}

  lemma StepCarries(cfg: Config, ev: Event, d: Disk, e: Disk)
    requires d.Sound() && Proper(d.files, cfg) && Step(cfg, ev, d, e) && UsableEvent(ev, cfg)
    ensures Carries(d, e, cfg, Aims(ev, cfg)) && Proper(e.files, cfg)
    ensures Journalled(d.files, cfg) && AnnouncedEvent(ev) ==> Journalled(e.files, cfg)
  {
    hide Proper, BootStep, Repaired, RestoredAll, ConfirmedDisk, Usable, Targeted, Announced, Journalled, Sane;
    ProperSane(d.files, cfg);
    match ev {
      case Boot(k, talk) =>
        BootCarries(d.Reboot(k), e, cfg, talk);
        UsableNames(talk.inputs, cfg);
      case Requesting(k) => if cfg.flag.Some? { OwnFileKeepsJournalled(d.Reboot(k), e, cfg, cfg.flag.value); }
      case Confirming(k) => ConfirmKeepsJournalled(d.Reboot(k), cfg);
      case RollingBack(k) => RestoreKeepsJournalled(d.Reboot(k), cfg);
      case Recovering(k) =>
        var r := Repaired(d.Reboot(k), cfg);
        RepairKeepsJournalled(d.Reboot(k), cfg);
        if cfg.flag.Some? { OwnFileKeepsJournalled(r, e, cfg, cfg.flag.value); KeepsThen(d.Reboot(k), r, e, cfg); }
      case Polling(k) => OwnFileKeepsJournalled(d.Reboot(k), e, cfg, cfg.mark);
      case Asking =>
    }
    StaysProper(d, e, cfg, Aims(ev, cfg));
  }

  lemma ConfirmKeepsJournalled(d: Disk, cfg: Config)
    requires d.Sound() && !IsBck(cfg.journal)
    ensures Keeps(d, ConfirmedDisk(d, cfg), cfg)
  {
    RewriteKeepsJournalled(d, cfg, Confirmed, 0);
  }

  /** Over any run under usable names, updates included, whatever the packets and
      wherever the power fails: the journal names usable targets. */
  lemma {:induction false} RunStaysProper(cfg: Config, events: seq<Event>, ds: seq<Disk>)
    requires Run(cfg, events, ds) && ds[0].Sound() && Proper(ds[0].files, cfg) && forall ev | ev in events :: UsableEvent(ev, cfg)
    ensures ds[|events|].Sound() && Proper(ds[|events|].files, cfg)
    decreases |events|
  {
    if events != [] {
      var n := |events| - 1;
      RunStaysProper(cfg, events[..n], ds[..n + 1]);
      assert events[n] in events;
      StepCarries(cfg, events[n], ds[n], ds[n + 1]);
    }
  }

  /** Over any such run whose updates are announced, no retained copy outlives its
      entry in the journal. */
  lemma {:induction false} RunKeepsJournalled(cfg: Config, events: seq<Event>, ds: seq<Disk>)
    requires Run(cfg, events, ds) && ds[0].Sound() && Proper(ds[0].files, cfg) && Journalled(ds[0].files, cfg)
    requires forall ev | ev in events :: UsableEvent(ev, cfg) && AnnouncedEvent(ev)
    ensures Journalled(ds[|events|].files, cfg)
    decreases |events|
  {
    if events != [] {
      var n := |events| - 1;
      RunKeepsJournalled(cfg, events[..n], ds[..n + 1]);
      RunStaysProper(cfg, events[..n], ds[..n + 1]);
      assert events[n] in events;
      StepCarries(cfg, events[n], ds[n], ds[n + 1]);
    }
  }

  /** A sweep that runs to its end leaves no retained copy outside the journal,
      whatever there was before. */
  lemma SweepJournals(was: Disk, now: Disk, cfg: Config)
    requires Tree(was.files) && SweptFrom(was, now, cfg.journal) && now.Alive() && !IsBck(cfg.journal) && !IsOta(cfg.journal)
    requires forall p | p in ReadJournal(was.files, cfg.journal).paths :: Canonical(Bck(p)) == Bck(p)
    ensures Journalled(now.files, cfg)
  {
    var kept := KeptBackups(was.files, cfg.journal);
    assert !Orphan(cfg.journal, kept);
    assert Same(was.files, now.files, cfg.journal);
    forall k | k in now.files && IsBck(k) ensures Stem(k) in ReadJournal(now.files, cfg.journal).paths {
      SweepExact(was, now, cfg.journal, k);
      assert k in kept;
    }
  }
}
