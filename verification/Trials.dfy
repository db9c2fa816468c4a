/** The bounded trial over whole boots: how many a candidate gets, when boots alone
    bring the old generation back, and when they never do. */
module Trials {
  import opened Disks
  import opened Names
  import opened Journals
  import opened Restore
  import opened Healing
  import opened Atomicity
  import opened CrashSafety
  import opened Sweep
  import opened Window
  import opened Session
  import opened Runs
  import opened Generations
  import opened Text
  import Commands

  /* ---- the counter ---- */

  /** Events that neither update, nor ask for the old generation, nor confirm the new. */
  predicate Neutral(ev: Event) { !Updates(ev) && !AsksBack(ev) && !Confirms(ev) }

  ghost predicate AllNeutral(events: seq<Event>) { forall ev | ev in events :: Neutral(ev) }

  lemma HeldPaths(was: Files, now: Files, cfg: Config, paths: seq<Path>)
    requires Held(was, now, cfg, paths)
    ensures cfg.journal in now && ReadJournal(now, cfg.journal).paths == paths
  {}

  lemma OneTrialBoot(was: Files, d: Disk, cfg: Config, paths: seq<Path>)
    requires Held(was, d.files, cfg, paths) && Apart(Targets(paths), cfg.journal) && d.Alive()
    requires var j := ReadJournal(d.files, cfg.journal); j.state == Trial && j.attempt + 1 <= Limit(cfg)
    ensures var (s, rolledBack) := Settled(d, cfg);
            var n := ReadJournal(d.files, cfg.journal).attempt + 1;
            && !rolledBack && s.files == d.files[cfg.journal := JournalText(IntText(n), paths)]
            && Held(was, s.files, cfg, paths) && ReadJournal(s.files, cfg.journal) == Journal(n, Trial, paths)
  {
    hide Held, Repaired, ReadJournal, JournalText, RestoredAll, IntText;
    HeldNeedsNoRepair(was, d, cfg, paths);
    HeldPaths(was, d.files, cfg, paths);
    HeldRewritten(was, d, cfg, paths, Trial, ReadJournal(d.files, cfg.journal).attempt + 1);
  }

  lemma SameJournal(f: Files, g: Files, cfg: Config)
    requires Same(f, g, cfg.journal)
    ensures ReadJournal(g, cfg.journal) == ReadJournal(f, cfg.journal)
  {}

  /** A powered boot within the limit counts one, whatever follows its marker. */
  lemma BootCounts(was: Files, d: Disk, e: Disk, cfg: Config, paths: seq<Path>, talk: Talk)
    requires Held(was, d.files, cfg, paths) && Setup(cfg, Targets(paths)) && BootStep(cfg, d, talk, e)
    requires Quiet(talk.inputs) && NoRollback(talk.rounds)
    requires var j := ReadJournal(d.files, cfg.journal); j.state == Trial && (d.Alive() ==> j.attempt + 1 <= Limit(cfg))
    ensures Held(was, e.files, cfg, paths)
    ensures ReadJournal(e.files, cfg.journal)
            == Journal(ReadJournal(d.files, cfg.journal).attempt + if d.Alive() then 1 else 0, Trial, paths)
  {
    hide Held, BootStep, Repaired, Tried, Marked, ReadJournal, JournalText, IntText, Quiet, NoRollback;
    HeldPaths(was, d.files, cfg, paths);
    HeldNeedsNoRepair(was, d, cfg, paths);
    TrialJournal(d.files, cfg);
    var s := Settled(d, cfg).0;
    if d.Alive() { OneTrialBoot(was, d, cfg, paths); } else { DeadTried(d, cfg); }
    if Settled(d, cfg).1 {
      RolledBackBoot(cfg, d, e, talk);
    } else {
      MarkHolds(was, s, cfg, paths);
      AfterMarkHolds(was, d, e, cfg, paths, talk);
      SameJournal(s.files, Marked(s, cfg).files, cfg);
      SameJournal(Marked(s, cfg).files, e.files, cfg);
    }
  }

  lemma TrialJournal(fs: Files, cfg: Config)
    requires ReadJournal(fs, cfg.journal).state == Trial
    ensures var j := ReadJournal(fs, cfg.journal); j == Journal(j.attempt, Trial, j.paths)
  {}

  lemma StepCounts(was: Files, d: Disk, e: Disk, cfg: Config, paths: seq<Path>, ev: Event)
    requires Held(was, d.files, cfg, paths) && Setup(cfg, Targets(paths)) && Step(cfg, ev, d, e) && Neutral(ev)
    requires var j := ReadJournal(d.files, cfg.journal); j.state == Trial && (Begins(ev) ==> j.attempt + 1 <= Limit(cfg))
    ensures Held(was, e.files, cfg, paths)
    ensures ReadJournal(e.files, cfg.journal)
            == Journal(ReadJournal(d.files, cfg.journal).attempt + if Begins(ev) then 1 else 0, Trial, paths)
  {
    hide Held, BootStep, Repaired, ReadJournal, RolledBack, Quiet, NoRollback;
    HeldPaths(was, d.files, cfg, paths);
    TrialJournal(d.files, cfg);
    match ev {
      case Boot(k, talk) => BootCounts(was, d.Reboot(k), e, cfg, paths, talk);
      case Requesting(k) =>
        if cfg.flag.Some? { OwnFileHolds(was, d.Reboot(k), e, cfg, paths, cfg.flag.value); }
        SameJournal(d.files, e.files, cfg);
      case Confirming(k) => assert e == d.Reboot(k);
      case Recovering(k) =>
        HeldNeedsNoRepair(was, d.Reboot(k), cfg, paths);
        if cfg.flag.Some? { OwnFileHolds(was, d.Reboot(k), e, cfg, paths, cfg.flag.value); }
        SameJournal(d.files, e.files, cfg);
      case Polling(k) =>
        OwnFileHolds(was, d.Reboot(k), e, cfg, paths, cfg.mark);
        SameJournal(d.files, e.files, cfg);
      case Asking =>
    }
  }

  /** Over any neutral run the journal counts exactly the powered boots, and up to the
      limit the candidate stays in place with its old generation retained. */
  lemma {:induction false} TrialRunCounts(was: Files, cfg: Config, paths: seq<Path>, events: seq<Event>, ds: seq<Disk>)
    requires Run(cfg, events, ds) && Held(was, ds[0].files, cfg, paths) && Setup(cfg, Targets(paths)) && AllNeutral(events)
    requires var j := ReadJournal(ds[0].files, cfg.journal); j.state == Trial && j.attempt + Counted(events) <= Limit(cfg)
    ensures Held(was, ds[|events|].files, cfg, paths)
    ensures ReadJournal(ds[|events|].files, cfg.journal)
            == Journal(ReadJournal(ds[0].files, cfg.journal).attempt + Counted(events), Trial, paths)
    decreases |events|
  {
    hide Held, Step, ReadJournal, Neutral, Begins;
    if events == [] {
      HeldPaths(was, ds[0].files, cfg, paths);
      TrialJournal(ds[0].files, cfg);
    } else {
      assert events[0] in events;
      NeutralCounts(events);
      StepCounts(was, ds[0], ds[1], cfg, paths, events[0]);
      TrialRunCounts(was, cfg, paths, events[1..], ds[1..]);
    }
  }

  lemma NeutralCounts(events: seq<Event>)
    requires events != [] && Neutral(events[0])
    ensures Counted(events) == (if Begins(events[0]) then 1 else 0) + Counted(events[1..])
  {}

  /* ---- after the journal has gone ---- */

  lemma {:induction false} NoneListened(d: Disk, cfg: Config, windowMs: int, rounds: seq<Round>)
    requires cfg.journal !in d.files && cfg.flag != Some(cfg.journal)
    ensures cfg.journal !in Listened(d, cfg, windowMs, rounds).0.files
    decreases |rounds|
  {
    hide Obeyed;
    if rounds != [] {
      ObeyedLeaves(d, cfg, rounds[0].admission);
      NoneListened(Obeyed(d, cfg, rounds[0].admission).0, cfg, windowMs, rounds[1..]);
    }
  }

  lemma NoneBoots(cfg: Config, ts: set<Path>, d: Disk, e: Disk, talk: Talk)
    requires cfg.journal !in d.files && Setup(cfg, ts) && Quiet(talk.inputs) && BootStep(cfg, d, talk, e)
    ensures cfg.journal !in e.files && !Settled(d, cfg).1
  {
    hide Listened, Conducted, WindowOf, Quiet;
    var m := Marked(d, cfg);
    assert Settled(d, cfg) == (d, false) && cfg.journal !in m.files;
    if cfg.flag.Some? {
      if cfg.flag.value in m.files {
        var x, end :| SessionStep(cfg, m, talk, x, end, e);
        QuietSession(m, FRESH, cfg, talk.tools, talk.timeoutMs, talk.inputs, x, end);
        assert Same(m.files, x.files, cfg.journal);
      } else {
        NoneListened(m, cfg, WindowOf(d, cfg), talk.rounds);
      }
    }
  }

  /** Without a journal and without an update there is never a journal again, and no
      boot is reset by the trial. */
  lemma {:induction false} NoTrialWithoutJournal(cfg: Config, ts: set<Path>, events: seq<Event>, ds: seq<Disk>)
    requires Run(cfg, events, ds) && cfg.journal !in ds[0].files && Setup(cfg, ts) && forall ev | ev in events :: !Updates(ev)
    ensures cfg.journal !in ds[|events|].files
    ensures forall i | 0 <= i < |events| && events[i].Boot? :: !Settled(ds[i].Reboot(events[i].k), cfg).1
    decreases |events|
  {
    hide BootStep, Settled, Quiet;
    if events != [] {
      var n := |events| - 1;
      NoTrialWithoutJournal(cfg, ts, events[..n], ds[..n + 1]);
      assert events[n] in events;
      if events[n].Boot? { NoneBoots(cfg, ts, ds[n].Reboot(events[n].k), ds[n + 1], events[n].talk); }
      forall i | 0 <= i < |events| && events[i].Boot? ensures !Settled(ds[i].Reboot(events[i].k), cfg).1 {
        if i < n { assert events[..n][i] == events[i] && ds[..n + 1][i] == ds[i]; }
      }
    }
  }

  lemma BackWhole(was: Files, now: Files, cfg: Config, paths: seq<Path>)
    requires Recoverable(was, now, cfg, paths) && cfg.journal !in now
    ensures OldContent(was, now, Targets(paths)) && forall t | t in Targets(paths) :: Bck(t) !in now
  {
    HealedWithoutBackups(now, Targets(paths));
  }

  /* ---- the bounded trial ---- */

  lemma OverTheLimit(was: Files, d: Disk, cfg: Config, paths: seq<Path>)
    requires d.Sound() && Held(was, d.files, cfg, paths) && Apart(Targets(paths), cfg.journal)
    requires ReadJournal(d.files, cfg.journal) == Journal(Limit(cfg), Trial, paths)
    ensures var (s, rolledBack) := Settled(d, cfg);
            rolledBack && s.Sound() && Recoverable(was, s.files, cfg, paths) && (s.Alive() ==> cfg.journal !in s.files)
  {
    HeldNeedsNoRepair(was, d, cfg, paths);
    HeldRecoverable(was, d.files, cfg, paths);
    RestoreKeeps(was, d, cfg, paths);
  }

  /** A candidate that is never confirmed: once the powered boots of any neutral run have
      reached the limit, the next boot is taken back by the trial, whatever it receives.
      If its power lasts, the old generation is back whole, stays so over any later run
      without an update, and no boot of that run is reset by the trial. */
  lemma TrialIsBounded(was: Files, cfg: Config, paths: seq<Path>, events: seq<Event>, ds: seq<Disk>,
                       k: nat, talk: Talk, later: seq<Event>, es: seq<Disk>)
    requires Run(cfg, events, ds) && ds[0].Sound() && Held(was, ds[0].files, cfg, paths) && Setup(cfg, Targets(paths)) && AllNeutral(events)
    requires var j := ReadJournal(ds[0].files, cfg.journal); j.state == Trial && j.attempt + Counted(events) == Limit(cfg)
    requires Run(cfg, later, es) && BootStep(cfg, ds[|events|].Reboot(k), talk, es[0]) && forall ev | ev in later :: !Updates(ev)
    ensures Settled(ds[|events|].Reboot(k), cfg) == (es[0], true)
    ensures es[0].Alive() ==>
              var e := es[|later|].files;
              && cfg.journal !in e && OldContent(was, e, Targets(paths)) && (forall t | t in Targets(paths) :: Bck(t) !in e)
              && forall i | 0 <= i < |later| && later[i].Boot? :: !Settled(es[i].Reboot(later[i].k), cfg).1
  {
    hide Held, Step, Settled, Recoverable, Setup, OldContent, Neutral, ReadJournal;
    var d := ds[|events|].Reboot(k);
    SetupFlag(cfg, Targets(paths));
    TrialRunCounts(was, cfg, paths, events, ds);
    NeutralSound(was, cfg, paths, events, ds);
    OverTheLimit(was, d, cfg, paths);
    RolledBackBoot(cfg, d, es[0], talk);
    if es[0].Alive() {
      NoTrialWithoutJournal(cfg, Targets(paths), later, es);
      RunKeepsRecoverable(was, cfg, paths, later, es);
      BackWhole(was, es[|later|].files, cfg, paths);
    }
  }

  lemma NeutralSound(was: Files, cfg: Config, paths: seq<Path>, events: seq<Event>, ds: seq<Disk>)
    requires Run(cfg, events, ds) && ds[0].Sound() && Held(was, ds[0].files, cfg, paths) && Setup(cfg, Targets(paths)) && AllNeutral(events)
    ensures ds[|events|].Sound()
  {
    HeldRecoverable(was, ds[0].files, cfg, paths);
    RunKeepsRecoverable(was, cfg, paths, events, ds);
  }

  /* ---- who finishes an interrupted rollback ---- */

  /** Boots of the run that ran to the end of `trial`. */
  function Completed(cfg: Config, events: seq<Event>, ds: seq<Disk>): nat
    requires |ds| == |events| + 1
    decreases |events|
  {
    if events == [] then 0 else (if Completes(cfg, events[0], ds[0]) then 1 else 0) + Completed(cfg, events[1..], ds[1..])
  }

  predicate Completes(cfg: Config, ev: Event, d: Disk) { ev.Boot? && Settled(d.Reboot(ev.k), cfg).0.Alive() }

  lemma OneUncertainBoot(was: Files, d: Disk, cfg: Config, paths: seq<Path>)
    requires d.Sound() && Recoverable(was, d.files, cfg, paths) && Apart(Targets(paths), cfg.journal) && cfg.journal in d.files
    requires ReadJournal(d.files, cfg.journal).state == Trial
    ensures var s := Settled(d, cfg).0;
            && s.Sound() && Recoverable(was, s.files, cfg, paths)
            && (cfg.journal in s.files ==>
                  var j := ReadJournal(s.files, cfg.journal);
                  var a := ReadJournal(d.files, cfg.journal).attempt;
                  && j.state == Trial && a <= j.attempt <= a + 1 && (s.Alive() ==> j.attempt == a + 1 <= Limit(cfg)))
  {
    hide Recoverable, Repaired, RestoredAll, JournalText, IntText, ParseJournal;
    RepairKeeps(was, d, cfg, paths);
    var r := Repaired(d, cfg);
    TrialKeeps(was, r, cfg, paths);
    RestoreKeeps(was, r, cfg, paths);
    var j := ReadJournal(r.files, cfg.journal);
    if cfg.journal in r.files && j.state == Trial {
      TrialIsJournalled(was, r.files, cfg, paths);
      forall p | p in paths ensures OneLine(p) { assert p in Targets(paths); }
      JournalRoundTrip(Trial, j.attempt + 1, paths);
    }
  }

  /** The journal is as it was or gone. */
  predicate JournalOrNone(f: Files, g: Files, cfg: Config) { cfg.journal in g ==> Same(f, g, cfg.journal) }

  /** A window may finish the rollback; otherwise it leaves the journal alone. */
  lemma {:induction false} ListenedJournal(was: Files, d: Disk, cfg: Config, paths: seq<Path>, windowMs: int, rounds: seq<Round>)
    requires d.Sound() && Recoverable(was, d.files, cfg, paths) && Setup(cfg, Targets(paths))
    ensures JournalOrNone(d.files, Listened(d, cfg, windowMs, rounds).0.files, cfg)
    decreases |rounds|
  {
    hide Recoverable, RestoredAll, Obeyed, Setup;
    if rounds != [] {
      SetupFlag(cfg, Targets(paths));
      if cfg.flag.Some? { OwnFileKeeps(was, d, Flagged(d, cfg), cfg, paths, cfg.flag.value); }
      RestoreKeeps(was, d, cfg, paths);
      ObeyedLeaves(d, cfg, rounds[0].admission);
      ListenedJournal(was, Obeyed(d, cfg, rounds[0].admission).0, cfg, paths, windowMs, rounds[1..]);
    }
  }

  lemma AfterMarkJournal(was: Files, d: Disk, e: Disk, cfg: Config, paths: seq<Path>, talk: Talk)
    requires var (s, rolledBack) := Settled(d, cfg); !rolledBack && s.Sound() && Recoverable(was, s.files, cfg, paths)
    requires Setup(cfg, Targets(paths)) && BootStep(cfg, d, talk, e) && Quiet(talk.inputs)
    ensures JournalOrNone(Settled(d, cfg).0.files, e.files, cfg)
  {
    hide Recoverable, Settled, Listened, SweptFrom, SessionStep, WindowOf, Quiet, Spared;
    var s := Settled(d, cfg).0;
    var m := Marked(s, cfg);
    var ts := Targets(paths);
    OwnFileAlike(s, m, cfg, ts, cfg.mark);
    OwnFileKeeps(was, s, m, cfg, paths, cfg.mark);
    RecoverableCovered(was, m.files, cfg, paths);
    if cfg.flag.Some? {
      if cfg.flag.value in m.files {
        var x, end :| SessionStep(cfg, m, talk, x, end, e);
        SessionAlike(m, e, cfg, paths, talk, x, end);
      } else {
        ListenedJournal(was, m, cfg, paths, WindowOf(s, cfg), talk.rounds);
        ListenedKeeps(was, m, cfg, paths, WindowOf(s, cfg), talk.rounds);
        var (l, _, reset) := Listened(m, cfg, WindowOf(s, cfg), talk.rounds);
        if !reset {
          RecoverableCovered(was, l.files, cfg, paths);
          SweptAlike(l, e, cfg, paths);
        }
      }
    }
  }

  /** One event of a run that neither updates nor confirms: an unfinished rollback on
      trial is finished, or the boots are still counted. */
  lemma UncertainStep(was: Files, d: Disk, e: Disk, cfg: Config, paths: seq<Path>, ev: Event)
    requires d.Sound() && Recoverable(was, d.files, cfg, paths) && Setup(cfg, Targets(paths)) && cfg.journal in d.files
    requires ReadJournal(d.files, cfg.journal).state == Trial && Step(cfg, ev, d, e) && !Updates(ev) && !Confirms(ev)
    ensures cfg.journal in e.files ==>
              var j := ReadJournal(e.files, cfg.journal);
              var a := ReadJournal(d.files, cfg.journal).attempt;
              && j.state == Trial && a <= j.attempt && (Completes(cfg, ev, d) ==> j.attempt == a + 1 <= Limit(cfg))
  {
    hide Recoverable, Repaired, BootStep, RestoredAll, Settled, ReadJournal, Quiet, Setup;
    SetupFlag(cfg, Targets(paths));
    match ev {
      case Boot(k, talk) =>
        var c := d.Reboot(k);
        OneUncertainBoot(was, c, cfg, paths);
        if Settled(c, cfg).1 {
          RolledBackBoot(cfg, c, e, talk);
        } else {
          AfterMarkJournal(was, c, e, cfg, paths, talk);
          if cfg.journal in e.files { SameJournal(Settled(c, cfg).0.files, e.files, cfg); }
        }
      case Requesting(k) => SameJournal(d.files, e.files, cfg);
      case Confirming(k) => assert e.files == d.files;
      case RollingBack(k) =>
        RestoreKeeps(was, d.Reboot(k), cfg, paths);
        if cfg.journal in e.files { SameJournal(d.files, e.files, cfg); }
      case Recovering(k) =>
        RepairKeeps(was, d.Reboot(k), cfg, paths);
        if cfg.journal in e.files { SameJournal(Repaired(d.Reboot(k), cfg).files, e.files, cfg); }
      case Polling(k) =>
        SetupMark(cfg, Targets(paths));
        SameJournal(d.files, e.files, cfg);
      case Asking =>
    }
  }

  lemma SetupMark(cfg: Config, ts: set<Path>)
    requires Setup(cfg, ts)
    ensures cfg.mark != cfg.journal
  {}

  /** While the journal is on trial, boots alone finish an interrupted rollback: over any
      run without an update or a confirmation, however it is cut, once enough boots ran
      to the end of `trial` the old generation is back whole. */
  lemma {:induction false} TrialFinishesRollback(was: Files, cfg: Config, paths: seq<Path>, events: seq<Event>, ds: seq<Disk>)
    requires Run(cfg, events, ds) && ds[0].Sound() && Recoverable(was, ds[0].files, cfg, paths) && Setup(cfg, Targets(paths))
    requires forall ev | ev in events :: !Updates(ev) && !Confirms(ev)
    requires cfg.journal in ds[0].files ==>
               var j := ReadJournal(ds[0].files, cfg.journal);
               j.state == Trial && j.attempt + Completed(cfg, events, ds) > Limit(cfg) && Completed(cfg, events, ds) > 0
    ensures var e := ds[|events|].files;
            cfg.journal !in e && OldContent(was, e, Targets(paths)) && (forall t | t in Targets(paths) :: Bck(t) !in e)
    decreases |events|
  {
    hide Recoverable, Step, Setup, ReadJournal, Completes, Confirms, OldContent;
    if cfg.journal !in ds[0].files {
      NoTrialWithoutJournal(cfg, Targets(paths), events, ds);
      RunKeepsRecoverable(was, cfg, paths, events, ds);
      BackWhole(was, ds[|events|].files, cfg, paths);
    } else {
      assert events[0] in events;
      StepKeeps(was, ds[0], ds[1], cfg, paths, events[0]);
      UncertainStep(was, ds[0], ds[1], cfg, paths, events[0]);
      TrialFinishesRollback(was, cfg, paths, events[1..], ds[1..]);
    }
  }

  /* ---- who never does ---- */

  lemma FrozenBoot(d: Disk, e: Disk, cfg: Config, paths: seq<Path>, talk: Talk)
    requires ReadJournal(d.files, cfg.journal).state == Confirmed && Covered(d.files, cfg, paths) && Setup(cfg, Targets(paths))
    requires BootStep(cfg, d, talk, e) && Quiet(talk.inputs) && NoRollback(talk.rounds)
    ensures Alike(d.files, e.files, cfg, Targets(paths)) && !Settled(d, cfg).1
  {
    hide Covered, BootStep, Alike, Quiet, NoRollback, Setup;
    var m, ts := Marked(d, cfg), Targets(paths);
    assert Settled(d, cfg) == (d, false);
    SetupOwnMark(cfg, ts);
    OwnFileAlike(d, m, cfg, ts, cfg.mark);
    AlikeCovered(d.files, m.files, cfg, paths);
    AfterMarkAlike(d, e, cfg, paths, talk);
    AlikeThen(d.files, m.files, e.files, cfg, ts);
  }

  lemma SetupOwnMark(cfg: Config, ts: set<Path>)
    requires Setup(cfg, ts)
    ensures Own(cfg, ts, cfg.mark)
  {}

  lemma FrozenStep(d: Disk, e: Disk, cfg: Config, paths: seq<Path>, ev: Event)
    requires ReadJournal(d.files, cfg.journal).state == Confirmed && Covered(d.files, cfg, paths) && Setup(cfg, Targets(paths))
    requires Step(cfg, ev, d, e) && !Updates(ev) && !AsksBack(ev)
    ensures Alike(d.files, e.files, cfg, Targets(paths)) && (ev.Boot? ==> !Settled(d.Reboot(ev.k), cfg).1)
  {
    hide Covered, BootStep, Alike, Quiet, NoRollback, Setup, Settled;
    var ts := Targets(paths);
    SetupFlag(cfg, ts);
    SetupOwnMark(cfg, ts);
    AlikeSelf(d.files, cfg, ts);
    match ev {
      case Boot(k, talk) => FrozenBoot(d.Reboot(k), e, cfg, paths, talk);
      case Requesting(k) => if cfg.flag.Some? { OwnFileAlike(d.Reboot(k), e, cfg, ts, cfg.flag.value); }
      case Confirming(k) => assert e == d.Reboot(k);
      case Recovering(k) =>
        assert Repaired(d.Reboot(k), cfg) == d.Reboot(k);
        if cfg.flag.Some? { OwnFileAlike(d.Reboot(k), e, cfg, ts, cfg.flag.value); }
      case Polling(k) => OwnFileAlike(d.Reboot(k), e, cfg, ts, cfg.mark);
      case Asking =>
    }
  }

  /** On a confirmed journal no run without an update or a rollback, however long, changes
      the journal, a target or a retained copy, and no boot of it is reset by the trial:
      a rollback that was cut stays cut until it is asked for again. */
  lemma {:induction false} ConfirmedFreezes(cfg: Config, paths: seq<Path>, events: seq<Event>, ds: seq<Disk>)
    requires Run(cfg, events, ds) && ReadJournal(ds[0].files, cfg.journal).state == Confirmed
    requires Covered(ds[0].files, cfg, paths) && Setup(cfg, Targets(paths)) && forall ev | ev in events :: !Updates(ev) && !AsksBack(ev)
    ensures Alike(ds[0].files, ds[|events|].files, cfg, Targets(paths))
    ensures forall i | 0 <= i < |events| && events[i].Boot? :: !Settled(ds[i].Reboot(events[i].k), cfg).1
    decreases |events|
  {
    hide Covered, Step, Alike, AsksBack, Setup, Settled, ReadJournal;
    var ts := Targets(paths);
    if events == [] {
      AlikeSelf(ds[0].files, cfg, ts);
    } else {
      assert events[0] in events;
      FrozenStep(ds[0], ds[1], cfg, paths, events[0]);
      AlikeCovered(ds[0].files, ds[1].files, cfg, paths);
      AlikeJournal(ds[0].files, ds[1].files, cfg, ts);
      ConfirmedFreezes(cfg, paths, events[1..], ds[1..]);
      AlikeThen(ds[0].files, ds[1].files, ds[|events|].files, cfg, ts);
      forall i | 0 <= i < |events| && events[i].Boot? ensures !Settled(ds[i].Reboot(events[i].k), cfg).1 {
        if i > 0 { assert events[1..][i - 1] == events[i] && ds[1..][i - 1] == ds[i]; }
      }
    }
  }

  lemma AlikeJournal(f: Files, g: Files, cfg: Config, ts: set<Path>)
    requires Alike(f, g, cfg, ts)
    ensures ReadJournal(g, cfg.journal) == ReadJournal(f, cfg.journal)
  {}

  /** Asking again finishes it. */
  lemma RollbackAgainFinishes(was: Files, d: Disk, cfg: Config, paths: seq<Path>)
    requires d.Sound() && Recoverable(was, d.files, cfg, paths) && Apart(Targets(paths), cfg.journal)
    requires cfg.journal in d.files && ReadJournal(d.files, cfg.journal).state != Committing
    requires AnyBackup(d.files, paths) && RolledBack(d, cfg).0.Alive()
    ensures var e := RolledBack(d, cfg).0.files;
            cfg.journal !in e && OldContent(was, e, Targets(paths)) && (forall t | t in Targets(paths) :: Bck(t) !in e)
  {
    RestoreKeeps(was, d, cfg, paths);
    BackWhole(was, RolledBack(d, cfg).0.files, cfg, paths);
  }

  /* ---- over the link ---- */

  lemma StateReplied(d: Disk, cfg: Config)
    ensures Commands.Modelled("UPDATE_STATE")
    ensures var j, reply := ReadJournal(d.files, cfg.journal), Commands.Obeyed(d, cfg, "UPDATE_STATE").reply;
            && (j.state == Trial ==> reply == Some("STATE_OK:trial:" + IntText(j.attempt)))
            && (j.state == Confirmed ==> reply == Some("STATE_OK:stable:" + IntText(0)))
  {
    hide ReadJournal, IntText, Split;
    SplitWhole("UPDATE_STATE", ':');
  }

  /** Asked for its state after any neutral run of an update on trial, the device names the
      number of boots; once the candidate is confirmed it is stable, whatever follows short
      of an update or a rollback. */
  lemma StateIsHonest(was: Files, cfg: Config, paths: seq<Path>, events: seq<Event>, ds: seq<Disk>)
    requires Run(cfg, events, ds) && Held(was, ds[0].files, cfg, paths) && Setup(cfg, Targets(paths))
    ensures Commands.Modelled("UPDATE_STATE")
    ensures var j, e := ReadJournal(ds[0].files, cfg.journal), ds[|events|];
            && (j.state == Trial && AllNeutral(events) && j.attempt + Counted(events) <= Limit(cfg) ==>
                  Commands.Obeyed(e, cfg, "UPDATE_STATE").reply == Some("STATE_OK:trial:" + IntText(j.attempt + Counted(events))))
            && (j.state == Confirmed && (forall ev | ev in events :: !Updates(ev) && !AsksBack(ev)) ==>
                  Commands.Obeyed(e, cfg, "UPDATE_STATE").reply == Some("STATE_OK:stable:" + IntText(0)))
  {
    hide Commands.Obeyed, Step, Held, Setup, ReadJournal, IntText, AllNeutral, SameSet, Counted, Limit, Split, Commands.Modelled, Same;
    var j, e := ReadJournal(ds[0].files, cfg.journal), ds[|events|];
    StateReplied(e, cfg);
    HeldPaths(was, ds[0].files, cfg, paths);
    if j.state == Trial && AllNeutral(events) && j.attempt + Counted(events) <= Limit(cfg) {
      TrialRunCounts(was, cfg, paths, events, ds);
      HeldPaths(was, e.files, cfg, paths);
      StateReplied(e, cfg);
    }
    if j.state == Confirmed && forall ev | ev in events :: !Updates(ev) && !AsksBack(ev) {
      HeldCovered(was, ds[0].files, cfg, paths);
      ConfirmedFreezes(cfg, paths, events, ds);
      SameJournal(ds[0].files, e.files, cfg);
      StateReplied(e, cfg);
    }
  }

  lemma HeldCovered(was: Files, now: Files, cfg: Config, paths: seq<Path>)
    requires Held(was, now, cfg, paths)
    ensures Covered(now, cfg, paths)
  {}

  /** A ROLLBACK that the window hears in time, with a retained copy to restore and the
      power to do it, brings the old generation back, whatever comes before and after it. */
  lemma WindowRollsBack(was: Files, d: Disk, cfg: Config, paths: seq<Path>, windowMs: int, before: seq<Round>, r: Round, after: seq<Round>)
    requires d.Sound() && Recoverable(was, d.files, cfg, paths) && Setup(cfg, Targets(paths))
    requires InTime(windowMs, before + [r]) && r.admission == Admitted("ROLLBACK") && !Listened(d, cfg, windowMs, before).2
    requires var l := Listened(d, cfg, windowMs, before).0;
             && cfg.journal in l.files && ReadJournal(l.files, cfg.journal).state != Committing && AnyBackup(l.files, paths)
             && Listened(d, cfg, windowMs, before + [r]).0.Alive()
    ensures var e := Listened(d, cfg, windowMs, before + [r] + after).0.files;
            cfg.journal !in e && OldContent(was, e, Targets(paths)) && (forall t | t in Targets(paths) :: Bck(t) !in e)
  {
    hide Recoverable, Setup, RestoredAll, RolledBack, Listened, ReadJournal, AnyBackup;
    assert forall x | x in before :: x in before + [r];
    assert r in before + [r];
    var l := Listened(d, cfg, windowMs, before).0;
    SetupFlag(cfg, Targets(paths));
    ListenedKeeps(was, d, cfg, paths, windowMs, before);
    DeadlineIsAbsolute(d, cfg, windowMs, before, r, []);
    var m := Listened(d, cfg, windowMs, before + [r]).0;
    assert m == RolledBack(l, cfg).0;
    RollbackAgainFinishes(was, l, cfg, paths);
    ListenedSplit(d, cfg, windowMs, before + [r], after);
    ListenedKeeps(was, d, cfg, paths, windowMs, before + [r]);
    ListenedKeeps(was, m, cfg, paths, windowMs, after);
    ListenedJournal(was, m, cfg, paths, windowMs, after);
    BackWhole(was, Listened(d, cfg, windowMs, before + [r] + after).0.files, cfg, paths);
  }
}
