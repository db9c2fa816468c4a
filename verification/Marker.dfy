/** The boot marker as a history variable: it says whether the last boot that got
    past its trial ever reached the application. */
module Marker {
  import opened Text
  import opened Disks
  import opened Names
  import opened Journals
  import opened Restore
  import opened Healing
  import opened Atomicity
  import opened Sweep
  import opened Window
  import opened Session
  import opened Packets
  import opened Runs
  import opened Freshness
  import opened Room

  /* ---- no step of the protocol touches a file of its own ---- */

  /** Not named by the journal, directly or as a retained copy. */
  predicate Foreign(files: Files, cfg: Config, p: Path) {
    p != cfg.journal && !IsBck(p) && p !in ReadJournal(files, cfg.journal).paths
  }

  lemma RestoredAllSpares(d: Disk, cfg: Config, p: Path)
    requires Foreign(d.files, cfg, p)
    ensures Same(d.files, RestoredAll(d, cfg).files, p)
  {
    RestoreSpares(d, ReadJournal(d.files, cfg.journal).paths, p);
  }

  lemma RepairSpares(d: Disk, cfg: Config, p: Path)
    requires Foreign(d.files, cfg, p)
    ensures Same(d.files, Repaired(d, cfg).files, p)
  {
    RestoredAllSpares(d, cfg, p);
    MendSpares(d, ReadJournal(d.files, cfg.journal).paths, p);
  }

  lemma TrialSpares(d: Disk, cfg: Config, p: Path)
    requires Foreign(d.files, cfg, p)
    ensures Same(d.files, Tried(d, cfg).0.files, p)
  {
    RestoredAllSpares(d, cfg, p);
  }

  /** The marker or the flag. */
  predicate Private(cfg: Config, p: Path) { p == cfg.mark || cfg.flag == Some(p) }

  lemma ProperForeign(fs: Files, cfg: Config, p: Path)
    requires Proper(fs, cfg) && Private(cfg, p)
    ensures Foreign(fs, cfg, p) && !IsOta(p)
  {
    var paths := ReadJournal(fs, cfg.journal).paths;
    assert p in paths ==> p in Targets(paths);
  }

  lemma SettledSpares(d: Disk, cfg: Config, p: Path)
    requires d.Sound() && Proper(d.files, cfg) && Private(cfg, p)
    ensures Same(d.files, Settled(d, cfg).0.files, p)
  {
    hide Proper, Repaired, Tried, Keeps, Sane, Foreign;
    var r := Repaired(d, cfg);
    ProperForeign(d.files, cfg, p);
    ProperSane(d.files, cfg);
    RepairSpares(d, cfg, p);
    RepairKeepsJournalled(d, cfg);
    KeepsProper(d, r, cfg);
    ProperForeign(r.files, cfg, p);
    TrialSpares(r, cfg, p);
  }

  lemma ObeyedStaysProper(d: Disk, cfg: Config, admission: Admission)
    requires d.Sound() && Proper(d.files, cfg)
    ensures var e := Obeyed(d, cfg, admission).0; e.Sound() && Proper(e.files, cfg)
  {
    hide Proper, RestoredAll, Keeps, Sane, Obeyed;
    ProperForeign(d.files, cfg, cfg.mark);
    ProperSane(d.files, cfg);
    RestoreKeepsJournalled(d, cfg);
    KeepsNothing(d, cfg);
    if cfg.flag.Some? { OwnFileKeepsJournalled(d, Flagged(d, cfg), cfg, cfg.flag.value); }
    ObeyedLeaves(d, cfg, admission);
    KeepsProper(d, Obeyed(d, cfg, admission).0, cfg);
  }

  lemma {:induction false} ListenedSpares(d: Disk, cfg: Config, windowMs: int, rounds: seq<Round>)
    requires d.Sound() && Proper(d.files, cfg) && cfg.flag != Some(cfg.mark)
    ensures Same(d.files, Listened(d, cfg, windowMs, rounds).0.files, cfg.mark)
    decreases |rounds|
  {
    hide Proper, RestoredAll, Foreign, Obeyed;
    if rounds != [] {
      var e := Obeyed(d, cfg, rounds[0].admission).0;
      ProperForeign(d.files, cfg, cfg.mark);
      RestoredAllSpares(d, cfg, cfg.mark);
      ObeyedLeaves(d, cfg, rounds[0].admission);
      ObeyedStaysProper(d, cfg, rounds[0].admission);
      ListenedSpares(e, cfg, windowMs, rounds[1..]);
    }
  }

  /* ---- the history ---- */

  /** A boot that got past its trial with the power to mark itself. */
  predicate Passed(cfg: Config, d: Disk) { var (s, rolledBack) := Settled(d, cfg); !rolledBack && s.Alive() }

  /** Was the last boot that got past its trial left without a poll? */
  ghost function Stranded(cfg: Config, events: seq<Event>, ds: seq<Disk>, start: bool): bool
    requires |ds| == |events| + 1
    decreases |events|
  {
    if events == [] then start else
    var n := |events| - 1;
    var before := Stranded(cfg, events[..n], ds[..n + 1], start);
    match events[n]
    case Boot(k, _) => before || Passed(cfg, ds[n].Reboot(k))
    case Polling(k) => before && k == 0
    case _ => before
  }

  /** What a boot does after its marker leaves the marker alone. */
  lemma AfterMarkSpares(d: Disk, e: Disk, cfg: Config, talk: Talk)
    requires d.Sound() && Proper(d.files, cfg) && Usable(talk.inputs, cfg) && BootStep(cfg, d, talk, e) && cfg.flag != Some(cfg.mark)
    ensures var (s, rolledBack) := Settled(d, cfg); !rolledBack ==> Same(Marked(s, cfg).files, e.files, cfg.mark)
  {
    hide Proper, Settled, Marked, Listened, SessionStep, WindowOf, Usable, Keeps, KeptBackups;
    MarkedKeepsJournalled(d, cfg);
    var (s, rolledBack) := Settled(d, cfg);
    var m := Marked(s, cfg);
    KeepsProper(d, m, cfg);
    ProperForeign(m.files, cfg, cfg.mark);
    if !rolledBack && cfg.flag.Some? {
      if cfg.flag.value in m.files {
        var x, end :| SessionStep(cfg, m, talk, x, end, e);
        SessionSpares(m, e, cfg, talk, x, end);
      } else {
        ListenedSpares(m, cfg, WindowOf(s, cfg), talk.rounds);
        var (l, _, reset) := Listened(m, cfg, WindowOf(s, cfg), talk.rounds);
        assert !Orphan(cfg.mark, KeptBackups(l.files, cfg.journal));
        assert !reset ==> Same(l.files, e.files, cfg.mark);
      }
    }
  }

  lemma SessionSpares(m: Disk, e: Disk, cfg: Config, talk: Talk, x: Disk, end: End)
    requires m.Sound() && Usable(talk.inputs, cfg) && SessionStep(cfg, m, talk, x, end, e) && cfg.flag != Some(cfg.mark)
    ensures Same(m.files, e.files, cfg.mark)
  {
    hide Conducted, Usable, Targeted, Announced;
    SessionKeeps(m, cfg, talk.tools, talk.timeoutMs, talk.inputs, x, end);
  }

  lemma BootMarks(d: Disk, e: Disk, cfg: Config, talk: Talk)
    requires d.Sound() && Proper(d.files, cfg) && Usable(talk.inputs, cfg) && BootStep(cfg, d, talk, e)
    requires cfg.recoveryMs > 0 && cfg.flag != Some(cfg.mark)
    ensures cfg.mark in e.files <==> cfg.mark in d.files || Passed(cfg, d)
  {
    hide Proper, Settled, Usable, Listened, SweptFrom, SessionStep;
    SettledSpares(d, cfg, cfg.mark);
    AfterMarkSpares(d, e, cfg, talk);
  }

  lemma StepMarks(d: Disk, e: Disk, cfg: Config, ev: Event)
    requires d.Sound() && Proper(d.files, cfg) && Step(cfg, ev, d, e) && UsableEvent(ev, cfg)
    requires cfg.recoveryMs > 0 && cfg.flag != Some(cfg.mark)
    ensures cfg.mark in e.files <==>
              match ev
              case Boot(k, _) => cfg.mark in d.files || Passed(cfg, d.Reboot(k))
              case Polling(k) => cfg.mark in d.files && k == 0
              case _ => cfg.mark in d.files
  {
    hide BootStep, Passed, Usable;
    ProperForeign(d.files, cfg, cfg.mark);
    match ev
    case Boot(k, talk) => BootMarks(d.Reboot(k), e, cfg, talk);
    case RollingBack(k) => RestoredAllSpares(d.Reboot(k), cfg, cfg.mark);
    case Recovering(k) => RepairSpares(d.Reboot(k), cfg, cfg.mark);
    case Requesting(k) =>
    case Confirming(k) =>
    case Polling(k) =>
    case Asking =>
  }

  /** A run under usable names, on a device whose marker is enabled. */
  ghost predicate Watched(cfg: Config, events: seq<Event>, ds: seq<Disk>) {
    && Runs.Run(cfg, events, ds) && ds[0].Sound() && Proper(ds[0].files, cfg) && (forall ev | ev in events :: UsableEvent(ev, cfg))
    && cfg.recoveryMs > 0 && cfg.flag != Some(cfg.mark)
  }

  lemma WatchedBefore(cfg: Config, events: seq<Event>, ds: seq<Disk>)
    requires Watched(cfg, events, ds) && events != []
    ensures var n := |events| - 1;
            && Watched(cfg, events[..n], ds[..n + 1]) && ds[n].Sound() && Proper(ds[n].files, cfg)
            && Step(cfg, events[n], ds[n], ds[n + 1]) && UsableEvent(events[n], cfg)
  {
    hide Proper, UsableEvent;
    var n := |events| - 1;
    assert events[n] in events;
    RunStaysProper(cfg, events[..n], ds[..n + 1]);
  }

  /** Over any run, update sessions and requests included, cut anywhere, the marker is
      there exactly when the last boot that got past its trial was not followed by a
      poll. */
  lemma {:induction false} MarkIsHistory(cfg: Config, events: seq<Event>, ds: seq<Disk>)
    requires Watched(cfg, events, ds)
    ensures cfg.mark in ds[|events|].files <==> Stranded(cfg, events, ds, cfg.mark in ds[0].files)
    decreases |events|
  {
    hide Step, Proper, UsableEvent, Passed;
    if events != [] {
      var n := |events| - 1;
      WatchedBefore(cfg, events, ds);
      MarkIsHistory(cfg, events[..n], ds[..n + 1]);
      StepMarks(ds[n], ds[n + 1], cfg, events[n]);
    }
  }

  /** The boot after any such run opens the wide window exactly when the device was
      left stranded or an unconfirmed candidate is journalled. */
  lemma WideWhenAtRisk(cfg: Config, events: seq<Event>, ds: seq<Disk>, k: nat)
    requires Watched(cfg, events, ds)
    ensures var d := ds[|events|].Reboot(k);
            var s := Settled(d, cfg).0;
            WindowOf(s, cfg) == if Stranded(cfg, events, ds, cfg.mark in ds[0].files) || StateLabel(s.files, cfg.journal) != Stable
                                then cfg.recoveryMs else cfg.listenMs
  {
    assert |ds| == |events| + 1;
    hide Run, Proper, UsableEvent, Passed, Settled, Stranded, StateLabel;
    MarkIsHistory(cfg, events, ds);
    RunStaysProper(cfg, events, ds);
    var d := ds[|events|].Reboot(k);
    SettledSpares(d, cfg, cfg.mark);
    ProperForeign(d.files, cfg, cfg.mark);
  }

  /* ---- wear ---- */

  /** How many boots of the run write the marker. */
  ghost function Writes(cfg: Config, events: seq<Event>, ds: seq<Disk>): nat
    requires |ds| == |events| + 1
    decreases |events|
  {
    if events == [] then 0 else
    var n := |events| - 1;
    Writes(cfg, events[..n], ds[..n + 1])
    + match events[n]
      case Boot(k, _) => if Passed(cfg, ds[n].Reboot(k)) && cfg.mark !in Settled(ds[n].Reboot(k), cfg).0.files then 1 else 0
      case _ => 0
  }

  /** However many boots are stranded in a row, the marker is written once at most,
      and never while it is there. */
  lemma {:induction false} StrandedWritesOnce(cfg: Config, events: seq<Event>, ds: seq<Disk>)
    requires Watched(cfg, events, ds) && forall ev | ev in events :: !ev.Polling?
    ensures Writes(cfg, events, ds) == if cfg.mark in ds[|events|].files && cfg.mark !in ds[0].files then 1 else 0
    ensures cfg.mark in ds[0].files ==> cfg.mark in ds[|events|].files
    decreases |events|
  {
    hide Step, Proper, UsableEvent, Passed, Settled;
    if events != [] {
      var n := |events| - 1;
      WatchedBefore(cfg, events, ds);
      StrandedWritesOnce(cfg, events[..n], ds[..n + 1]);
      StepMarks(ds[n], ds[n + 1], cfg, events[n]);
      assert events[n] in events;
      if events[n].Boot? { SettledSpares(ds[n].Reboot(events[n].k), cfg, cfg.mark); }
    }
  }
}
