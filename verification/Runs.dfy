/** Runs of boots, confirmations, rollbacks and power cuts after an update. */
module Runs {
  import opened Disks
  import opened Names
  import opened Journals
  import opened Restore
  import opened Healing
  import opened Atomicity
  import opened CrashSafety
  import opened Paths
  import opened Sweep
  import opened Window
  import opened Session
  import opened Text

  /* ---- events ---- */

  /** What comes over the link during one boot, for the window and for a session. */
  datatype Talk = Talk(rounds: seq<Round>, tools: Tools, timeoutMs: int, inputs: seq<Input>)

  /** Everything a boot may leave, cut anywhere. It resets when the trial is over.
      Otherwise it marks the boot and looks for the update flag: with the flag it serves
      a session and removes the flag once that is over; without it opens the window,
      and sweeps the tree unless a command in the window reset the board. */
  ghost predicate BootStep(cfg: Config, d: Disk, talk: Talk, e: Disk) {
    var (s, rolledBack) := Settled(d, cfg);
    var m := Marked(s, cfg);
    if rolledBack then e == s
    else if cfg.flag.None? then e == m
    else if cfg.flag.value in m.files then exists x, end :: SessionStep(cfg, m, talk, x, end, e)
    else
      var (l, _, reset) := Listened(m, cfg, WindowOf(s, cfg), talk.rounds);
      if reset then e == l else SweptFrom(l, e, cfg.journal)
  }

  /** A session that leaves `x`; unless it still waits for a packet, the flag goes. */
  ghost predicate SessionStep(cfg: Config, m: Disk, talk: Talk, x: Disk, end: End, e: Disk) {
    && Conducted(m, FRESH, cfg, talk.tools, talk.timeoutMs, talk.inputs, x, end)
    && e == if end.Waiting? then x else WithoutFlag(x, cfg)
  }

  datatype Event =
    | Boot(k: nat, talk: Talk)
    | Requesting(k: nat)
    | Confirming(k: nat)
    | RollingBack(k: nat)
    | Recovering(k: nat)
    | Polling(k: nat)
    | Asking

  /** One event, with the power that it finds. */
  ghost predicate Step(cfg: Config, ev: Event, d: Disk, e: Disk) {
    match ev
    case Boot(k, talk) => BootStep(cfg, d.Reboot(k), talk, e)
    case Requesting(k) => e == Flagged(d.Reboot(k), cfg)
    case Confirming(k) => e == ConfirmedDisk(d.Reboot(k), cfg)
    case RollingBack(k) => e == RolledBack(d.Reboot(k), cfg).0
    case Recovering(k) => e == WithoutFlag(Repaired(d.Reboot(k), cfg), cfg)
    case Polling(k) => e == Unmarked(d.Reboot(k), cfg)
    case Asking => e == d
  }

  ghost predicate Run(cfg: Config, events: seq<Event>, ds: seq<Disk>) {
    && |ds| == |events| + 1
    && forall i | 0 <= i < |events| :: Step(cfg, events[i], ds[i], ds[i + 1])
  }

  /* ---- names ---- */

  /** The device's own files are none of the targets, and the sweep spells the
      retained copies as the journal does. */
  ghost predicate Setup(cfg: Config, ts: set<Path>) {
    OwnApart(cfg, ts) && forall t | t in ts :: Canonical(Bck(t)) == Bck(t)
  }

  /** Events that begin another update. */
  predicate Updates(ev: Event) { ev.Boot? && !Quiet(ev.talk.inputs) }

  /* ---- the invariant of every run ---- */

  /** The old generation can still be brought back: the journal names the
      targets and each old content is in the target or in its copy, or the old
      content is back already. */
  ghost predicate Recoverable(was: Files, now: Files, cfg: Config, paths: seq<Path>) {
    OldContent(was, Healed(now, Targets(paths)), Targets(paths)) && Covered(now, cfg, paths)
  }

  /** The journal names the paths; without it none of them has a copy. */
  ghost predicate Covered(now: Files, cfg: Config, paths: seq<Path>) {
    && (cfg.journal in now ==> ReadJournal(now, cfg.journal).paths == paths)
    && (cfg.journal !in now ==> forall t | t in Targets(paths) :: Bck(t) !in now)
  }

  /** Two disks that agree on the targets and their copies. */
  ghost predicate SameSet(f: Files, g: Files, ts: set<Path>) { forall t | t in ts :: Same(f, g, t) && Same(f, g, Bck(t)) }

  /** And on the journal. */
  ghost predicate Alike(f: Files, g: Files, cfg: Config, ts: set<Path>) { SameSet(f, g, ts) && Same(f, g, cfg.journal) }

  lemma AlikeThen(f: Files, g: Files, h: Files, cfg: Config, ts: set<Path>)
    requires Alike(f, g, cfg, ts) && Alike(g, h, cfg, ts)
    ensures Alike(f, h, cfg, ts)
  {
    forall t | t in ts ensures Same(f, h, t) && Same(f, h, Bck(t)) {
      assert Same(f, g, t) && Same(g, h, t) && Same(f, g, Bck(t)) && Same(g, h, Bck(t));
    }
  }

  lemma AlikeCovered(f: Files, g: Files, cfg: Config, paths: seq<Path>)
    requires Covered(f, cfg, paths) && Alike(f, g, cfg, Targets(paths))
    ensures Covered(g, cfg, paths)
  {
    forall t | t in Targets(paths) && cfg.journal !in g ensures Bck(t) !in g { assert Same(f, g, Bck(t)); }
  }

  lemma SameSetRecoverable(was: Files, f: Files, g: Files, cfg: Config, paths: seq<Path>)
    requires Recoverable(was, f, cfg, paths) && SameSet(f, g, Targets(paths)) && Apart(Targets(paths), cfg.journal)
    requires cfg.journal in f <==> cfg.journal in g
    requires cfg.journal in g ==> ReadJournal(g, cfg.journal).paths == paths
    ensures Recoverable(was, g, cfg, paths)
  {
    var ts := Targets(paths);
    forall t | t in ts && t in was ensures t in Healed(g, ts) && Healed(g, ts)[t] == was[t] {
      assert t in Healed(f, ts) && Same(f, g, t) && Same(f, g, Bck(t)) && !BackupOf(t, ts);
    }
    forall t | t in ts && cfg.journal !in g ensures Bck(t) !in g { assert Same(f, g, Bck(t)); }
  }

  lemma Rewritten(was: Files, d: Disk, cfg: Config, paths: seq<Path>, state: State, attempt: int)
    requires Recoverable(was, d.files, cfg, paths) && Apart(Targets(paths), cfg.journal) && cfg.journal in d.files
    ensures Recoverable(was, WroteJournal(d, cfg, StateLine(state, attempt), paths).files, cfg, paths)
  {
    forall p | p in paths ensures OneLine(p) { assert p in Targets(paths); }
    JournalRoundTrip(state, attempt, paths);
    SameSetRecoverable(was, d.files, WroteJournal(d, cfg, StateLine(state, attempt), paths).files, cfg, paths);
  }

  lemma RestoreKeeps(was: Files, d: Disk, cfg: Config, paths: seq<Path>)
    requires d.Sound() && Recoverable(was, d.files, cfg, paths) && Apart(Targets(paths), cfg.journal)
    ensures var e := RestoredAll(d, cfg);
            && e.Sound() && e.clashes == d.clashes && Recoverable(was, e.files, cfg, paths)
            && (e.Alive() ==> cfg.journal !in e.files)
            && (cfg.journal in e.files ==> cfg.journal in d.files && e.files[cfg.journal] == d.files[cfg.journal])
  {
    var ts := Targets(paths);
    if cfg.journal !in d.files {
      assert RestoredEach(d, []) == d;
    } else {
      RestoreOutcome(d, cfg);
      var e := RestoredAll(d, cfg);
      if cfg.journal !in e.files { HealedWithoutBackups(e.files, ts); }
    }
  }

  lemma {:induction false} MendKeeps(d: Disk, ts: set<Path>, paths: seq<Path>, journal: Path)
    requires d.Sound() && Apart(ts, journal) && forall p | p in paths :: p in ts
    ensures var e := MendedEach(d, paths);
            && Healed(e.files, ts) == Healed(d.files, ts) && e.Sound() && e.clashes == d.clashes && e.power <= d.power
            && Same(d.files, e.files, journal)
    decreases |paths|
  {
    if paths != [] {
      var t := paths[0];
      assert t in paths;
      var fixing := Bck(t) in d.files && t !in d.files;
      if fixing && d.Alive() { HealedRename(d.files, ts, t); }
      MendKeeps(if fixing then Renamed(d, Bck(t), t) else d, ts, paths[1..], journal);
    }
  }

  /** Mending takes no target away and makes no copy. */
  lemma {:induction false} MendedAdds(d: Disk, paths: seq<Path>)
    requires forall p | p in paths :: !IsBck(p)
    ensures var e := MendedEach(d, paths);
            && e.power <= d.power && (forall p | p in d.files && !IsBck(p) :: p in e.files && e.files[p] == d.files[p])
            && (forall p | p in e.files && IsBck(p) :: p in d.files && e.files[p] == d.files[p])
    decreases |paths|
  {
    if paths != [] {
      var t := paths[0];
      assert t in paths;
      MendedAdds(if Bck(t) in d.files && t !in d.files then Renamed(d, Bck(t), t) else d, paths[1..]);
    }
  }

  /** What the trial branch of `repair` is for: with the power to finish, every journalled
      target with a copy is there again, with the copy's content if it was missing; and the
      journal is rewritten exactly if that changed something. */
  lemma {:induction false} MendingHeals(d: Disk, paths: seq<Path>)
    requires d.Sound() && forall p | p in paths :: !IsBck(p)
    ensures var e := MendedEach(d, paths);
            && (e.Alive() ==>
                  forall t | t in paths && Bck(t) in d.files ::
                    t in e.files && e.files[t] == if t in d.files then d.files[t] else d.files[Bck(t)])
            && (Mends(d, paths) <==> e.files != d.files)
    decreases |paths|
  {
    if paths != [] {
      var t, rest := paths[0], paths[1..];
      assert t in paths && forall p | p in rest :: p in paths;
      var m := if Bck(t) in d.files && t !in d.files then Renamed(d, Bck(t), t) else d;
      MendingHeals(m, rest);
      MendedAdds(m, rest);
      var e := MendedEach(d, paths);
      if m.files != d.files {
        assert Bck(t) !in m.files && Bck(t) !in e.files;
      } else {
        assert Mends(d, paths) <==> Mends(m, rest);
      }
      forall u | u in paths && Bck(u) in d.files && e.Alive()
        ensures u in e.files && e.files[u] == if u in d.files then d.files[u] else d.files[Bck(u)]
      {
        if u == t {
          assert t in m.files;
        } else {
          OtherNames(t, u);
          assert u in rest && Same(d.files, m.files, u) && Same(d.files, m.files, Bck(u));
        }
      }
    }
  }

  lemma RepairKeeps(was: Files, d: Disk, cfg: Config, paths: seq<Path>)
    requires d.Sound() && Recoverable(was, d.files, cfg, paths) && Apart(Targets(paths), cfg.journal)
    ensures var e := Repaired(d, cfg);
            && e.Sound() && e.clashes == d.clashes && Recoverable(was, e.files, cfg, paths)
            && (cfg.journal in e.files ==> cfg.journal in d.files && ReadJournal(e.files, cfg.journal) == ReadJournal(d.files, cfg.journal))
  {
    var j := ReadJournal(d.files, cfg.journal);
    if j.paths == [] || j.state == Confirmed {
    } else if j.state == Committing {
      RestoreKeeps(was, d, cfg, paths);
    } else {
      MendKeeps(d, Targets(paths), paths, cfg.journal);
      Rewritten(was, MendedEach(d, paths), cfg, paths, Trial, j.attempt);
      JournalAgain(d.files, cfg.journal);
    }
  }

  lemma TrialKeeps(was: Files, d: Disk, cfg: Config, paths: seq<Path>)
    requires d.Sound() && Recoverable(was, d.files, cfg, paths) && Apart(Targets(paths), cfg.journal)
    ensures var e := Tried(d, cfg).0;
            e.Sound() && e.clashes == d.clashes && Recoverable(was, e.files, cfg, paths)
  {
    hide RestoredAll, Recoverable, JournalText, IntText;
    var j := ReadJournal(d.files, cfg.journal);
    if j.state == Trial {
      TrialIsJournalled(was, d.files, cfg, paths);
      RestoreKeeps(was, d, cfg, paths);
      Rewritten(was, d, cfg, paths, Trial, j.attempt + 1);
    }
  }

  lemma TrialIsJournalled(was: Files, now: Files, cfg: Config, paths: seq<Path>)
    requires Recoverable(was, now, cfg, paths) && ReadJournal(now, cfg.journal).state == Trial
    ensures cfg.journal in now && ReadJournal(now, cfg.journal).paths == paths
  {}

  /* ---- steps that leave the journal, the targets and the copies alone ---- */

  lemma SweptAlike(d: Disk, e: Disk, cfg: Config, paths: seq<Path>)
    requires Covered(d.files, cfg, paths) && Setup(cfg, Targets(paths)) && SweptFrom(d, e, cfg.journal)
    ensures Alike(d.files, e.files, cfg, Targets(paths))
  {
    var kept := KeptBackups(d.files, cfg.journal);
    assert !Orphan(cfg.journal, kept);
    forall t | t in Targets(paths) ensures Same(d.files, e.files, t) && Same(d.files, e.files, Bck(t)) {
      assert !Orphan(t, kept);
      if cfg.journal in d.files {
        assert Canonical(Bck(t)) in kept;
        assert !Orphan(Bck(t), kept);
      }
    }
  }

  /** Writing or removing a file of the device's own. */
  lemma OwnFileAlike(d: Disk, e: Disk, cfg: Config, ts: set<Path>, p: Path)
    requires Setup(cfg, ts) && Own(cfg, ts, p)
    requires e == d || e == Written(d, p, "1") || e == Removed(d, p)
    ensures Alike(d.files, e.files, cfg, ts)
  {}

  /** A session without an update. */
  lemma SparedAlike(d: Disk, e: Disk, cfg: Config, paths: seq<Path>)
    requires Covered(d.files, cfg, paths) && Setup(cfg, Targets(paths)) && Spared(d, e, cfg)
    ensures Alike(d.files, e.files, cfg, Targets(paths))
  {
    var kept := KeptBackups(d.files, cfg.journal);
    assert Same(d.files, e.files, cfg.journal);
    forall t | t in Targets(paths) ensures Same(d.files, e.files, t) && Same(d.files, e.files, Bck(t)) {
      assert !IsOta(t) && !IsBck(t);
      if cfg.journal in d.files { assert Canonical(Bck(t)) in kept; }
    }
  }

  lemma AlikeKeeps(was: Files, f: Files, g: Files, cfg: Config, paths: seq<Path>)
    requires Recoverable(was, f, cfg, paths) && Alike(f, g, cfg, Targets(paths)) && Apart(Targets(paths), cfg.journal)
    ensures Recoverable(was, g, cfg, paths)
  {
    AlikeCovered(f, g, cfg, paths);
    SameSetRecoverable(was, f, g, cfg, paths);
  }

  lemma OwnFileKeeps(was: Files, d: Disk, e: Disk, cfg: Config, paths: seq<Path>, p: Path)
    requires Recoverable(was, d.files, cfg, paths) && Setup(cfg, Targets(paths)) && Own(cfg, Targets(paths), p)
    requires e == d || e == Written(d, p, "1") || e == Removed(d, p)
    ensures Recoverable(was, e.files, cfg, paths)
  {
    OwnFileAlike(d, e, cfg, Targets(paths), p);
    AlikeKeeps(was, d.files, e.files, cfg, paths);
  }

  /* ---- each step ---- */

  lemma SessionRecoverable(was: Files, m: Disk, e: Disk, cfg: Config, paths: seq<Path>, talk: Talk, x: Disk, end: End)
    requires m.Sound() && Recoverable(was, m.files, cfg, paths) && Setup(cfg, Targets(paths)) && Quiet(talk.inputs)
    requires SessionStep(cfg, m, talk, x, end, e)
    ensures e.Sound() && e.clashes == m.clashes && Recoverable(was, e.files, cfg, paths)
  {
    hide OldContent, Covered, Conducted, Spared, Quiet;
    QuietSession(m, FRESH, cfg, talk.tools, talk.timeoutMs, talk.inputs, x, end);
    SparedAlike(m, x, cfg, paths);
    AlikeKeeps(was, m.files, x.files, cfg, paths);
    SparedAttempts(m, x, cfg);
    if cfg.flag.Some? { OwnFileKeeps(was, x, WithoutFlag(x, cfg), cfg, paths, cfg.flag.value); }
  }

  lemma SparedAttempts(d: Disk, e: Disk, cfg: Config)
    requires Spared(d, e, cfg)
    ensures SameAttempts(d, e)
  {}

  lemma SetupFlag(cfg: Config, ts: set<Path>)
    requires Setup(cfg, ts)
    ensures Apart(ts, cfg.journal) && (cfg.flag.Some? ==> Own(cfg, ts, cfg.flag.value))
  {}

  /** Whatever the window serves, the old generation stays recoverable. */
  lemma {:induction false} ListenedKeeps(was: Files, d: Disk, cfg: Config, paths: seq<Path>, windowMs: int, rounds: seq<Round>)
    requires d.Sound() && Recoverable(was, d.files, cfg, paths) && Setup(cfg, Targets(paths))
    ensures var e := Listened(d, cfg, windowMs, rounds).0;
            e.Sound() && e.clashes == d.clashes && Recoverable(was, e.files, cfg, paths)
    decreases |rounds|
  {
    hide Recoverable, RestoredAll, Obeyed, Setup;
    if rounds != [] {
      SetupFlag(cfg, Targets(paths));
      if cfg.flag.Some? { OwnFileKeeps(was, d, Flagged(d, cfg), cfg, paths, cfg.flag.value); }
      RestoreKeeps(was, d, cfg, paths);
      ObeyedLeaves(d, cfg, rounds[0].admission);
      ListenedKeeps(was, Obeyed(d, cfg, rounds[0].admission).0, cfg, paths, windowMs, rounds[1..]);
    }
  }

  lemma BootKeeps(was: Files, d: Disk, e: Disk, cfg: Config, paths: seq<Path>, talk: Talk)
    requires d.Sound() && Recoverable(was, d.files, cfg, paths) && Setup(cfg, Targets(paths))
    requires BootStep(cfg, d, talk, e) && Quiet(talk.inputs)
    ensures e.Sound() && e.clashes == d.clashes && Recoverable(was, e.files, cfg, paths)
  {
    hide Recoverable, Repaired, Tried, Listened, SweptFrom, SessionStep, WindowOf;
    RepairKeeps(was, d, cfg, paths);
    TrialKeeps(was, Repaired(d, cfg), cfg, paths);
    var (s, rolledBack) := Settled(d, cfg);
    var m := Marked(s, cfg);
    OwnFileKeeps(was, s, m, cfg, paths, cfg.mark);
    if !rolledBack && cfg.flag.Some? {
      if cfg.flag.value in m.files {
        var x, end :| SessionStep(cfg, m, talk, x, end, e);
        SessionRecoverable(was, m, e, cfg, paths, talk, x, end);
      } else {
        ListenedKeeps(was, m, cfg, paths, WindowOf(s, cfg), talk.rounds);
        var (l, _, reset) := Listened(m, cfg, WindowOf(s, cfg), talk.rounds);
        if !reset {
          RecoverableCovered(was, l.files, cfg, paths);
          SweptAlike(l, e, cfg, paths);
          AlikeKeeps(was, l.files, e.files, cfg, paths);
          SweptAttempts(l, e, cfg);
        }
      }
    }
  }

  lemma RecoverableCovered(was: Files, now: Files, cfg: Config, paths: seq<Path>)
    requires Recoverable(was, now, cfg, paths)
    ensures Covered(now, cfg, paths)
  {}

  lemma SweptAttempts(d: Disk, e: Disk, cfg: Config)
    requires SweptFrom(d, e, cfg.journal)
    ensures SameAttempts(d, e)
  {}

  lemma ConfirmKeeps(was: Files, d: Disk, cfg: Config, paths: seq<Path>)
    requires d.Sound() && Recoverable(was, d.files, cfg, paths) && Setup(cfg, Targets(paths))
    ensures var e := ConfirmedDisk(d, cfg); e.Sound() && e.clashes == d.clashes && Recoverable(was, e.files, cfg, paths)
  {
    if ReadJournal(d.files, cfg.journal).state == Trial { Rewritten(was, d, cfg, paths, Confirmed, 0); }
  }

  lemma StepKeeps(was: Files, d: Disk, e: Disk, cfg: Config, paths: seq<Path>, ev: Event)
    requires d.Sound() && Recoverable(was, d.files, cfg, paths) && Setup(cfg, Targets(paths)) && Step(cfg, ev, d, e) && !Updates(ev)
    ensures e.Sound() && e.clashes == d.clashes && Recoverable(was, e.files, cfg, paths)
  {
    hide Repaired, BootStep, RestoredAll, ConfirmedDisk, Quiet;
    match ev
    case Boot(k, talk) => BootKeeps(was, d.Reboot(k), e, cfg, paths, talk);
    case Requesting(k) =>
      if cfg.flag.Some? { OwnFileKeeps(was, d.Reboot(k), e, cfg, paths, cfg.flag.value); }
    case Confirming(k) =>
      ConfirmKeeps(was, d.Reboot(k), cfg, paths);
    case RollingBack(k) => RestoreKeeps(was, d.Reboot(k), cfg, paths);
    case Recovering(k) =>
      RepairKeeps(was, d.Reboot(k), cfg, paths);
      if cfg.flag.Some? { OwnFileKeeps(was, Repaired(d.Reboot(k), cfg), e, cfg, paths, cfg.flag.value); }
    case Polling(k) => OwnFileKeeps(was, d.Reboot(k), e, cfg, paths, cfg.mark);
    case Asking =>
  }

  /** Over any run of boots, with or without the flag, whatever their windows and
      sessions receive short of another update, of update requests, confirmations,
      rollbacks, recoveries, polls and queries, each cut anywhere, the old generation
      stays recoverable, and no rename meets an existing file. */
  lemma {:induction false} RunKeepsRecoverable(was: Files, cfg: Config, paths: seq<Path>, events: seq<Event>, ds: seq<Disk>)
    requires Run(cfg, events, ds) && ds[0].Sound() && Recoverable(was, ds[0].files, cfg, paths) && Setup(cfg, Targets(paths))
    requires forall ev | ev in events :: !Updates(ev)
    ensures var e := ds[|events|]; e.Sound() && e.clashes == ds[0].clashes && Recoverable(was, e.files, cfg, paths)
    decreases |events|
  {
    if events != [] {
      var n := |events| - 1;
      RunKeepsRecoverable(was, cfg, paths, events[..n], ds[..n + 1]);
      assert events[n] in events;
      StepKeeps(was, ds[n], ds[n + 1], cfg, paths, events[n]);
    }
  }

  /* ---- runs that begin with a cut commit ---- */

  /** Wherever the power failed inside a commit without leftover copies, the old
      generation is recoverable. */
  lemma CutCommitIsRecoverable(d: Disk, cfg: Config, staged: seq<Staged>, deletes: seq<Path>, first: nat)
    requires d.Sound() && Ready(d.files, cfg, staged, deletes) && cfg.journal !in d.files
    requires Fresh(d.files, Targets(StagedTargets(d.files, staged)))
    ensures var c := Committed(d.Reboot(first), cfg, staged, deletes).0;
            c.Sound() && c.clashes == d.clashes && Recoverable(d.files, c.files, cfg, StagedTargets(d.files, staged))
  {
    var paths := StagedTargets(d.files, staged);
    var ts := Targets(paths);
    var c := Committed(d.Reboot(first), cfg, staged, deletes).0;
    CommitCut(d.Reboot(first), cfg, staged, deletes);
    if c == d.Reboot(first) {
      HealedWithoutBackups(d.files, ts);
    } else if Midway(d.files, c.files, cfg, paths, deletes) {
      HalfHeals(d.files, c.files, cfg, paths, deletes);
    } else {
      forall t | t in ts && t in d.files ensures t in Healed(c.files, ts) && Healed(c.files, ts)[t] == d.files[t] {
        assert New(d.files, c.files, t) && !BackupOf(t, ts);
      }
    }
  }

  /** From a commit cut anywhere, through any such run of whole boots and commands, the
      old generation stays recoverable. */
  lemma RunAfterCutCommit(d: Disk, cfg: Config, staged: seq<Staged>, deletes: seq<Path>, first: nat, events: seq<Event>, ds: seq<Disk>)
    requires d.Sound() && Ready(d.files, cfg, staged, deletes) && cfg.journal !in d.files
    requires var ts := Targets(StagedTargets(d.files, staged)); Fresh(d.files, ts) && Setup(cfg, ts)
    requires Run(cfg, events, ds) && ds[0] == Committed(d.Reboot(first), cfg, staged, deletes).0
    requires forall ev | ev in events :: !Updates(ev)
    ensures var e := ds[|events|];
            e.Sound() && e.clashes == d.clashes && Recoverable(d.files, e.files, cfg, StagedTargets(d.files, staged))
  {
    CutCommitIsRecoverable(d, cfg, staged, deletes, first);
    RunKeepsRecoverable(d.files, cfg, StagedTargets(d.files, staged), events, ds);
  }
}
