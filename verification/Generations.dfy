/** The retained generation: how long it is whole, how it comes back, and when
    boots alone bring it back. */
module Generations {
  import opened Disks
  import opened Names
  import opened Journals
  import opened Restore
  import opened Healing
  import opened Atomicity
  import opened CrashSafety
  import opened Paths
  import opened Sweep
  import opened Window
  import opened Session
  import opened Runs
  import opened Text

  /* ---- the whole generation, before any rollback ---- */

  /** The new content in place and the old one retained; a later session may have
      staged something again. */
  ghost predicate Renewed(was: Files, now: Files, t: Path) {
    && Ota(t) in was && t in now && now[t] == was[Ota(t)]
    && (if t in was then Bck(t) in now && now[Bck(t)] == was[t] else Bck(t) !in now)
  }

  /** The candidate runs and every old content sits in its retained copy. */
  ghost predicate Held(was: Files, now: Files, cfg: Config, paths: seq<Path>) {
    && cfg.journal in now && ReadJournal(now, cfg.journal).paths == paths
    && ReadJournal(now, cfg.journal).state != Committing
    && forall t | t in Targets(paths) :: Renewed(was, now, t)
  }

  lemma HeldRecoverable(was: Files, now: Files, cfg: Config, paths: seq<Path>)
    requires Held(was, now, cfg, paths) && Apart(Targets(paths), cfg.journal)
    ensures Recoverable(was, now, cfg, paths)
  {
    var ts := Targets(paths);
    forall t | t in ts && t in was ensures t in Healed(now, ts) && Healed(now, ts)[t] == was[t] {
      assert Renewed(was, now, t) && !BackupOf(t, ts);
    }
  }

  lemma SameSetHeld(was: Files, f: Files, g: Files, cfg: Config, paths: seq<Path>)
    requires Held(was, f, cfg, paths) && SameSet(f, g, Targets(paths))
    requires cfg.journal in g && ReadJournal(g, cfg.journal).paths == paths && ReadJournal(g, cfg.journal).state != Committing
    ensures Held(was, g, cfg, paths)
  {
    forall t | t in Targets(paths) ensures Renewed(was, g, t) { assert Renewed(was, f, t) && Same(f, g, t) && Same(f, g, Bck(t)); }
  }

  lemma HeldNeedsNoRepair(was: Files, d: Disk, cfg: Config, paths: seq<Path>)
    requires Held(was, d.files, cfg, paths)
    ensures Repaired(d, cfg) == d
  {
    forall p | p in paths ensures p in d.files { assert p in Targets(paths) && Renewed(was, d.files, p); }
    NothingToMend(d, paths);
  }

  lemma HeldRewritten(was: Files, d: Disk, cfg: Config, paths: seq<Path>, state: State, attempt: int)
    requires Held(was, d.files, cfg, paths) && Apart(Targets(paths), cfg.journal) && state != Committing
    ensures var e := WroteJournal(d, cfg, StateLine(state, attempt), paths);
            && Held(was, e.files, cfg, paths)
            && (d.Alive() ==> ReadJournal(e.files, cfg.journal) == Journal(if state == Trial then attempt else 0, state, paths))
  {
    forall p | p in paths ensures OneLine(p) { assert p in Targets(paths); }
    JournalRoundTrip(state, attempt, paths);
    SameSetHeld(was, d.files, WroteJournal(d, cfg, StateLine(state, attempt), paths).files, cfg, paths);
  }

  /** Boots that the candidate may still take without being rolled back. */
  function Attempts(fs: Files, cfg: Config): int {
    var j := ReadJournal(fs, cfg.journal);
    if j.state == Trial then j.attempt else 0
  }

  ghost predicate Within(fs: Files, cfg: Config, boots: nat) {
    ReadJournal(fs, cfg.journal).state == Trial ==> Attempts(fs, cfg) + boots <= Limit(cfg)
  }

  lemma MarkHolds(was: Files, s: Disk, cfg: Config, paths: seq<Path>)
    requires Held(was, s.files, cfg, paths) && Setup(cfg, Targets(paths))
    ensures Held(was, Marked(s, cfg).files, cfg, paths) && Same(s.files, Marked(s, cfg).files, cfg.journal)
  {
    OwnFileHolds(was, s, Marked(s, cfg), cfg, paths, cfg.mark);
  }

  lemma TrialHolds(was: Files, d: Disk, cfg: Config, paths: seq<Path>, boots: nat)
    requires Held(was, d.files, cfg, paths) && Apart(Targets(paths), cfg.journal) && Within(d.files, cfg, boots + 1)
    ensures var (s, rolledBack) := Tried(d, cfg); !rolledBack && Held(was, s.files, cfg, paths) && Within(s.files, cfg, boots)
  {
    hide JournalText, RestoredAll, Renewed, Apart, IntText, ParseJournal;
    var j := ReadJournal(d.files, cfg.journal);
    if j.state == Trial { HeldRewritten(was, d, cfg, paths, Trial, j.attempt + 1); }
  }

  /** A boot without power counts nothing and restores nothing. */
  lemma DeadTried(d: Disk, cfg: Config)
    requires d.power == 0
    ensures Tried(d, cfg).0 == d
  {
    DeadRestored(d, ReadJournal(d.files, cfg.journal).paths);
  }

  lemma RolledBackBoot(cfg: Config, d: Disk, e: Disk, talk: Talk)
    requires BootStep(cfg, d, talk, e) && Settled(d, cfg).1
    ensures e == Settled(d, cfg).0
  {}

  lemma SameWithin(f: Files, g: Files, cfg: Config, boots: nat)
    requires Within(f, cfg, boots) && Same(f, g, cfg.journal)
    ensures Within(g, cfg, boots)
  {}

  lemma AlikeHolds(was: Files, f: Files, g: Files, cfg: Config, paths: seq<Path>)
    requires Held(was, f, cfg, paths) && Alike(f, g, cfg, Targets(paths))
    ensures Held(was, g, cfg, paths)
  {
    SameSetHeld(was, f, g, cfg, paths);
  }

  /** Writing or removing a file of the device's own. */
  lemma OwnFileHolds(was: Files, d: Disk, e: Disk, cfg: Config, paths: seq<Path>, p: Path)
    requires Held(was, d.files, cfg, paths) && Setup(cfg, Targets(paths)) && Own(cfg, Targets(paths), p)
    requires e == d || e == Written(d, p, "1") || e == Removed(d, p)
    ensures Held(was, e.files, cfg, paths) && Same(d.files, e.files, cfg.journal)
  {
    OwnFileAlike(d, e, cfg, Targets(paths), p);
    AlikeHolds(was, d.files, e.files, cfg, paths);
  }

  predicate NoRollback(rounds: seq<Round>) { forall r | r in rounds :: r.admission != Admitted("ROLLBACK") }

  /** A window without a rollback writes the flag or nothing. */
  lemma {:induction false} ListenedFlags(d: Disk, cfg: Config, windowMs: int, rounds: seq<Round>)
    requires NoRollback(rounds)
    ensures var e := Listened(d, cfg, windowMs, rounds).0; e == d || e == Flagged(d, cfg)
    decreases |rounds|
  {
    if rounds != [] {
      assert rounds[0] in rounds;
      ListenedFlags(d, cfg, windowMs, rounds[1..]);
    }
  }

  lemma ListenedAlike(d: Disk, cfg: Config, ts: set<Path>, windowMs: int, rounds: seq<Round>)
    requires Setup(cfg, ts) && NoRollback(rounds)
    ensures Alike(d.files, Listened(d, cfg, windowMs, rounds).0.files, cfg, ts)
  {
    hide Listened, NoRollback;
    ListenedFlags(d, cfg, windowMs, rounds);
    if cfg.flag.Some? { OwnFileAlike(d, Flagged(d, cfg), cfg, ts, cfg.flag.value); }
  }

  lemma SessionAlike(m: Disk, e: Disk, cfg: Config, paths: seq<Path>, talk: Talk, x: Disk, end: End)
    requires Covered(m.files, cfg, paths) && Setup(cfg, Targets(paths)) && Quiet(talk.inputs)
    requires SessionStep(cfg, m, talk, x, end, e)
    ensures Alike(m.files, e.files, cfg, Targets(paths))
  {
    hide Covered, Conducted, Spared, Quiet, Alike;
    QuietSession(m, FRESH, cfg, talk.tools, talk.timeoutMs, talk.inputs, x, end);
    SparedAlike(m, x, cfg, paths);
    if cfg.flag.Some? {
      OwnFileAlike(x, WithoutFlag(x, cfg), cfg, Targets(paths), cfg.flag.value);
      AlikeThen(m.files, x.files, WithoutFlag(x, cfg).files, cfg, Targets(paths));
    }
  }

  /** After its marker a boot that is not asked for a rollback or an update leaves the
      journal, the targets and their copies alone. */
  lemma AfterMarkAlike(d: Disk, e: Disk, cfg: Config, paths: seq<Path>, talk: Talk)
    requires var (s, rolledBack) := Settled(d, cfg); !rolledBack && Covered(Marked(s, cfg).files, cfg, paths)
    requires Setup(cfg, Targets(paths)) && BootStep(cfg, d, talk, e) && Quiet(talk.inputs) && NoRollback(talk.rounds)
    ensures Alike(Marked(Settled(d, cfg).0, cfg).files, e.files, cfg, Targets(paths))
  {
    hide Covered, Settled, Marked, Listened, SweptFrom, SessionStep, WindowOf, Quiet, NoRollback, Alike;
    var s := Settled(d, cfg).0;
    var m := Marked(s, cfg);
    var ts := Targets(paths);
    AlikeSelf(m.files, cfg, ts);
    if cfg.flag.Some? {
      if cfg.flag.value in m.files {
        var x, end :| SessionStep(cfg, m, talk, x, end, e);
        SessionAlike(m, e, cfg, paths, talk, x, end);
      } else {
        ListenedAlike(m, cfg, ts, WindowOf(s, cfg), talk.rounds);
        var (l, _, reset) := Listened(m, cfg, WindowOf(s, cfg), talk.rounds);
        if !reset {
          AlikeCovered(m.files, l.files, cfg, paths);
          SweptAlike(l, e, cfg, paths);
          AlikeThen(m.files, l.files, e.files, cfg, ts);
        }
      }
    }
  }

  lemma AlikeSelf(f: Files, cfg: Config, ts: set<Path>)
    ensures Alike(f, f, cfg, ts)
  {}

  lemma AfterMarkHolds(was: Files, d: Disk, e: Disk, cfg: Config, paths: seq<Path>, talk: Talk)
    requires var (s, rolledBack) := Settled(d, cfg); !rolledBack && Held(was, Marked(s, cfg).files, cfg, paths)
    requires Setup(cfg, Targets(paths)) && BootStep(cfg, d, talk, e) && Quiet(talk.inputs) && NoRollback(talk.rounds)
    ensures Held(was, e.files, cfg, paths) && Same(Marked(Settled(d, cfg).0, cfg).files, e.files, cfg.journal)
  {
    hide Settled, Marked, BootStep, Quiet, NoRollback, Renewed;
    AfterMarkAlike(d, e, cfg, paths, talk);
    AlikeHolds(was, Marked(Settled(d, cfg).0, cfg).files, e.files, cfg, paths);
  }

  lemma BootHolds(was: Files, d: Disk, e: Disk, cfg: Config, paths: seq<Path>, talk: Talk, boots: nat)
    requires Held(was, d.files, cfg, paths) && Setup(cfg, Targets(paths)) && BootStep(cfg, d, talk, e)
    requires Within(d.files, cfg, boots + if d.Alive() then 1 else 0)
    requires Quiet(talk.inputs) && NoRollback(talk.rounds)
    ensures Held(was, e.files, cfg, paths) && Within(e.files, cfg, boots)
  {
    hide Held, Within, BootStep, Repaired, Tried, Marked, Renewed, OneLine, Quiet, NoRollback;
    HeldNeedsNoRepair(was, d, cfg, paths);
    var s := Settled(d, cfg).0;
    if d.Alive() { TrialHolds(was, d, cfg, paths, boots); } else { DeadTried(d, cfg); }
    if Settled(d, cfg).1 {
      RolledBackBoot(cfg, d, e, talk);
      return;
    }
    MarkHolds(was, s, cfg, paths);
    AfterMarkHolds(was, d, e, cfg, paths, talk);
    SameWithin(s.files, Marked(s, cfg).files, cfg, boots);
    SameWithin(Marked(s, cfg).files, e.files, cfg, boots);
  }

  /** Events that ask for the old generation. */
  predicate AsksBack(ev: Event) { ev.RollingBack? || (ev.Boot? && !NoRollback(ev.talk.rounds)) }

  /** A boot that the supply lets begin. */
  predicate Begins(ev: Event) { ev.Boot? && ev.k > 0 }

  predicate Confirms(ev: Event) { ev.Confirming? && ev.k > 0 }

  /** The boots that count against the trial: those before the first confirmation. */
  function Counted(events: seq<Event>): nat {
    if events == [] || Confirms(events[0]) then 0 else (if Begins(events[0]) then 1 else 0) + Counted(events[1..])
  }

  lemma ConfirmHolds(was: Files, d: Disk, cfg: Config, paths: seq<Path>, boots: nat)
    requires Held(was, d.files, cfg, paths) && Apart(Targets(paths), cfg.journal) && Within(d.files, cfg, boots)
    ensures var e := ConfirmedDisk(d, cfg);
            && Held(was, e.files, cfg, paths) && Within(e.files, cfg, boots)
            && (d.Alive() ==> ReadJournal(e.files, cfg.journal).state == Confirmed)
  {
    HeldRewritten(was, d, cfg, paths, Confirmed, 0);
  }

  lemma RecoverHolds(was: Files, d: Disk, cfg: Config, paths: seq<Path>, boots: nat)
    requires Held(was, d.files, cfg, paths) && Setup(cfg, Targets(paths)) && Within(d.files, cfg, boots)
    ensures var e := WithoutFlag(Repaired(d, cfg), cfg); Held(was, e.files, cfg, paths) && Within(e.files, cfg, boots)
  {
    HeldNeedsNoRepair(was, d, cfg, paths);
    if cfg.flag.Some? { OwnFileHolds(was, d, WithoutFlag(d, cfg), cfg, paths, cfg.flag.value); }
    SameWithin(d.files, WithoutFlag(d, cfg).files, cfg, boots);
  }

  lemma StepHolds(was: Files, d: Disk, e: Disk, cfg: Config, paths: seq<Path>, ev: Event, boots: nat)
    requires Held(was, d.files, cfg, paths) && Setup(cfg, Targets(paths)) && Step(cfg, ev, d, e) && !AsksBack(ev) && !Updates(ev)
    requires Within(d.files, cfg, boots + if Begins(ev) then 1 else 0)
    ensures Held(was, e.files, cfg, paths) && Within(e.files, cfg, boots)
    ensures Confirms(ev) ==> ReadJournal(e.files, cfg.journal).state == Confirmed
  {
    hide Held, BootStep, ConfirmedDisk, Repaired, WithoutFlag, RolledBack, Within, Quiet, NoRollback;
    match ev
    case Boot(k, talk) => BootHolds(was, d.Reboot(k), e, cfg, paths, talk, boots);
    case Requesting(k) =>
      if cfg.flag.Some? { OwnFileHolds(was, d.Reboot(k), e, cfg, paths, cfg.flag.value); }
      SameWithin(d.files, e.files, cfg, boots);
    case Confirming(k) => ConfirmHolds(was, d.Reboot(k), cfg, paths, boots);
    case Recovering(k) => RecoverHolds(was, d.Reboot(k), cfg, paths, boots);
    case Polling(k) => PollHolds(was, d.Reboot(k), cfg, paths, boots);
    case Asking =>
  }

  lemma PollHolds(was: Files, d: Disk, cfg: Config, paths: seq<Path>, boots: nat)
    requires Held(was, d.files, cfg, paths) && Setup(cfg, Targets(paths)) && Within(d.files, cfg, boots)
    ensures Held(was, Unmarked(d, cfg).files, cfg, paths) && Within(Unmarked(d, cfg).files, cfg, boots)
  {
    hide Held, Within;
    OwnFileHolds(was, d, Unmarked(d, cfg), cfg, paths, cfg.mark);
    SameWithin(d.files, Unmarked(d, cfg).files, cfg, boots);
  }

  /** Through any run of boots, flagged or not, of sessions that begin no update, of
      update requests, confirmations, recoveries, polls and queries, cut anywhere, every
      old content stays in its retained copy and the candidate stays in place, provided
      that the boots before the first confirmation are within the trial limit. After it
      there may be any number of them. */
  lemma {:induction false} RunHoldsGeneration(was: Files, cfg: Config, paths: seq<Path>, events: seq<Event>, ds: seq<Disk>)
    requires Run(cfg, events, ds) && Held(was, ds[0].files, cfg, paths) && Setup(cfg, Targets(paths))
    requires (forall ev | ev in events :: !AsksBack(ev) && !Updates(ev)) && Within(ds[0].files, cfg, Counted(events))
    ensures Held(was, ds[|events|].files, cfg, paths)
    decreases |events|
  {
    if events != [] {
      assert events[0] in events;
      StepHolds(was, ds[0], ds[1], cfg, paths, events[0], if Confirms(events[0]) then 0 else Counted(events[1..]));
      RunHoldsGeneration(was, cfg, paths, events[1..], ds[1..]);
    }
  }

  /* ---- a rollback brings it back ---- */

  /** The targets whose retained copy is there. */
  function Retained(fs: Files, paths: seq<Path>): set<Path> { set p | p in paths && Bck(p) in fs }

  /** Restoring one target takes it out of the retained set and nothing else. */
  lemma BackupTaken(d: Disk, t: Path)
    requires d.Sound() && !IsBck(t) && RestoredOne(d, t).Alive()
    ensures forall u :: Bck(u) in RestoredOne(d, t).files <==> Bck(u) in d.files && u != t
    ensures Bck(t) in d.files ==> CanRename(Removed(d, t), Bck(t), t)
  {
    forall u ensures Bck(u) in RestoredOne(d, t).files <==> Bck(u) in d.files && u != t {
      if u != t { OtherNames(t, u); }
    }
  }

  lemma RetainedLess(f: Files, g: Files, t: Path, rest: seq<Path>)
    requires forall u :: Bck(u) in g <==> Bck(u) in f && u != t
    ensures |Retained(f, [t] + rest)| == |Retained(g, rest)| + if Bck(t) in f then 1 else 0
  {
    hide Bck;
    var more, less := Retained(f, [t] + rest), Retained(g, rest);
    forall p ensures p in more <==> p in less || (p == t && Bck(t) in f) {
      assert p in [t] + rest <==> p == t || p in rest;
    }
    assert t !in less;
    if Bck(t) in f {
      assert more == less + {t};
    } else {
      assert more == less;
    }
  }

  lemma {:induction false} CountedOnce(d: Disk, ts: set<Path>, paths: seq<Path>)
    requires d.Sound() && (forall p | p in paths :: p in ts) && (forall u | u in ts :: !IsBck(u)) && RestoredEach(d, paths).Alive()
    ensures RestoredCount(d, paths) == |Retained(d.files, paths)|
    decreases |paths|
  {
    if paths != [] {
      var t, rest := paths[0], paths[1..];
      RestoredOneHeals(d, ts, t);
      RestoredEachHeals(RestoredOne(d, t), ts, rest);
      CountedOnce(RestoredOne(d, t), ts, rest);
      BackupTaken(d, t);
      RetainedLess(d.files, RestoredOne(d, t).files, t, rest);
      assert [t] + rest == paths;
    }
  }

  lemma RollbackCounts(d: Disk, cfg: Config, paths: seq<Path>)
    requires d.Sound() && Apart(Targets(paths), cfg.journal) && RolledBack(d, cfg).0.Alive() && Retained(d.files, paths) != {}
    requires var j := ReadJournal(d.files, cfg.journal); j.paths == paths && j.state != Committing
    ensures RolledBack(d, cfg) == (RestoredAll(d, cfg), |Retained(d.files, paths)|)
  {
    var t :| t in Retained(d.files, paths);
    var i :| 0 <= i < |paths| && paths[i] == t;
    assert AnyBackup(d.files, paths);
    CountedOnce(d, Targets(paths), paths);
  }

  /** A rollback that runs to its end restores exactly the retained targets,
      reports how many they were, and leaves no copy and no journal. */
  lemma RollbackRestores(was: Files, d: Disk, cfg: Config, paths: seq<Path>)
    requires d.Sound() && Held(was, d.files, cfg, paths) && Apart(Targets(paths), cfg.journal)
    requires RolledBack(d, cfg).0.Alive() && Retained(d.files, paths) != {}
    ensures var (e, n) := RolledBack(d, cfg);
            && n == |Retained(d.files, paths)| && n > 0
            && OldContent(was, e.files, Targets(paths))
            && (forall t | t in Targets(paths) :: Bck(t) !in e.files)
            && cfg.journal !in e.files
  {
    RollbackCounts(d, cfg, paths);
    HeldRecoverable(was, d.files, cfg, paths);
    RestoreKeeps(was, d, cfg, paths);
    HealedWithoutBackups(RestoredAll(d, cfg).files, Targets(paths));
  }

  /** A rollback with nothing left to bring back refuses and changes nothing. */
  lemma SecondRollbackDoesNothing(d: Disk, cfg: Config)
    requires cfg.journal !in d.files
    ensures RolledBack(d, cfg) == (d, 0)
  {}

  /** The targets that existed before the update. */
  function Existed(was: Files, paths: seq<Path>): set<Path> { set p | p in paths && p in was }

  lemma HeldRetained(was: Files, now: Files, cfg: Config, paths: seq<Path>)
    requires Held(was, now, cfg, paths)
    ensures Retained(now, paths) == Existed(was, paths)
  {
    forall p | p in paths ensures Bck(p) in now <==> p in was {
      assert p in Targets(paths) && Renewed(was, now, p);
    }
  }

  /** From a commit to a rollback: whatever boots within the trial limit came before a
      confirmation, however many after it, and whatever requests, recoveries, polls and
      queries between them, each cut anywhere, the rollback brings back the exact old
      content of every target that existed, says how many they are, and a second one
      refuses and changes nothing. */
  lemma RollbackAfterAnyRun(was: Files, cfg: Config, paths: seq<Path>, deletes: seq<Path>, events: seq<Event>, ds: seq<Disk>, k: nat, again: nat)
    requires Run(cfg, events, ds) && ds[0].Sound() && NewWhole(was, ds[0].files, cfg, paths, deletes) && Setup(cfg, Targets(paths))
    requires (forall ev | ev in events :: !AsksBack(ev) && !Updates(ev)) && Counted(events) <= Limit(cfg)
    requires Existed(was, paths) != {} && RolledBack(ds[|events|].Reboot(k), cfg).0.Alive()
    ensures var (e, n) := RolledBack(ds[|events|].Reboot(k), cfg);
            && n == |Existed(was, paths)| && e.clashes == ds[0].clashes
            && OldContent(was, e.files, Targets(paths))
            && (forall t | t in Targets(paths) :: Bck(t) !in e.files)
            && RolledBack(e.Reboot(again), cfg) == (e.Reboot(again), 0)
  {
    assert |ds| == |events| + 1;
    hide *;
    HeldRecoverable(was, ds[0].files, cfg, paths);
    RunHoldsGeneration(was, cfg, paths, events, ds);
    RunKeepsRecoverable(was, cfg, paths, events, ds);
    var d := ds[|events|].Reboot(k);
    HeldRetained(was, d.files, cfg, paths);
    RollbackRestores(was, d, cfg, paths);
    RollbackClashes(was, d, cfg, paths);
    SecondRollbackDoesNothing(RolledBack(d, cfg).0.Reboot(again), cfg);
  }

  lemma RollbackClashes(was: Files, d: Disk, cfg: Config, paths: seq<Path>)
    requires d.Sound() && Held(was, d.files, cfg, paths) && Apart(Targets(paths), cfg.journal)
    ensures RolledBack(d, cfg).0.clashes == d.clashes
  {
    HeldRecoverable(was, d.files, cfg, paths);
    RestoreKeeps(was, d, cfg, paths);
  }
}
