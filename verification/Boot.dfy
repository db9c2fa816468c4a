/** The boot sequence: repair, trial, marker, recovery window, update session, sweep.
    Whatever comes over the link, a boot is a step of the run theorems. */
module Boot {
  import opened Text
  import opened Disks
  import opened Names
  import opened Paths
  import opened Journals
  import opened Restore
  import opened Healing
  import opened Sweep
  import opened Window
  import opened Runs
  import opened Clearing
  import opened Freshness
  import opened Room
  import opened Session
  import opened Auth
  import opened Counters

  /* ---- run ---- */

  /** How a boot ended, and for how long its window was open at most. */
  datatype BootEnd =
    | TrialOver
    | NoFlagName
    | WindowReset(windowMs: int)
    | Started(windowMs: int)
    | Updated(end: End)

  /** What an update session may leave. */
  ghost predicate SessionLeft(was: Disk, now: Disk, cfg: Config, end: End) {
    if end.Ended? then exists d, v :: EndedIn(was.files, now, end.ok, cfg, d, v)
    else FirmwareUntouched(was.files, now.files, cfg)
  }

  lemma {:induction false} ListenedIsTree(d: Disk, cfg: Config, windowMs: int, rounds: seq<Round>)
    requires Roomy(d.files, cfg) && cfg.flag != Some(cfg.journal)
    ensures Tree(Listened(d, cfg, windowMs, rounds).0.files)
    decreases |rounds|
  {
    hide Roomy, Tree, RolledBack, Flagged;
    RoomForAnswers(d, cfg);
    if rounds != [] {
      ListenedIsTree(d, cfg, windowMs, rounds[1..]);
      ListenedIsTree(RolledBack(d, cfg).0, cfg, windowMs, rounds[1..]);
    }
  }

  lemma RoomForAnswers(d: Disk, cfg: Config)
    requires Roomy(d.files, cfg) && cfg.flag != Some(cfg.journal)
    ensures Tree(d.files) && Tree(Flagged(d, cfg).files)
    ensures Roomy(RolledBack(d, cfg).0.files, cfg) && Tree(RolledBack(d, cfg).0.files)
  {
    hide Roomy, Tree, RestoredAll;
    RoomyInside(d.files, d.files, cfg);
    RoomySane(d.files, cfg);
    RestoredAllInside(d, cfg);
    RoomyInside(d.files, RestoredAll(d, cfg).files, cfg);
    if cfg.flag.Some? {
      WrittenInside(d, cfg, cfg.flag.value, "1");
      RoomyInside(d.files, Flagged(d, cfg).files, cfg);
    }
  }

  /** A boot that found no flag: the window, and the sweep unless it was reset. */
  method ServeWindow(fs: FileSystem, cfg: Config, gate: AuthGate, requireAuth: bool, validText: string -> bool, hadMark: bool,
                     arrivals: seq<Arrival>, write: FloorWrite) returns (end: BootEnd)
    requires Roomy(fs.disk.files, cfg) && cfg.flag != Some(cfg.journal)
    requires gate.Valid() && Current(gate.lastSeen, gate.floor.text) >= 0
    modifies fs, gate, gate.floor
    ensures var w := WindowMs(cfg, hadMark, StateLabel(old(fs.disk.files), cfg.journal));
            var (l, _, reset) := Listened(old(fs.disk), cfg, w,
                                          Rounds(Checks(gate.crypto, KeyFromHex(gate.configured), requireAuth, validText),
                                                 Current(old(gate.lastSeen), old(gate.floor.text)), arrivals));
            if reset then end == WindowReset(w) && fs.disk == l else end == Started(w) && SweptFrom(l, fs.disk, cfg.journal)
    ensures gate.floor.text == if end.WindowReset? then Floored(gate.lastSeen, old(gate.floor.text), write) else old(gate.floor.text)
  {
    hide Roomy, Tree, Listened, SweptFrom, StateLabel, Rounds, KeyFromHex, Derived, Loaded, Floored;
    var window := 0;
    if hadMark || StateLabel(fs.disk.files, cfg.journal) != Stable { window := cfg.recoveryMs; }
    if window <= 0 { window := cfg.listenMs; }
    ghost var rounds := Rounds(Checks(gate.crypto, KeyFromHex(gate.configured), requireAuth, validText),
                               Current(gate.lastSeen, gate.floor.text), arrivals);
    ListenedIsTree(fs.disk, cfg, window, rounds);
    var _, reset := Listen(fs, cfg, gate, requireAuth, validText, window, arrivals, write);
    if reset { return WindowReset(window); }
    SweepOrphans(fs, cfg);
    end := Started(window);
  }

  /** A boot that found the flag: a session, and the flag goes when that is over. */
  method ServeUpdate(fs: FileSystem, cfg: Config, tools: Tools, timeoutMs: int, inputs: seq<Input>, ghost rounds: seq<Round>)
    returns (end: End)
    requires Tree(fs.disk.files) && !IsBck(cfg.journal) && !IsOta(cfg.journal)
    modifies fs
    ensures exists x :: SessionStep(cfg, old(fs.disk), Talk(rounds, tools, timeoutMs, inputs), x, end, fs.disk)
                           && SessionLeft(old(fs.disk), x, cfg, end)
    ensures end != Waiting && cfg.flag.Some? && fs.disk.Alive() ==> cfg.flag.value !in fs.disk.files
  {
    hide Tree, SweptFrom, Conducted, Finished, EndedIn, FirmwareUntouched, Spared, Quiet;
    ghost var m := fs.disk;
    var session := new UpdateSession(fs, cfg, tools, timeoutMs);
    var sessionEnd, _ := session.Run(inputs);
    ghost var x := fs.disk;
    end := sessionEnd;
    // a session still waiting for a packet has not come to the flag
    if end != Waiting { RemoveFlag(fs, cfg); }
    assert SessionStep(cfg, m, Talk(rounds, tools, timeoutMs, inputs), x, end, fs.disk);
  }

  /** One whole boot, from a tree with room for what the boot may put there: a step of
      the run theorems, whatever comes over the link, and how it ended. */
  method Run(fs: FileSystem, cfg: Config, gate: AuthGate, requireAuth: bool, tools: Tools, timeoutMs: int,
             arrivals: seq<Arrival>, inputs: seq<Input>, write: FloorWrite) returns (end: BootEnd)
    requires Roomy(fs.disk.files, cfg) && cfg.mark != cfg.journal && cfg.flag != Some(cfg.journal)
    requires gate.Valid() && Current(gate.lastSeen, gate.floor.text) >= 0
    modifies fs, gate, gate.floor
    ensures var rounds := Rounds(Checks(gate.crypto, KeyFromHex(gate.configured), requireAuth, tools.validText),
                                 Current(old(gate.lastSeen), old(gate.floor.text)), arrivals);
            var (s, rolledBack) := Settled(old(fs.disk), cfg);
            var m := Marked(s, cfg);
            var w := WindowOf(s, cfg);
            && BootStep(cfg, old(fs.disk), Talk(rounds, tools, timeoutMs, inputs), fs.disk)
            && (if rolledBack then end == TrialOver
                else if cfg.flag.None? then end == NoFlagName
                else if cfg.flag.value in m.files then
                  end.Updated? && exists x :: SessionStep(cfg, m, Talk(rounds, tools, timeoutMs, inputs), x, end.end, fs.disk)
                                                 && SessionLeft(m, x, cfg, end.end)
                else end == if Listened(m, cfg, w, rounds).2 then WindowReset(w) else Started(w))
    ensures end.Updated? && end.end != Waiting && fs.disk.Alive() ==> cfg.flag.Some? && cfg.flag.value !in fs.disk.files
    ensures gate.floor.text == if end.WindowReset? then Floored(gate.lastSeen, old(gate.floor.text), write) else old(gate.floor.text)
  {
    hide Roomy, Tree, Repaired, Tried, Listened, SweptFrom, SessionStep, SessionLeft, StateLabel,
      Rounds, KeyFromHex, Derived, Loaded, Floored;
    MarkedIsRoomy(fs.disk, cfg);
    RoomySane(fs.disk.files, cfg);
    assert !IsBck(cfg.journal) && !IsOta(cfg.journal);
    Repair(fs, cfg);
    var rolledBack := TrialBoot(fs, cfg);
    if rolledBack { return TrialOver; }
    var hadMark := MarkBoot(fs, cfg);
    if cfg.flag.None? { return NoFlagName; }
    var hasFlag := fs.Exists(cfg.flag.value);
    if !hasFlag {
      end := ServeWindow(fs, cfg, gate, requireAuth, tools.validText, hadMark, arrivals, write);
      return;
    }
    ghost var rounds := Rounds(Checks(gate.crypto, KeyFromHex(gate.configured), requireAuth, tools.validText),
                               Current(gate.lastSeen, gate.floor.text), arrivals);
    var sessionEnd := ServeUpdate(fs, cfg, tools, timeoutMs, inputs, rounds);
    end := Updated(sessionEnd);
  }

  /** Whatever was there before: a boot that opens no session, is not reset by its
      window and runs to its end leaves no retained copy outside the journal. */
  lemma CompleteBootJournals(d: Disk, e: Disk, cfg: Config, talk: Talk)
    requires d.Sound() && Proper(d.files, cfg) && Roomy(d.files, cfg) && BootStep(cfg, d, talk, e) && e.Alive()
    requires forall p | p in ReadJournal(d.files, cfg.journal).paths :: Canonical(Bck(p)) == Bck(p)
    requires var (s, rolledBack) := Settled(d, cfg);
             var m := Marked(s, cfg);
             && !rolledBack && cfg.flag.Some? && cfg.flag.value !in m.files && !Listened(m, cfg, WindowOf(s, cfg), talk.rounds).2
    ensures Journalled(e.files, cfg)
  {
    hide Proper, Roomy, Tree, Settled, Marked, Listened, SweptFrom, WindowOf, Journalled, Canonical;
    var s := Settled(d, cfg).0;
    var m := Marked(s, cfg);
    var w := WindowOf(s, cfg);
    var l := Listened(m, cfg, w, talk.rounds).0;
    ProperSane(d.files, cfg);
    MarkedKeepsJournalled(d, cfg);
    KeepsProper(d, m, cfg);
    ListenedKeepsJournalled(m, cfg, w, talk.rounds);
    KeepsThen(d, m, l, cfg);
    NamesKept(d, l, cfg);
    MarkedIsRoomy(d, cfg);
    ListenedIsTree(m, cfg, w, talk.rounds);
    SweepJournals(l, e, cfg);
  }

  lemma NamesKept(d: Disk, e: Disk, cfg: Config)
    requires Keeps(d, e, cfg)
    ensures var paths := ReadJournal(e.files, cfg.journal).paths; paths == [] || paths == ReadJournal(d.files, cfg.journal).paths
  {
    var paths := ReadJournal(e.files, cfg.journal).paths;
    if paths != [] { assert paths[0] in Targets(paths); }
  }

  /* ---- the application's side ---- */

  class OtaFacade {
    const fs: FileSystem
    const cfg: Config
    /** Set by the first poll of this process, whether or not the removal worked. */
    var bootMarkCleared: bool

    constructor (fs: FileSystem, cfg: Config)
      ensures this.fs == fs && this.cfg == cfg && !bootMarkCleared
    {
      this.fs, this.cfg, bootMarkCleared := fs, cfg, false;
    }

    /** `mark_application_alive`, and what `poll` does before it serves a command. */
    method MarkApplicationAlive()
      modifies this, fs
      ensures bootMarkCleared
      ensures fs.disk == if old(bootMarkCleared) then old(fs.disk) else Unmarked(old(fs.disk), cfg)
    {
      if bootMarkCleared { return; }
      bootMarkCleared := true;
      if cfg.recoveryMs <= 0 { return; }
      fs.Remove(cfg.mark);
    }

    /** Finish or reverse an interrupted commit when the boot module could not run. */
    method Recover()
      modifies fs
      ensures fs.disk == WithoutFlag(Repaired(old(fs.disk), cfg), cfg)
      ensures cfg.flag.Some? && fs.disk.Alive() ==> cfg.flag.value !in fs.disk.files
    {
      Repair(fs, cfg);
      RemoveFlag(fs, cfg);
    }
  }
}
