/** What a whole session leaves, judged by the names in the packets it received. */
module Packets {
  import opened Text
  import opened Disks
  import opened Names
  import opened Paths
  import opened Journals
  import opened Restore
  import opened Healing
  import opened Atomicity
  import opened Sweep
  import opened Clearing
  import opened Window
  import opened Session

  /* ---- the names ---- */

  /** The file that a FILE_START stages. */
  function FileNamed(i: Input, cfg: Config): Option<Path> {
    if !Says(i, "FILE_START") then None else
    var parts := SplitMax(Strip(i.raw), ':', 3);
    if |parts| < 4 then None else Some(Resolve(parts[1], cfg.micropython))
  }

  /** The file that a DELETE asks to remove. */
  function DeleteNamed(i: Input, cfg: Config): Option<Path> {
    if !Says(i, "DELETE") then None else
    var parts := SplitMax(Strip(i.raw), ':', 1);
    if |parts| != 2 then None else Some(Resolve(parts[1], cfg.micropython))
  }

  function Targeted(inputs: seq<Input>, cfg: Config): set<Path> {
    set i | i in inputs && FileNamed(i, cfg).Some? :: FileNamed(i, cfg).value
  }

  function Doomed(inputs: seq<Input>, cfg: Config): set<Path> {
    set i | i in inputs && DeleteNamed(i, cfg).Some? :: DeleteNamed(i, cfg).value
  }

  /** What is deleted is neither a target nor its copy, nor the journal, nor the marker. */
  ghost predicate Sparing(ps: set<Path>, ts: set<Path>, cfg: Config) {
    forall p | p in ps :: Elsewhere(p, ts) && p != cfg.journal && p != cfg.mark
  }

  /** Usable names: absolute ones, no target is a staged or retained copy or a file of
      the device's own or lies above or below one, and the deletions spare them. */
  ghost predicate Usable(inputs: seq<Input>, cfg: Config) {
    && OwnApart(cfg, Targeted(inputs, cfg)) && Flat(Targeted(inputs, cfg) + OwnPaths(cfg))
    && Sparing(Doomed(inputs, cfg), Targeted(inputs, cfg), cfg) && forall p | p in Doomed(inputs, cfg) :: Locate(p) == p
  }

  function TargetSet(files: seq<Staged>): set<Path> { set s | s in files :: s.target }

  ghost predicate Named(files: seq<Staged>, cfg: Config) { Paired(files) && Apart(TargetSet(files), cfg.journal) }

  /** The deletions and the flag leave the targets and the journal alone. */
  ghost predicate Harmonious(cfg: Config, ts: set<Path>, deletes: seq<Path>) {
    && (forall p | p in deletes :: Elsewhere(p, ts) && p != cfg.journal)
    && (cfg.flag.Some? ==> Own(cfg, ts, cfg.flag.value))
  }

  /** Lists that `commit` can take: all their targets are in `ts`, under usable names. */
  ghost predicate Committable(v: Vars, cfg: Config, ts: set<Path>) {
    Paired(v.files) && TargetSet(v.files) <= ts && Apart(ts, cfg.journal) && Harmonious(cfg, ts, v.deletes)
  }

  lemma CommittableNamed(v: Vars, cfg: Config, ts: set<Path>)
    requires Committable(v, cfg, ts)
    ensures Named(v.files, cfg)
  {
    FewerApart(ts, TargetSet(v.files), cfg.journal);
  }

  lemma FewerApart(ts: set<Path>, us: set<Path>, journal: Path)
    requires Apart(ts, journal) && us <= ts
    ensures Apart(us, journal)
  {}

  /** The session's lists hold nothing but names out of its packets. */
  ghost predicate Vouched(v: Vars, ts: set<Path>, ps: set<Path>) {
    Neat(v) && TargetSet(v.files) <= ts && forall p | p in v.deletes :: p in ps
  }

  /** One packet adds at most the name that it carries. */
  lemma ServedNames(d: Disk, v: Vars, cfg: Config, tools: Tools, i: Input)
    requires i.Packet?
    ensures var w := Served(d, v, cfg, tools, Strip(i.raw), i.env).vars;
            && (forall s | s in w.files :: s in v.files || Some(s.target) == FileNamed(i, cfg))
            && (forall p | p in w.deletes :: p in v.deletes || Some(p) == DeleteNamed(i, cfg))
  {
    hide Strip, SplitMax, ParseInt, Cleared, Locate, Written, Appended, Removed, Blocked, Command;
    var packet := Strip(i.raw);
    var cmd := Command(packet);
    if cmd == "FILE_START" {
      assert Served(d, v, cfg, tools, packet, i.env) == OnFileStart(d, v, cfg, packet, i.env);
    } else if cmd == "DELETE" {
      assert Served(d, v, cfg, tools, packet, i.env) == OnDelete(d, v, cfg, packet);
    } else if cmd == "FILE_END" {
      assert Served(d, v, cfg, tools, packet, i.env) == OnFileEnd(d, v, tools);
    } else if cmd == "CHUNK" {
      assert Served(d, v, cfg, tools, packet, i.env) == OnChunk(d, v, tools, packet, i.env);
    }
  }

  lemma ServedVouched(d: Disk, v: Vars, cfg: Config, tools: Tools, i: Input, ts: set<Path>, ps: set<Path>)
    requires Vouched(v, ts, ps) && i.Packet?
    requires FileNamed(i, cfg).Some? ==> FileNamed(i, cfg).value in ts
    requires DeleteNamed(i, cfg).Some? ==> DeleteNamed(i, cfg).value in ps
    ensures Vouched(Served(d, v, cfg, tools, Strip(i.raw), i.env).vars, ts, ps)
  {
    hide FileNamed, DeleteNamed, Served, Strip, Command, IsOta;
    var packet := Strip(i.raw);
    ServedNames(d, v, cfg, tools, i);
    ServedNeat(d, v, cfg, tools, packet, i.env);
    assert forall s | s in v.files :: s.target in TargetSet(v.files);
  }

  lemma ServedNeat(d: Disk, v: Vars, cfg: Config, tools: Tools, packet: string, env: Env)
    requires Neat(v)
    ensures Neat(Served(d, v, cfg, tools, packet, env).vars)
  {
    hide Command, SplitMax, ParseInt, Cleared, IsOta, Paired;
    if Command(packet) != "UPDATE_START" { ServedStages(d, v, cfg, tools, packet, env); }
  }

  lemma {:induction false} AfterVouched(d: Disk, v: Vars, cfg: Config, tools: Tools, inputs: seq<Input>, ts: set<Path>, ps: set<Path>)
    requires Vouched(v, ts, ps) && Targeted(inputs, cfg) <= ts && Doomed(inputs, cfg) <= ps
    ensures Vouched(After(d, v, cfg, tools, inputs).1, ts, ps)
    decreases |inputs|
  {
    hide Vouched, Served, FileNamed, DeleteNamed, Heeded, Strip;
    if inputs != [] {
      var n := |inputs| - 1;
      assert forall i | i in inputs[..n] :: i in inputs;
      AfterVouched(d, v, cfg, tools, inputs[..n], ts, ps);
      var (e, w) := After(d, v, cfg, tools, inputs[..n]);
      assert inputs[n] in inputs;
      if Heeded(inputs[n], tools) {
        HeededIsPacket(inputs[n], tools);
        ServedVouched(e, w, cfg, tools, inputs[n], ts, ps);
      }
    }
  }

  lemma HeededIsPacket(i: Input, tools: Tools)
    requires Heeded(i, tools)
    ensures i.Packet?
  {}

  /* ---- the one-shot helper ---- */

  ghost predicate HelperPath(p: Path, files: seq<Staged>) {
    exists s | s in files :: IsRtcHelper(s) && (p == s.target || p == s.staging)
  }

  /** Placing the helper moves only the helper. */
  lemma {:induction false} RtcPlacedFrame(d: Disk, files: seq<Staged>)
    requires d.Sound()
    ensures var e := RtcPlaced(d, files);
            && e.Sound() && e.power <= d.power
            && forall p | !HelperPath(p, files) :: Same(d.files, e.files, p)
    decreases |files|
  {
    if files != [] {
      var s, rest := files[0], files[1..];
      assert s in files && forall x | x in rest :: x in files;
      var m := if IsRtcHelper(s) then Renamed(Removed(d, s.target), s.staging, s.target) else d;
      RtcPlacedFrame(m, rest);
      forall p | !HelperPath(p, files) ensures Same(d.files, RtcPlaced(d, files).files, p) {
        assert !HelperPath(p, rest);
        assert Same(d.files, m.files, p);
      }
    }
  }

  lemma {:induction false} RetainedAre(files: seq<Staged>)
    ensures forall s :: s in Session.Retained(files) <==> s in files && !IsRtcHelper(s)
  {
    if files != [] { RetainedAre(files[1..]); }
  }

  /** A file of the device's own, or a retained copy, is no helper's. */
  lemma OthersAreNoHelper(files: seq<Staged>, cfg: Config, p: Path)
    requires Named(files, cfg) && !IsOta(p) && (p !in TargetSet(files))
    ensures !HelperPath(p, files)
  {
    forall h | h in files ensures p != h.target && p != h.staging { assert h.target in TargetSet(files); }
  }

  /* ---- what the packets before the end do ---- */

  /** A well-formed UPDATE_START. */
  predicate Opens(i: Input, tools: Tools) {
    Heeded(i, tools) && Says(i, "UPDATE_START")
    && var parts := SplitMax(Strip(i.raw), ':', 2);
       |parts| == 3 && ParseInt(parts[1]).Some? && ParseInt(parts[2]).Some?
  }

  /** A session announces its update before it commits it. */
  predicate Announced(inputs: seq<Input>, tools: Tools) {
    forall k | 0 <= k < |inputs| && Commits(inputs[k]) :: exists j :: 0 <= j < k && Opens(inputs[j], tools)
  }

  lemma StagingKeepsJournalled(d: Disk, e: Disk, cfg: Config)
    requires Staging(d, e) && !IsOta(cfg.journal)
    ensures Journalled(d.files, cfg) ==> Journalled(e.files, cfg)
    ensures ReadJournal(e.files, cfg.journal) == ReadJournal(d.files, cfg.journal)
  {
    assert Same(d.files, e.files, cfg.journal);
    forall p | IsBck(p) ensures Same(d.files, e.files, p) { BckOfStem(p); }
  }

  /** What one input keeps, from a session that began with `was`. */
  lemma TurnKeeps(was: Files, d: Disk, v: Vars, cfg: Config, tools: Tools, i: Input)
    requires Transferred(was, d.files, cfg) && Neat(v) && !IsBck(cfg.journal) && !IsOta(cfg.journal)
    ensures var (e, w) := Turned(d, v, cfg, tools, i);
            && Transferred(was, e.files, cfg) && Neat(w) && SameAttempts(d, e)
            && (Journalled(d.files, cfg) ==> Journalled(e.files, cfg))
            && (Clean(d.files, cfg) ==> Clean(e.files, cfg))
            && (Opens(i, tools) && Journalled(d.files, cfg) && e.Alive() ==> Clean(e.files, cfg))
  {
    hide Strip, HighBit, Command, Transferred, Neat, Cleared, Journalled, Clean, SplitMax, ParseInt, Staging;
    if Heeded(i, tools) {
      var packet := Strip(i.raw);
      ServedNeat(d, v, cfg, tools, packet, i.env);
      if Command(packet) == "UPDATE_START" {
        StartKeeps(was, d, cfg);
        if Journalled(d.files, cfg) { ClearJournalCleans(d, cfg); }
        if Clean(d.files, cfg) { ClearedStaysClean(d, cfg); }
      } else {
        ServedStages(d, v, cfg, tools, packet, i.env);
        var e := Served(d, v, cfg, tools, packet, i.env).disk;
        StagingIs(d, e);
        TransferredOn(was, d.files, e.files, cfg);
        CleanKept(d.files, e.files, cfg);
        StagingKeepsJournalled(d, e, cfg);
      }
    }
  }

  lemma StagingIs(d: Disk, e: Disk)
    requires Staging(d, e)
    ensures OnlyStaging(d.files, e.files) && SameAttempts(d, e)
  {}

  /** Before it ends a session changes staging files, and drops the journalled copies
      if it is told to; after a well-formed UPDATE_START the tree is clean. */
  lemma {:induction false} AfterKeeps(d: Disk, v: Vars, cfg: Config, tools: Tools, inputs: seq<Input>)
    requires Neat(v) && !IsBck(cfg.journal) && !IsOta(cfg.journal)
    ensures var (e, w) := After(d, v, cfg, tools, inputs);
            && Transferred(d.files, e.files, cfg) && Neat(w) && SameAttempts(d, e)
            && (Journalled(d.files, cfg) ==> Journalled(e.files, cfg))
            && (Journalled(d.files, cfg) && e.Alive() && (exists i :: i in inputs && Opens(i, tools)) ==> Clean(e.files, cfg))
    decreases |inputs|
  {
    hide Neat, Journalled, Clean, Opens, Turned;
    if inputs == [] {
      assert Transferred(d.files, d.files, cfg);
    } else {
      var n := |inputs| - 1;
      AfterKeeps(d, v, cfg, tools, inputs[..n]);
      var (e, w) := After(d, v, cfg, tools, inputs[..n]);
      TurnKeeps(d.files, e, w, cfg, tools, inputs[n]);
      assert forall i | i in inputs :: i in inputs[..n] || i == inputs[n];
    }
  }

  /* ---- UPDATE_COMMIT ---- */

  lemma {:induction false} DeadRtcPlaced(d: Disk, files: seq<Staged>)
    requires d.power == 0
    ensures RtcPlaced(d, files) == d
    decreases |files|
  {
    if files != [] { DeadRtcPlaced(d, files[1..]); }
  }

  lemma DeadFinished(d: Disk, v: Vars, cfg: Config)
    requires d.power == 0
    ensures Finished(d, v, cfg).0 == d
  {
    DeadRtcPlaced(d, v.files);
    CommitDies(d, cfg, Retained(v.files), v.deletes);
  }

  lemma VouchedCommittable(v: Vars, cfg: Config, ts: set<Path>, ps: set<Path>)
    requires Vouched(v, ts, ps) && OwnApart(cfg, ts) && Sparing(ps, ts, cfg)
    ensures Committable(v, cfg, ts)
  {}

  /** What the helper leaves for `commit`: a set that it can take. */
  lemma CommitReadies(d: Disk, v: Vars, cfg: Config, ts: set<Path>)
    requires d.Sound() && Committable(v, cfg, ts)
    ensures var r, kept := RtcPlaced(d, v.files), Retained(v.files);
            && r.Sound() && r.power <= d.power && Ready(r.files, cfg, kept, v.deletes)
            && Targets(StagedTargets(r.files, kept)) <= TargetSet(kept) <= TargetSet(v.files)
  {
    var r, kept := RtcPlaced(d, v.files), Retained(v.files);
    RtcPlacedFrame(d, v.files);
    RetainedAre(v.files);
    assert forall s | s in kept :: s in v.files;
    StagedAmong(r.files, kept);
    FewerApart(ts, Targets(StagedTargets(r.files, kept)), cfg.journal);
  }

  lemma StagedAmong(files: Files, staged: seq<Staged>)
    ensures Targets(StagedTargets(files, staged)) <= TargetSet(staged)
  {
    forall t | t in StagedTargets(files, staged) ensures t in TargetSet(staged) {
      var s := StagedWitness(files, staged, t);
    }
  }

  /** Of the journal and the retained copies it touches none. */
  lemma HelperLeaves(d: Disk, v: Vars, cfg: Config)
    requires d.Sound() && Named(v.files, cfg)
    ensures var r := RtcPlaced(d, v.files);
            && Same(d.files, r.files, cfg.journal) && (forall p | IsBck(p) :: Same(d.files, r.files, p))
            && (Journalled(d.files, cfg) ==> Journalled(r.files, cfg)) && (Clean(d.files, cfg) ==> Clean(r.files, cfg))
  {
    var r := RtcPlaced(d, v.files);
    RtcPlacedFrame(d, v.files);
    forall p | IsBck(p) ensures Same(d.files, r.files, p) {
      BckOfStem(p);
      OthersAreNoHelper(v.files, cfg, p);
    }
  }

  /** `commit` after the helper: which journal it leaves. */
  lemma CommitJournals(d: Disk, v: Vars, cfg: Config, ts: set<Path>)
    requires d.Sound() && Committable(v, cfg, ts)
    ensures var e := Committed(RtcPlaced(d, v.files), cfg, Retained(v.files), v.deletes).0;
            && e.Sound()
            && (ReadJournal(e.files, cfg.journal) == ReadJournal(d.files, cfg.journal)
                || Targets(ReadJournal(e.files, cfg.journal).paths) <= ts)
            && (Clean(d.files, cfg) ==> Journalled(e.files, cfg))
  {
    hide Committed, Clean, Journalled, IsRtcHelper, Named;
    var r, kept := RtcPlaced(d, v.files), Retained(v.files);
    CommitReadies(d, v, cfg, ts);
    CommittableNamed(v, cfg, ts);
    HelperLeaves(d, v, cfg);
    CommitCut(r, cfg, kept, v.deletes);
    if Clean(d.files, cfg) { CommitKeepsJournalled(r, cfg, kept, v.deletes); }
  }

  /** UPDATE_COMMIT, cut anywhere: the journal is the old one or names targets of the
      session, and a clean tree becomes a journalled one. */
  lemma FinishedJournals(d: Disk, v: Vars, cfg: Config, ts: set<Path>)
    requires d.Sound() && Committable(v, cfg, ts)
    ensures var e := Finished(d, v, cfg).0;
            && e.Sound()
            && (ReadJournal(e.files, cfg.journal) == ReadJournal(d.files, cfg.journal)
                || Targets(ReadJournal(e.files, cfg.journal).paths) <= ts)
            && (Clean(d.files, cfg) || (d.power == 0 && Journalled(d.files, cfg)) ==> Journalled(e.files, cfg))
  {
    hide Committed, Clean, RtcPlaced, Retained;
    CommitJournals(d, v, cfg, ts);
    var c := Committed(RtcPlaced(d, v.files), cfg, Retained(v.files), v.deletes).0;
    assert Same(c.files, WithoutFlag(c, cfg).files, cfg.journal);
    if d.power == 0 { DeadFinished(d, v, cfg); }
  }

  /** And a file of the device's own stays, until the flag is removed. */
  lemma CommitSparesOwn(d: Disk, v: Vars, cfg: Config, ts: set<Path>, p: Path)
    requires d.Sound() && Committable(v, cfg, ts) && Own(cfg, ts, p) && p !in v.deletes
    ensures Same(d.files, Committed(RtcPlaced(d, v.files), cfg, Retained(v.files), v.deletes).0.files, p)
  {
    hide Committed, IsRtcHelper;
    var r, kept := RtcPlaced(d, v.files), Retained(v.files);
    CommitReadies(d, v, cfg, ts);
    CommittableNamed(v, cfg, ts);
    OthersAreNoHelper(v.files, cfg, p);
    RtcPlacedFrame(d, v.files);
    CommitCut(r, cfg, kept, v.deletes);
    assert Outside(p, cfg, Targets(StagedTargets(r.files, kept)), v.deletes);
    assert Same(r.files, Committed(r, cfg, kept, v.deletes).0.files, p);
  }

  lemma FlagOnly(d: Disk, v: Vars, cfg: Config, p: Path)
    requires cfg.flag != Some(p)
    ensures Same(Committed(RtcPlaced(d, v.files), cfg, Retained(v.files), v.deletes).0.files, Finished(d, v, cfg).0.files, p)
  {
    hide Committed, RtcPlaced, Retained;
  }

  lemma VouchedDeletes(v: Vars, ts: set<Path>, ps: set<Path>)
    requires Vouched(v, ts, ps)
    ensures forall p | p in v.deletes :: p in ps
  {}

  /* ---- the whole session ---- */

  lemma UsableNames(inputs: seq<Input>, cfg: Config)
    requires Usable(inputs, cfg)
    ensures OwnApart(cfg, Targeted(inputs, cfg)) && Sparing(Doomed(inputs, cfg), Targeted(inputs, cfg), cfg)
  {}

  lemma FreshIsVouched(ts: set<Path>, ps: set<Path>)
    ensures Vouched(FRESH, ts, ps)
  {}

  /** Disk and variables when the input arrives that ends the session. */
  lemma AtTheEnd(d: Disk, cfg: Config, tools: Tools, inputs: seq<Input>, n: nat)
    requires n <= |inputs| && Usable(inputs, cfg)
    ensures var (m, w) := After(d, FRESH, cfg, tools, inputs[..n]);
            && Vouched(w, Targeted(inputs, cfg), Doomed(inputs, cfg)) && Neat(w) && Transferred(d.files, m.files, cfg) && SameAttempts(d, m)
            && (Journalled(d.files, cfg) ==> Journalled(m.files, cfg))
            && (Journalled(d.files, cfg) && m.Alive() && n < |inputs| && Commits(inputs[n]) && Announced(inputs, tools) ==> Clean(m.files, cfg))
  {
    hide Transferred, Journalled, Clean, Opens, Vouched, FileNamed, DeleteNamed;
    var ts, ps := Targeted(inputs, cfg), Doomed(inputs, cfg);
    assert forall i | i in inputs[..n] :: i in inputs;
    FreshIsVouched(ts, ps);
    AfterVouched(d, FRESH, cfg, tools, inputs[..n], ts, ps);
    FreshIsNeat();
    UsableNames(inputs, cfg);
    AfterKeeps(d, FRESH, cfg, tools, inputs[..n]);
    if n < |inputs| && Commits(inputs[n]) && Announced(inputs, tools) {
      var j :| 0 <= j < n && Opens(inputs[j], tools);
      assert inputs[j] == inputs[..n][j];
    }
  }

  lemma FreshIsNeat()
    ensures Neat(FRESH)
  {}

  lemma TransferredOwn(was: Files, now: Files, cfg: Config, p: Path)
    requires Transferred(was, now, cfg) && !IsBck(cfg.journal) && !IsOta(cfg.journal)
    ensures ReadJournal(now, cfg.journal).paths == [] || ReadJournal(now, cfg.journal) == ReadJournal(was, cfg.journal)
    ensures p != cfg.journal && !IsBck(p) && !IsOta(p) ==> Same(was, now, p)
  {
    assert Same(was, now, cfg.journal) || cfg.journal !in now;
  }

  /** Whatever packets arrive under usable names, and wherever the power fails: the
      marker stays, and the journal is gone, the old one, or names targets of the
      session. If a commit was announced every copy stays journalled. */
  lemma SessionKeeps(d: Disk, cfg: Config, tools: Tools, timeoutMs: int, inputs: seq<Input>, e: Disk, end: End)
    requires Conducted(d, FRESH, cfg, tools, timeoutMs, inputs, e, end)
    requires d.Sound() && Usable(inputs, cfg)
    ensures e.Sound() && (cfg.flag != Some(cfg.mark) ==> Same(d.files, e.files, cfg.mark))
    ensures var paths := ReadJournal(e.files, cfg.journal).paths;
            paths == [] || paths == ReadJournal(d.files, cfg.journal).paths || Targets(paths) <= Targeted(inputs, cfg)
    ensures Journalled(d.files, cfg) && Announced(inputs, tools) ==> Journalled(e.files, cfg)
  {
    hide Journalled, Clean, Finished, Vouched, Usable, SweptFrom, Transferred, Targeted, Doomed, Announced, After, Staging;
    var n := Until(inputs, tools, timeoutMs);
    AtTheEnd(d, cfg, tools, inputs, n);
    UsableNames(inputs, cfg);
    var (m, w) := After(d, FRESH, cfg, tools, inputs[..n]);
    TransferredOwn(d.files, m.files, cfg, cfg.mark);
    if n < |inputs| {
      if Commits(inputs[n]) {
        VouchedCommittable(w, cfg, Targeted(inputs, cfg), Doomed(inputs, cfg));
        VouchedDeletes(w, Targeted(inputs, cfg), Doomed(inputs, cfg));
        FinishedJournals(m, w, cfg, Targeted(inputs, cfg));
        CommitSparesOwn(m, w, cfg, Targeted(inputs, cfg), cfg.mark);
        if cfg.flag != Some(cfg.mark) { FlagOnly(m, w, cfg, cfg.mark); }
      } else {
        SweepKeepsOwn(m, w, e, cfg, inputs[n], cfg.mark);
      }
    }
  }

  /** A session that does not end in a commit leaves the firmware as it was. */
  lemma UncommittedUntouched(d: Disk, cfg: Config, tools: Tools, timeoutMs: int, inputs: seq<Input>, e: Disk, end: End)
    requires Conducted(d, FRESH, cfg, tools, timeoutMs, inputs, e, end) && !end.Ended? && !IsBck(cfg.journal) && !IsOta(cfg.journal)
    ensures FirmwareUntouched(d.files, e.files, cfg)
  {
    hide FirmwareUntouched, Transferred, SweptFrom, Neat, Staging;
    var n := Until(inputs, tools, timeoutMs);
    FreshIsNeat();
    AfterKeeps(d, FRESH, cfg, tools, inputs[..n]);
    var (m, w) := After(d, FRESH, cfg, tools, inputs[..n]);
    TransferredUntouched(d.files, m.files, cfg);
    if n < |inputs| {
      NeatPairs(w);
      StagingRemovedStages(m, w.files);
      StagingIs(m, StagingRemoved(m, w.files));
      TransferredOn(d.files, m.files, StagingRemoved(m, w.files).files, cfg);
      SweptUntouched(d.files, if inputs[n].Silence? then StagingRemoved(m, w.files) else m, e, cfg);
    }
  }

  lemma SweepKeepsOwn(m: Disk, w: Vars, e: Disk, cfg: Config, i: Input, p: Path)
    requires SweptFrom(if i.Silence? then StagingRemoved(m, w.files) else m, e, cfg.journal) && Neat(w)
    requires !IsBck(cfg.journal) && !IsOta(cfg.journal) && !IsBck(p) && !IsOta(p)
    ensures SameAttempts(m, e) && Same(m.files, e.files, p)
    ensures ReadJournal(e.files, cfg.journal) == ReadJournal(m.files, cfg.journal)
    ensures Journalled(m.files, cfg) ==> Journalled(e.files, cfg)
  {
    var s := if i.Silence? then StagingRemoved(m, w.files) else m;
    StagingRemovedStages(m, w.files);
    Unchanged(m);
    StagingKeepsJournalled(m, s, cfg);
    var kept := KeptBackups(s.files, cfg.journal);
    assert !Orphan(cfg.journal, kept) && !Orphan(p, kept);
    assert Same(s.files, e.files, cfg.journal) && Same(s.files, e.files, p);
    if Journalled(m.files, cfg) { ShrinkKeeps(s.files, e.files, cfg); }
  }
}
