/** UPDATE_COMMIT after a complete transfer: what the device then holds. */
module Delivery {
  import opened Text
  import opened Disks
  import opened Names
  import opened Journals
  import opened Restore
  import opened Healing
  import opened Atomicity
  import opened ExactUndo
  import opened Session
  import opened Packets
  import opened Window

  function TargetsOf(files: seq<Staged>): (r: seq<Path>)
    ensures |r| == |files| && forall i | 0 <= i < |r| :: r[i] == files[i].target
  {
    seq(|files|, i requires 0 <= i < |files| => files[i].target)
  }

  /** The staged pairs of a session have names that do not meet. */
  ghost predicate Separate(files: seq<Staged>, cfg: Config) {
    && Named(files, cfg)
    && (forall i, j | 0 <= i < j < |files| :: files[i].target != files[j].target)
  }

  /* ---- the retained set ---- */

  lemma {:induction false} AllStagedTargets(fs: Files, staged: seq<Staged>)
    requires forall s | s in staged :: s.staging in fs
    ensures StagedTargets(fs, staged) == TargetsOf(staged)
  {
    if staged != [] {
      assert staged[0] in staged;
      AllStagedTargets(fs, staged[1..]);
      assert TargetsOf(staged) == [staged[0].target] + TargetsOf(staged[1..]);
    } else {
      assert TargetsOf(staged) == [];
    }
  }

  /** A target that is not the helper's keeps its file, its copy and its staged copy
      when the helper is placed. */
  lemma PlainAside(d: Disk, v: Vars, cfg: Config, ts: set<Path>, t: Path)
    requires d.Sound() && Committable(v, cfg, ts) && t in ts && BaseName(t) != RTC_HELPER
    ensures var r := RtcPlaced(d, v.files);
            Same(d.files, r.files, t) && Same(d.files, r.files, Ota(t)) && Same(d.files, r.files, Bck(t))
  {
    RtcPlacedFrame(d, v.files);
    forall h | h in v.files && IsRtcHelper(h)
      ensures t != h.target && t != h.staging && Ota(t) != h.target && Ota(t) != h.staging && Bck(t) != h.target && Bck(t) != h.staging
    {
      assert h.target in TargetSet(v.files) && h.staging == Ota(h.target);
    }
  }

  /** The named targets but the helper's. */
  function Plain(ts: set<Path>): set<Path> { set t | t in ts && BaseName(t) != RTC_HELPER }

  lemma KeptIsPlain(v: Vars, cfg: Config, ts: set<Path>)
    requires Committable(v, cfg, ts)
    ensures TargetSet(Session.Retained(v.files)) <= Plain(ts)
    ensures TargetSet(Session.Retained(v.files)) == Plain(TargetSet(v.files))
  {
    RetainedAre(v.files);
    forall t | t in Plain(TargetSet(v.files)) ensures t in TargetSet(Session.Retained(v.files)) {
      var s :| s in v.files && s.target == t;
      assert s in Session.Retained(v.files);
    }
  }

  /** What the host was promised: each of the paths holds the staged bytes, its old
      content is retained, and the trial starts at zero. */
  ghost predicate Delivered(was: Files, staged: Files, now: Files, cfg: Config, paths: seq<Path>) {
    && ReadJournal(now, cfg.journal) == Journal(0, Trial, paths)
    && forall t | t in Targets(paths) ::
         && Ota(t) in staged && t in now && now[t] == staged[Ota(t)]
         && (t in was ==> Bck(t) in now && now[Bck(t)] == was[t])
  }

  lemma NewIsDelivered(was: Files, d: Files, r: Files, e: Files, cfg: Config, paths: seq<Path>, deletes: seq<Path>)
    requires NewWhole(r, e, cfg, paths, deletes)
    requires forall t | t in Targets(paths) :: Same(d, r, t) && Same(d, r, Ota(t)) && Same(was, d, t)
    ensures Delivered(was, d, e, cfg, paths)
  {
    forall t | t in Targets(paths)
      ensures Ota(t) in d && t in e && e[t] == d[Ota(t)]
      ensures t in was ==> Bck(t) in e && e[Bck(t)] == was[t]
    {
      assert New(r, e, t);
    }
  }

  lemma FlagApart(was: Files, d: Files, e: Disk, cfg: Config, paths: seq<Path>, ts: set<Path>)
    requires Delivered(was, d, e.files, cfg, paths) && Targets(paths) <= ts
    requires cfg.flag.Some? ==> Own(cfg, ts, cfg.flag.value)
    ensures Delivered(was, d, WithoutFlag(e, cfg).files, cfg, paths)
  {}

  /** The targets that a commit finds staged. */
  function Found(d: Disk, v: Vars): seq<Path> { StagedTargets(RtcPlaced(d, v.files).files, Session.Retained(v.files)) }

  /** The disk when `commit` returns: its answer goes out before the flag is removed. */
  function AtReply(d: Disk, v: Vars, cfg: Config): Disk {
    Committed(RtcPlaced(d, v.files), cfg, Session.Retained(v.files), v.deletes).0
  }

  lemma FlagIsLast(d: Disk, v: Vars, cfg: Config)
    ensures Finished(d, v, cfg).0 == WithoutFlag(AtReply(d, v, cfg), cfg)
  {}

  /** UPDATE_COMMIT with the power to answer it, after any session. */
  lemma FinishedDeliversStaged(was: Files, d: Disk, v: Vars, cfg: Config, ts: set<Path>)
    requires d.Sound() && Committable(v, cfg, ts) && AtReply(d, v, cfg).Alive()
    requires forall t | t in ts :: Same(was, d.files, t)
    ensures var paths := Found(d, v);
            && Finished(d, v, cfg).1 && Delivered(was, d.files, Finished(d, v, cfg).0.files, cfg, paths)
            && Targets(paths) <= Plain(ts)
  {
    var r, kept := RtcPlaced(d, v.files), Session.Retained(v.files);
    var paths := StagedTargets(r.files, kept);
    CommitReadies(d, v, cfg, ts);
    KeptIsPlain(v, cfg, ts);
    CommitCut(r, cfg, kept, v.deletes);
    var e := Committed(r, cfg, kept, v.deletes).0;
    forall t | t in Targets(paths) ensures Same(d.files, r.files, t) && Same(d.files, r.files, Ota(t)) { PlainAside(d, v, cfg, ts, t); }
    NewIsDelivered(was, d.files, r.files, e.files, cfg, paths, v.deletes);
    FlagApart(was, d.files, e, cfg, paths, ts);
  }

  /** All staged files of a complete transfer are found by the commit. */
  lemma AllFound(d: Disk, v: Vars, cfg: Config, ts: set<Path>)
    requires d.Sound() && Committable(v, cfg, ts) && forall s | s in v.files :: Ota(s.target) in d.files
    ensures Found(d, v) == TargetsOf(Session.Retained(v.files))
  {
    var r, kept := RtcPlaced(d, v.files), Session.Retained(v.files);
    KeptIsPlain(v, cfg, ts);
    RetainedAre(v.files);
    forall s | s in kept ensures s.staging in r.files {
      assert s.target in TargetSet(kept);
      PlainAside(d, v, cfg, ts, s.target);
    }
    AllStagedTargets(r.files, kept);
  }

  /** UPDATE_COMMIT after a complete transfer, with the power to answer it. */
  lemma FinishedDelivers(was: Files, d: Disk, v: Vars, cfg: Config)
    requires d.Sound() && Committable(v, cfg, TargetSet(v.files)) && AtReply(d, v, cfg).Alive()
    requires (forall s | s in v.files :: Ota(s.target) in d.files) && forall t | t in TargetSet(v.files) :: Same(was, d.files, t)
    ensures Finished(d, v, cfg).1 && Delivered(was, d.files, Finished(d, v, cfg).0.files, cfg, TargetsOf(Session.Retained(v.files)))
  {
    FinishedDeliversStaged(was, d, v, cfg, TargetSet(v.files));
    AllFound(d, v, cfg, TargetSet(v.files));
  }

  /* ---- the helper, the deletions and the flag ---- */

  lemma {:induction false} RtcPower(d: Disk, files: seq<Staged>)
    ensures RtcPlaced(d, files).power <= d.power
    decreases |files|
  {
    if files != [] {
      var s := files[0];
      RtcPower(if IsRtcHelper(s) then Renamed(Removed(d, s.target), s.staging, s.target) else d, files[1..]);
    }
  }

  lemma OneHelperPlaced(d: Disk, s: Staged)
    requires d.Sound() && s.staging == Ota(s.target) && !IsOta(s.target)
    ensures var m := Renamed(Removed(d, s.target), s.staging, s.target);
            && m.Sound() && (s.staging in d.files && m.Alive() ==> s.target in m.files && m.files[s.target] == d.files[s.staging])
            && forall p | p != s.target && p != s.staging :: Same(d.files, m.files, p)
  {
    assert s.staging != s.target;
  }

  /** A staged helper ends up under its own name. */
  lemma {:induction false} HelpersArrive(d: Disk, files: seq<Staged>, cfg: Config, h: Staged)
    requires d.Sound() && Separate(files, cfg) && h in files && IsRtcHelper(h) && h.staging in d.files
    ensures var r := RtcPlaced(d, files); r.Alive() ==> h.target in r.files && r.files[h.target] == d.files[h.staging]
    decreases |files|
  {
    hide IsRtcHelper, IsOta, IsBck, OneLine;
    var s, rest := files[0], files[1..];
    var m := if IsRtcHelper(s) then Renamed(Removed(d, s.target), s.staging, s.target) else d;
    SeparateRest(files, cfg);
    if RtcPlaced(d, files).Alive() {
      RtcPower(m, rest);
      OneHelperPlaced(d, s);
      if h == s {
        RtcPlacedFrame(m, rest);
        NoOtherHelper(files, cfg);
      } else {
        OtherNames(h.target, s.target);
        assert h in rest && Same(d.files, m.files, h.staging) by { SeparateNames(files, cfg, h); }
        HelpersArrive(m, rest, cfg, h);
      }
    }
  }

  lemma SeparateRest(files: seq<Staged>, cfg: Config)
    requires Separate(files, cfg) && files != []
    ensures Separate(files[1..], cfg) && files[0].staging == Ota(files[0].target) && !IsOta(files[0].target)
  {
    var rest := files[1..];
    assert files[0] in files && files[0].target in TargetSet(files);
    assert forall x | x in rest :: x in files;
    assert TargetSet(rest) <= TargetSet(files);
  }

  lemma SeparateNames(files: seq<Staged>, cfg: Config, h: Staged)
    requires Separate(files, cfg) && h in files && h != files[0]
    ensures h in files[1..] && h.target != files[0].target && h.staging == Ota(h.target) && h.staging != files[0].target
  {
    var i :| 0 <= i < |files| && files[i] == h;
    assert files[1..][i - 1] == h;
    assert files[0] in files && files[0].target in TargetSet(files);
  }

  lemma NoOtherHelper(files: seq<Staged>, cfg: Config)
    requires Separate(files, cfg) && files != []
    ensures !HelperPath(files[0].target, files[1..])
  {
    var t := files[0].target;
    assert files[0] in files && t in TargetSet(files);
    forall x | x in files[1..] ensures t != x.target && t != x.staging {
      var i :| 0 <= i < |files[1..]| && files[1..][i] == x;
      assert files[i + 1] == x && x in files;
    }
  }

  /** What the reply promises beyond the retained set: the helper is in place, the
      deleted paths and their copies are gone, and so is the flag. */
  lemma FinishedFinishes(d: Disk, v: Vars, cfg: Config)
    requires d.Sound() && Committable(v, cfg, TargetSet(v.files)) && Separate(v.files, cfg) && AtReply(d, v, cfg).Alive()
    requires forall s | s in v.files :: s.staging in d.files
    ensures var e := Finished(d, v, cfg).0.files;
            && (forall s | s in v.files && IsRtcHelper(s) :: s.target in e && e[s.target] == d.files[s.staging])
            && Gone(e, v.deletes) && (cfg.flag.Some? ==> cfg.flag.value !in e)
  {
    hide RtcPlaced, Committed, IsRtcHelper, Session.Retained, StagedTargets, Ready, Gone;
    var r, kept, ts := RtcPlaced(d, v.files), Session.Retained(v.files), TargetSet(v.files);
    var c := AtReply(d, v, cfg);
    CommitReadies(d, v, cfg, ts);
    CommitCut(r, cfg, kept, v.deletes);
    CommitDeletes(r, cfg, kept, v.deletes);
    GoneFewer(c.files, Finished(d, v, cfg).0.files, v.deletes);
    forall s | s in v.files && IsRtcHelper(s) ensures s.target in c.files && c.files[s.target] == d.files[s.staging] && cfg.flag != Some(s.target) {
      HelpersArrive(d, v.files, cfg, s);
      assert s.target in ts;
      HelperOutside(d, v, cfg, s);
    }
  }

  lemma GoneFewer(f: Files, g: Files, paths: seq<Path>)
    requires Gone(f, paths) && forall p | p in g :: p in f
    ensures Gone(g, paths)
  {}

  lemma HelperOutside(d: Disk, v: Vars, cfg: Config, s: Staged)
    requires d.Sound() && Committable(v, cfg, TargetSet(v.files)) && Separate(v.files, cfg) && s in v.files && IsRtcHelper(s)
    ensures Outside(s.target, cfg, Targets(StagedTargets(RtcPlaced(d, v.files).files, Session.Retained(v.files))), v.deletes)
  {
    hide RtcPlaced, StagedTargets, IsRtcHelper, Session.Retained;
    var ts, kept := TargetSet(v.files), Session.Retained(v.files);
    assert s.target in ts;
    CommitReadies(d, v, cfg, ts);
    RetainedAre(v.files);
    forall x | x in kept ensures x.target != s.target {
      var i :| 0 <= i < |v.files| && v.files[i] == x;
      var j :| 0 <= j < |v.files| && v.files[j] == s;
    }
  }

  /** A commit in which the medium refuses a rename answers so, and has left every target
      as the commit found it. */
  lemma RefusedCommitSaysSo(d: Disk, v: Vars, cfg: Config, f: nat)
    requires var r, kept := RtcPlaced(d, v.files), Session.Retained(v.files);
             && OneFault(r, f) && Ready(r.files, cfg, kept, v.deletes) && Fresh(r.files, Targets(StagedTargets(r.files, kept)))
             && (cfg.flag.Some? ==> cfg.flag.value !in Targets(StagedTargets(r.files, kept)))
    requires AtReply(d, v, cfg).Alive() && f < AtReply(d, v, cfg).renames
    ensures var r := RtcPlaced(d, v.files);
            && !Finished(d, v, cfg).1
            && forall t | t in Found(d, v) :: Same(r.files, Finished(d, v, cfg).0.files, t)
  {
    hide RtcPlaced, Committed, Session.Retained, StagedTargets, Ready, Fresh, OneFault;
    var r, kept := RtcPlaced(d, v.files), Session.Retained(v.files);
    RefusedRenameIsUndone(r, cfg, kept, v.deletes, f);
    forall t | t in Found(d, v) ensures Same(r.files, Finished(d, v, cfg).0.files, t) {
      assert t in Targets(StagedTargets(r.files, kept));
    }
  }
}
