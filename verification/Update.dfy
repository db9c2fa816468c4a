/** The update command as the host runs it against the device's session: what
    COMMIT_OK means, and what is left when the power fails anywhere on the way. */
module Update {
  import opened Text
  import opened Disks
  import opened Names
  import opened Journals
  import opened Restore
  import opened Atomicity
  import opened CrashSafety
  import opened Clearing
  import opened Session
  import opened Host
  import opened Conversation
  import opened Delivery
  import opened Outages
  import opened Packets
  import opened Freshness

  /* ---- the conversation ---- */

  /** Everything the host's checks and the device's configuration settle before
      the first message. */
  ghost predicate Prepared(device: UpdateSession, manifest: seq<Entry>, deletes: seq<string>)
    reads device.fs
  {
    var cfg, tools := device.cfg, device.tools;
    && Faithful(tools) && Addressable(manifest, cfg)
    && (forall e | e in manifest :: Sendable(tools, e)) && (forall p | p in deletes :: Deletable(tools, p))
    && Separate(Pairs(manifest, cfg), cfg) && Harmonious(cfg, TargetSet(Pairs(manifest, cfg)), Resolved(deletes, cfg))
    && device.fs.disk.Sound() && Booted(device.fs.disk.files, cfg)
  }

  /** The files that are retained: all but the one-shot helper. */
  function Kept(manifest: seq<Entry>, cfg: Config): seq<Staged> { Session.Retained(Pairs(manifest, cfg)) }

  /** The manifest is on the device: each file but the helper holds the host's
      bytes with its old content retained, and the trial stands at zero. */
  ghost predicate Installed(was: Files, now: Files, cfg: Config, manifest: seq<Entry>) {
    && ReadJournal(now, cfg.journal) == Journal(0, Trial, TargetsOf(Kept(manifest, cfg)))
    && forall i | 0 <= i < |manifest| ::
         var t := TargetOf(manifest[i], cfg);
         BaseName(t) != RTC_HELPER ==>
           && t in now && now[t] == manifest[i].content
           && (t in was ==> Bck(t) in now && now[Bck(t)] == was[t])
  }

  /** The one-shot helper, if the manifest has it, holds the host's bytes, and the paths
      to delete, their copies and the flag are gone. */
  ghost predicate Completed(now: Files, cfg: Config, manifest: seq<Entry>, deletes: seq<string>) {
    && (forall i | 0 <= i < |manifest| ::
          var t := TargetOf(manifest[i], cfg);
          BaseName(t) == RTC_HELPER ==> t in now && now[t] == manifest[i].content)
    && Gone(now, Resolved(deletes, cfg)) && (cfg.flag.Some? ==> cfg.flag.value !in now)
  }

  lemma FinishedCompletes(d: Disk, v: Vars, cfg: Config, manifest: seq<Entry>, deletes: seq<string>)
    requires d.Sound() && Committable(v, cfg, TargetSet(v.files)) && AtReply(d, v, cfg).Alive()
    requires v.files == Pairs(manifest, cfg) && v.deletes == Resolved(deletes, cfg) && Separate(v.files, cfg)
    requires StagedUpTo(d, cfg, manifest, |manifest|)
    ensures Completed(Finished(d, v, cfg).0.files, cfg, manifest, deletes)
  {
    hide Finished, AtReply, Gone, Separate, Committable, Resolved;
    PoweredReply(d, v, cfg);
    StagedPairs(d, cfg, manifest);
    FinishedFinishes(d, v, cfg);
    forall i | 0 <= i < |manifest| && BaseName(TargetOf(manifest[i], cfg)) == RTC_HELPER
      ensures var t, e := TargetOf(manifest[i], cfg), Finished(d, v, cfg).0.files; t in e && e[t] == manifest[i].content
    {
      var s := v.files[i];
      assert s in v.files && IsRtcHelper(s);
    }
  }

  /** Every target that existed, but the helper's, holds its old content. */
  ghost predicate OldInPlace(was: Files, now: Files, cfg: Config, manifest: seq<Entry>) {
    forall i | 0 <= i < |manifest| ::
      var t := TargetOf(manifest[i], cfg);
      BaseName(t) != RTC_HELPER && t in was ==> t in now && now[t] == was[t]
  }

  /** Whatever interrupted repairs follow, the next complete one finds the manifest
      installed or the old contents in place. */
  ghost predicate Survives(was: Files, d: Disk, cfg: Config, manifest: seq<Entry>) {
    forall budgets: seq<nat>, last: nat :: SurvivesOne(was, d, cfg, manifest, budgets, last)
  }

  ghost predicate SurvivesOne(was: Files, d: Disk, cfg: Config, manifest: seq<Entry>, budgets: seq<nat>, last: nat) {
    var e := AfterRepairs(d, cfg, budgets, last);
    e.Alive() ==> Installed(was, e.files, cfg, manifest) || OldInPlace(was, e.files, cfg, manifest)
  }

  lemma OldIsInPlace(was: Files, now: Files, cfg: Config, manifest: seq<Entry>)
    requires OldContent(was, now, Plain(TargetSet(Pairs(manifest, cfg))))
    ensures OldInPlace(was, now, cfg, manifest)
  {
    forall i | 0 <= i < |manifest| && BaseName(TargetOf(manifest[i], cfg)) != RTC_HELPER && TargetOf(manifest[i], cfg) in was
      ensures var t := TargetOf(manifest[i], cfg); t in now && now[t] == was[t]
    {
      var s := Pairs(manifest, cfg)[i];
      assert s in Pairs(manifest, cfg) && s.target in TargetSet(Pairs(manifest, cfg));
    }
  }

  lemma CommitSurvives(was: Files, d: Disk, v: Vars, cfg: Config, manifest: seq<Entry>)
    requires d.Sound() && Steady(d.files, cfg) && Committable(v, cfg, TargetSet(v.files))
    requires v.files == Pairs(manifest, cfg) && StagedUpTo(d, cfg, manifest, |manifest|) && (d.Alive() ==> Clean(d.files, cfg))
    requires forall t | t in TargetSet(v.files) :: Same(was, d.files, t)
    ensures Survives(was, Finished(d, v, cfg).0, cfg, manifest)
  {
    var f, ts := Finished(d, v, cfg).0, TargetSet(v.files);
    if d.Alive() {
      StagedPairs(d, cfg, manifest);
      AllFound(d, v, cfg, ts);
    }
    forall budgets: seq<nat>, last: nat ensures SurvivesOne(was, f, cfg, manifest, budgets, last) {
      var e := AfterRepairs(f, cfg, budgets, last);
      if e.Alive() {
        FinishedSurvives(was, d, v, cfg, ts, budgets, last);
        if OldContent(was, e.files, Plain(ts)) {
          OldIsInPlace(was, e.files, cfg, manifest);
        } else {
          DeliveredIsInstalled(was, d, e.files, cfg, manifest);
        }
      }
    }
  }

  /** A session that never came to its commit. */
  lemma AbortSurvives(was: Files, e: Disk, cfg: Config, manifest: seq<Entry>)
    requires FirmwareUntouched(was, e.files, cfg) && Booted(was, cfg) && Separate(Pairs(manifest, cfg), cfg)
    ensures Survives(was, e, cfg, manifest)
  {
    UntouchedSteady(was, e.files, cfg);
    forall i | 0 <= i < |manifest| ensures Same(was, e.files, TargetOf(manifest[i], cfg)) {
      var s := Pairs(manifest, cfg)[i];
      assert s in Pairs(manifest, cfg) && s.target in TargetSet(Pairs(manifest, cfg));
    }
    forall budgets: seq<nat>, last: nat ensures SurvivesOne(was, e, cfg, manifest, budgets, last) {
      SteadyOutcome(e, cfg, budgets, last);
    }
  }

  lemma DeliveredIsInstalled(was: Files, d: Disk, now: Files, cfg: Config, manifest: seq<Entry>)
    requires Delivered(was, d.files, now, cfg, TargetsOf(Kept(manifest, cfg)))
    requires StagedUpTo(d, cfg, manifest, |manifest|) && d.Alive()
    ensures Installed(was, now, cfg, manifest)
  {
    forall i | 0 <= i < |manifest| && BaseName(TargetOf(manifest[i], cfg)) != RTC_HELPER
      ensures var t := TargetOf(manifest[i], cfg);
        && t in now && now[t] == manifest[i].content
        && (t in was ==> Bck(t) in now && now[Bck(t)] == was[t])
    {
      var s := Pairs(manifest, cfg)[i];
      assert s in Pairs(manifest, cfg);
      RetainedAre(Pairs(manifest, cfg));
      assert s in Kept(manifest, cfg) && s.target in TargetSet(Kept(manifest, cfg));
    }
  }

  lemma PoweredReply(d: Disk, v: Vars, cfg: Config)
    requires d.Sound() && AtReply(d, v, cfg).Alive()
    ensures d.Alive()
  {
    if !d.Alive() {
      RtcPlacedFrame(d, v.files);
      var r, kept := RtcPlaced(d, v.files), Session.Retained(v.files);
      var d1 := WroteJournal(r, cfg, COMMITTING, StagedTargets(r.files, kept));
      CommitDies(r, cfg, kept, v.deletes);
    }
  }

  lemma StagedPairs(d: Disk, cfg: Config, manifest: seq<Entry>)
    requires StagedUpTo(d, cfg, manifest, |manifest|) && d.Alive()
    ensures forall s | s in Pairs(manifest, cfg) :: Ota(s.target) in d.files && s.staging in d.files
  {}

  /** `_update_files` against the device's session. A `true` result is a COMMIT_OK
      the host has seen, and means that the manifest is installed, even if the power
      goes before the flag is removed: `committed` is the disk when the device sends
      it. Before the
      commit message has gone out, every failure is followed by UPDATE_ABORT and
      leaves the firmware as it was. However the power failed on the way, and however
      often it fails in the repairs that follow, the next complete repair finds the
      new files or the old ones. And it keeps what the next update needs: every
      retained copy is journalled, and the journal names no more than it did or
      targets of the manifest. */
  method UpdateFiles(device: UpdateSession, manifest: seq<Entry>, deletes: seq<string>, total: nat, chunkSize: nat, envs: nat -> Env)
    returns (ok: bool, commitSent: bool, ghost committed: Disk)
    requires Good(device.fs.disk, device.Now()) && device.Now() == FRESH && chunkSize > 0
    requires Prepared(device, manifest, deletes)
    modifies device, device.fs
    ensures ok ==> commitSent
    ensures ok && committed.Alive() ==> Installed(old(device.fs.disk.files), device.fs.disk.files, device.cfg, manifest)
    ensures ok && committed.Alive() ==> Completed(device.fs.disk.files, device.cfg, manifest, deletes)
    ensures Untroubled(envs) && Placeable(old(device.fs.disk.files), manifest, device.cfg) && envs(0).free * 2 >= total * 3 ==>
              old(device.fs.disk.power) > UpdateCost(old(device.fs.disk.files), device.cfg, manifest, deletes, chunkSize) ==>
                ok && committed.Alive()
    ensures commitSent ==> device.fs.disk == WithoutFlag(committed, device.cfg)
    ensures !commitSent ==> FirmwareUntouched(old(device.fs.disk.files), device.fs.disk.files, device.cfg)
    ensures !commitSent && device.fs.disk.Alive() ==> forall p | p in device.fs.disk.files :: !IsOta(p)
    ensures Survives(old(device.fs.disk.files), device.fs.disk, device.cfg, manifest)
    ensures Carries(old(device.fs.disk), device.fs.disk, device.cfg, TargetSet(Pairs(manifest, device.cfg)))
    ensures Journalled(device.fs.disk.files, device.cfg)
  {
    ghost var was, d0, ts := device.fs.disk.files, device.fs.disk, TargetSet(Pairs(manifest, device.cfg));
    ok := Transfer(device, manifest, deletes, total, chunkSize, envs);
    commitSent, committed := ok, device.fs.disk;
    if !ok {
      AbortUpdate(device, was, d0);
      CarriesWider(d0, device.fs.disk, device.cfg, ts);
      AbortSurvives(was, device.fs.disk, device.cfg, manifest);
      return;
    }
    ok, committed := SendCommit(device, manifest, deletes, envs(0), d0);
  }

  lemma CommitCarries(d0: Disk, d: Disk, v: Vars, cfg: Config, ts: set<Path>)
    requires Keeps(d0, d, cfg) && Journalled(d0.files, cfg) && d.Sound() && Committable(v, cfg, ts) && (d.Alive() ==> Clean(d.files, cfg))
    ensures var e := Finished(d, v, cfg).0; Carries(d0, e, cfg, ts) && Journalled(e.files, cfg)
  {
    hide Finished, Committable;
    FinishedJournals(d, v, cfg, ts);
    CarriesThen(d0, d, Finished(d, v, cfg).0, cfg, ts);
  }

  /** UPDATE_COMMIT after a complete transfer, and its answer. */
  method SendCommit(device: UpdateSession, manifest: seq<Entry>, deletes: seq<string>, env: Env, ghost d0: Disk)
    returns (ok: bool, ghost committed: Disk)
    requires Good(device.fs.disk, device.Now()) && Faithful(device.tools) && device.fs.disk.Sound() && Booted(d0.files, device.cfg)
    requires device.Now() == Vars(Pairs(manifest, device.cfg), Resolved(deletes, device.cfg), None, "", "")
    requires Committable(device.Now(), device.cfg, TargetSet(Pairs(manifest, device.cfg)))
    requires Transferred(d0.files, device.fs.disk.files, device.cfg) && Keeps(d0, device.fs.disk, device.cfg)
    requires StagedUpTo(device.fs.disk, device.cfg, manifest, |manifest|)
    requires forall t | t in TargetSet(Pairs(manifest, device.cfg)) :: Same(d0.files, device.fs.disk.files, t)
    requires Separate(Pairs(manifest, device.cfg), device.cfg)
    requires device.fs.disk.Alive() ==> Clean(device.fs.disk.files, device.cfg)
    modifies device, device.fs
    ensures ok && committed.Alive() ==> Installed(d0.files, device.fs.disk.files, device.cfg, manifest)
    ensures ok && committed.Alive() ==> Completed(device.fs.disk.files, device.cfg, manifest, deletes)
    ensures old(device.fs.disk.power) > CommitCost(|manifest|, |deletes|) ==> ok && committed.Alive()
    ensures device.fs.disk == WithoutFlag(committed, device.cfg)
    ensures Survives(d0.files, device.fs.disk, device.cfg, manifest)
    ensures Carries(d0, device.fs.disk, device.cfg, TargetSet(Pairs(manifest, device.cfg)))
    ensures Journalled(device.fs.disk.files, device.cfg)
  {
    hide Good, Transferred, Clean, Steady, Installed, Survives, StagedUpTo, Finished, Committable, Delivered,
      Keeps, Carries, Journalled, AtReply, WithoutFlag, Separate, Completed;
    ghost var d, v, cfg := device.fs.disk, device.Now(), device.cfg;
    ghost var ts := TargetSet(Pairs(manifest, cfg));
    BareMessage(device.tools, "UPDATE_COMMIT");
    var reply, end := device.Receive("UPDATE_COMMIT", env);
    ok := reply == "COMMIT_OK";
    TransferredUntouched(d0.files, d.files, cfg);
    UntouchedSteady(d0.files, d.files, cfg);
    CommitSurvives(d0.files, d, v, cfg, manifest);
    CommitCarries(d0, d, v, cfg, ts);
    committed := AtReply(d, v, cfg);
    FlagIsLast(d, v, cfg);
    if d.power > CommitCost(|manifest|, |deletes|) { ReplyLasts(d, v, cfg); }
    if committed.Alive() {
      FinishedCompletes(d, v, cfg, manifest, deletes);
      PoweredReply(d, v, cfg);
      StagedPairs(d, cfg, manifest);
      FinishedDelivers(d0.files, d, v, cfg);
      DeliveredIsInstalled(d0.files, d, device.fs.disk.files, cfg, manifest);
    }
  }

  method AbortUpdate(device: UpdateSession, ghost was: Files, ghost d0: Disk)
    requires Good(device.fs.disk, device.Now()) && Transferred(was, device.fs.disk.files, device.cfg)
    requires Keeps(d0, device.fs.disk, device.cfg) && !IsBck(device.cfg.journal) && !IsOta(device.cfg.journal)
    modifies device, device.fs
    ensures FirmwareUntouched(was, device.fs.disk.files, device.cfg)
    ensures device.fs.disk.Alive() ==> forall p | p in device.fs.disk.files :: !IsOta(p)
    ensures Keeps(d0, device.fs.disk, device.cfg)
  {
    ghost var d := device.fs.disk;
    BareMessage(device.tools, "UPDATE_ABORT");
    var reply, end := device.Receive("UPDATE_ABORT", Env(0, None, None));
    SweptUntouched(was, d, device.fs.disk, device.cfg);
    SweepKeepsJournalled(d, device.fs.disk, device.cfg);
    KeepsThen(d0, d, device.fs.disk, device.cfg);
  }

  /* ---- what an undisturbed update needs ---- */

  /** The flash steps of UPDATE_START, of the transfer and of the commit. */
  function ClearingCost(files: Files, cfg: Config): nat { |ReadJournal(files, cfg.journal).paths| + 1 }

  function CommitCost(files: nat, deletes: nat): nat { 2 + 3 * files + 2 * deletes }

  function UpdateCost(files: Files, cfg: Config, manifest: seq<Entry>, deletes: seq<string>, chunkSize: nat): nat
    requires chunkSize > 0
  {
    ClearingCost(files, cfg) + ManifestCost(manifest, chunkSize) + CommitCost(|manifest|, |deletes|)
  }

  lemma {:induction false} ClearingPower(d: Disk, paths: seq<Path>)
    ensures RemovedBackups(d, paths).power + |paths| >= d.power
    ensures forall p | p in RemovedBackups(d, paths).files :: p in d.files
    decreases |paths|
  {
    if paths != [] { ClearingPower(Removed(d, Bck(paths[0])), paths[1..]); }
  }

  lemma {:induction false} DeletedCost(d: Disk, paths: seq<Path>)
    ensures Deleted(d, paths).power + 2 * |paths| >= d.power
    decreases |paths|
  {
    if paths != [] { DeletedCost(Removed(Removed(d, paths[0]), Bck(paths[0])), paths[1..]); }
  }

  lemma {:induction false} PlacedCost(d: Disk, staged: seq<Staged>)
    ensures Placed(d, staged).disk.power + 3 * |staged| >= d.power
    decreases |staged|
  {
    if staged != [] {
      var one := PlacedOne(d, staged[0]);
      assert one.disk.power + 3 >= d.power;
      if one.ok { PlacedCost(one.disk, staged[1..]); }
    }
  }

  lemma {:induction false} HelperCost(d: Disk, files: seq<Staged>)
    ensures RtcPlaced(d, files).power + 3 * (|files| - |Session.Retained(files)|) >= d.power
    ensures |Session.Retained(files)| <= |files|
    decreases |files|
  {
    if files != [] {
      var s := files[0];
      HelperCost(if IsRtcHelper(s) then Renamed(Removed(d, s.target), s.staging, s.target) else d, files[1..]);
    }
  }

  /** With the power for the steps of a commit, and a medium that refuses no rename, it
      comes to its end. */
  lemma CommitLasts(d: Disk, cfg: Config, staged: seq<Staged>, deletes: seq<Path>)
    requires d.Sound() && Ready(d.files, cfg, staged, deletes) && d.power > CommitCost(|staged|, |deletes|)
    ensures Committed(d, cfg, staged, deletes).0.power + CommitCost(|staged|, |deletes|) >= d.power
  {
    hide Placed, Deleted, StagedTargets, JournalText, Ready;
    var d1 := WroteJournal(d, cfg, COMMITTING, StagedTargets(d.files, staged));
    PlacedCost(d1, staged);
    CommitPlaces(d, cfg, staged, deletes);
    DeletedCost(Placed(d1, staged).disk, deletes);
  }

  lemma ReplyLasts(d: Disk, v: Vars, cfg: Config)
    requires d.Sound() && Committable(v, cfg, TargetSet(v.files)) && d.power > CommitCost(|v.files|, |v.deletes|)
    ensures AtReply(d, v, cfg).Alive()
  {
    hide RtcPlaced, Committed, Session.Retained, Committable, Ready;
    HelperCost(d, v.files);
    CommitReadies(d, v, cfg, TargetSet(v.files));
    CommitLasts(RtcPlaced(d, v.files), cfg, Session.Retained(v.files), v.deletes);
  }

  lemma PlaceableFewer(f: Files, g: Files, manifest: seq<Entry>, cfg: Config)
    requires Placeable(f, manifest, cfg) && forall p | p in g :: p in f
    ensures Placeable(g, manifest, cfg)
  {
    hide TargetOf;
  }

  /** The manifest announcement, the files and the deletions. */
  method Transfer(device: UpdateSession, manifest: seq<Entry>, deletes: seq<string>, total: nat, chunkSize: nat, envs: nat -> Env)
    returns (ok: bool)
    requires Good(device.fs.disk, device.Now()) && device.Now() == FRESH && chunkSize > 0
    requires Prepared(device, manifest, deletes)
    modifies device, device.fs
    ensures Good(device.fs.disk, device.Now()) && Transferred(old(device.fs.disk.files), device.fs.disk.files, device.cfg)
    ensures device.fs.disk.Sound() && Keeps(old(device.fs.disk), device.fs.disk, device.cfg)
    ensures ok ==> device.Now() == Vars(Pairs(manifest, device.cfg), Resolved(deletes, device.cfg), None, "", "")
    ensures ok ==> StagedUpTo(device.fs.disk, device.cfg, manifest, |manifest|)
    ensures ok ==> forall s | s in Pairs(manifest, device.cfg) :: Same(old(device.fs.disk.files), device.fs.disk.files, s.target)
    ensures ok && device.fs.disk.Alive() ==> Clean(device.fs.disk.files, device.cfg)
    ensures Untroubled(envs) && Placeable(old(device.fs.disk.files), manifest, device.cfg) && envs(0).free * 2 >= total * 3 ==>
              old(device.fs.disk.power) > UpdateCost(old(device.fs.disk.files), device.cfg, manifest, deletes, chunkSize) ==>
                ok && device.fs.disk.power > CommitCost(|manifest|, |deletes|)
  {
    ghost var was, d0 := device.fs.disk.files, device.fs.disk;
    ok := Announce(device, |manifest|, total, envs(0));
    if !ok { return; }
    ghost var d := device.fs.disk;
    if Placeable(was, manifest, device.cfg) { PlaceableFewer(was, d.files, manifest, device.cfg); }
    var n;
    ok, n := SendManifest(device, manifest, chunkSize, envs, 1);
    CleanKept(d.files, device.fs.disk.files, device.cfg);
    StagingKeepsJournalled(d, device.fs.disk, device.cfg);
    KeepsThen(d0, d, device.fs.disk, device.cfg);
    TransferredOn(was, d.files, device.fs.disk.files, device.cfg);
    if !ok { return; }
    ok, n := SendDeletes(device, deletes, envs, n);
  }

  method Announce(device: UpdateSession, count: nat, total: nat, env: Env) returns (ok: bool)
    requires Good(device.fs.disk, device.Now()) && device.Now() == FRESH && device.fs.disk.Sound()
    requires !IsBck(device.cfg.journal) && !IsOta(device.cfg.journal) && Journalled(device.fs.disk.files, device.cfg)
    modifies device, device.fs
    ensures Good(device.fs.disk, device.Now()) && Transferred(old(device.fs.disk.files), device.fs.disk.files, device.cfg)
    ensures device.Now() == FRESH && device.fs.disk.Sound() && Keeps(old(device.fs.disk), device.fs.disk, device.cfg)
    ensures ok && device.fs.disk.Alive() ==> Clean(device.fs.disk.files, device.cfg)
    ensures ok <==> env.free * 2 >= total * 3
    ensures device.fs.disk.power + ClearingCost(old(device.fs.disk.files), device.cfg) >= old(device.fs.disk.power)
    ensures forall p | p in device.fs.disk.files :: p in old(device.fs.disk.files)
  {
    ghost var d, cfg := device.fs.disk, device.cfg;
    ClearingPower(d, ReadJournal(d.files, cfg.journal).paths);
    UpdateStartPasses(device.tools, count, total);
    UpdateStartFields(count, total);
    UpdateStartTurn(d, FRESH, cfg, device.tools, count, total, env);
    assert Transferred(d.files, d.files, cfg);
    StartKeeps(d.files, d, cfg);
    ClearJournalCleans(d, cfg);
    ClearedBackups(d, ReadJournal(d.files, cfg.journal).paths, cfg.journal);
    var reply, end := device.Receive(UpdateStartMessage(count, total), env);
    ok := reply == "SPACE_OK";
  }
}
