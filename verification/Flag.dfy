/** The update flag as a history variable: it says whether an update was asked for
    and has not been served. */
module Flag {
  import opened Text
  import opened Disks
  import opened Names
  import opened Journals
  import opened Restore
  import opened Healing
  import opened Atomicity
  import opened Sweep
  import opened Window
  import opened Session
  import opened Packets
  import opened Delivery
  import opened Clearing
  import opened Runs
  import opened Freshness
  import opened Marker

  /* ---- removing it ---- */

  /** With the power for one more step the flag goes, and nothing else does. */
  lemma FlagGoes(d: Disk, cfg: Config)
    requires cfg.flag.Some?
    ensures var e := WithoutFlag(d, cfg);
            && (cfg.flag.value in e.files <==> cfg.flag.value in d.files && d.power == 0)
            && (forall p | p != cfg.flag.value :: Same(d.files, e.files, p))
            && WithoutFlag(e, cfg) == e
  {}

  /** A commit that is finished, and a recovery, leave no flag. */
  lemma FinishedUnflags(d: Disk, v: Vars, cfg: Config)
    requires cfg.flag.Some?
    ensures AtReply(d, v, cfg).Alive() ==> cfg.flag.value !in Finished(d, v, cfg).0.files
    ensures Repaired(d, cfg).Alive() ==> cfg.flag.value !in WithoutFlag(Repaired(d, cfg), cfg).files
  {
    hide AtReply, WithoutFlag, Finished, Repaired;
    FlagIsLast(d, v, cfg);
    FlagGoes(AtReply(d, v, cfg), cfg);
    FlagGoes(Repaired(d, cfg), cfg);
  }

  /* ---- the window ---- */

  /** Before its deadline, and before a command resets the board, the window hears an
      UPDATE_REQUEST with the power to write the flag. */
  predicate Heard(d: Disk, cfg: Config, windowMs: int, rounds: seq<Round>)
    decreases |rounds|
  {
    && rounds != [] && rounds[0].elapsed < windowMs && windowMs > 0
    && if rounds[0].admission == Admitted("UPDATE_REQUEST") then d.Alive()
       else var (e, _, reset) := Obeyed(d, cfg, rounds[0].admission); !reset && Heard(e, cfg, windowMs, rounds[1..])
  }

  lemma ObeyedFlags(d: Disk, cfg: Config, admission: Admission)
    requires d.Sound() && Proper(d.files, cfg) && cfg.flag.Some?
    ensures var (e, _, reset) := Obeyed(d, cfg, admission);
            && (cfg.flag.value in e.files <==> cfg.flag.value in d.files || (admission == Admitted("UPDATE_REQUEST") && d.Alive()))
            && (admission == Admitted("UPDATE_REQUEST") ==> reset)
  {
    hide RestoredAll, Foreign, Proper;
    ProperForeign(d.files, cfg, cfg.flag.value);
    RestoredAllSpares(d, cfg, cfg.flag.value);
  }

  lemma {:induction false} ListenedFlag(d: Disk, cfg: Config, windowMs: int, rounds: seq<Round>)
    requires d.Sound() && Proper(d.files, cfg) && cfg.flag.Some?
    ensures var e := Listened(d, cfg, windowMs, rounds).0;
            cfg.flag.value in e.files <==> cfg.flag.value in d.files || Heard(d, cfg, windowMs, rounds)
    decreases |rounds|
  {
    hide Proper, Obeyed;
    if rounds != [] {
      ObeyedFlags(d, cfg, rounds[0].admission);
      ObeyedStaysProper(d, cfg, rounds[0].admission);
      ListenedFlag(Obeyed(d, cfg, rounds[0].admission).0, cfg, windowMs, rounds[1..]);
    }
  }

  /* ---- the session ---- */

  /** A session from `m` that is over, whatever ended it: `y` is the disk that it leaves
      with the flag still on it, and `e` the one without. */
  ghost predicate Over(cfg: Config, m: Disk, talk: Talk, y: Disk, e: Disk) {
    var n := Until(talk.inputs, talk.tools, talk.timeoutMs);
    var (d, v) := After(m, FRESH, cfg, talk.tools, talk.inputs[..n]);
    && n < |talk.inputs| && e == WithoutFlag(y, cfg)
    && if Commits(talk.inputs[n]) then y == AtReply(d, v, cfg)
       else SweptFrom(if talk.inputs[n].Silence? then StagingRemoved(d, v.files) else d, y, cfg.journal)
  }

  /** And it had the power to remove the flag. */
  ghost predicate OverWithPower(cfg: Config, m: Disk, talk: Talk, e: Disk) { exists y :: Over(cfg, m, talk, y, e) && y.Alive() }

  lemma OverSparesFlag(cfg: Config, m: Disk, talk: Talk, y: Disk, e: Disk)
    requires Over(cfg, m, talk, y, e) && m.Sound() && Usable(talk.inputs, cfg)
    requires cfg.flag.Some? && cfg.flag.value !in Doomed(talk.inputs, cfg)
    ensures Same(m.files, y.files, cfg.flag.value)
  {
    hide Vouched, Usable, SweptFrom, Transferred, Targeted, Doomed, After, AtReply, Journalled, Clean, Announced, StagingRemoved;
    var ts, ps, f := Targeted(talk.inputs, cfg), Doomed(talk.inputs, cfg), cfg.flag.value;
    var n := Until(talk.inputs, talk.tools, talk.timeoutMs);
    AtTheEnd(m, cfg, talk.tools, talk.inputs, n);
    UsableNames(talk.inputs, cfg);
    var (d, v) := After(m, FRESH, cfg, talk.tools, talk.inputs[..n]);
    TransferredOwn(m.files, d.files, cfg, f);
    if Commits(talk.inputs[n]) {
      VouchedCommittable(v, cfg, ts, ps);
      VouchedDeletes(v, ts, ps);
      ReplySpares(d, v, cfg, ts, f);
    } else {
      SweepKeepsOwn(d, v, y, cfg, talk.inputs[n], f);
    }
  }

  lemma ReplySpares(d: Disk, v: Vars, cfg: Config, ts: set<Path>, p: Path)
    requires d.Sound() && Committable(v, cfg, ts) && Own(cfg, ts, p) && p !in v.deletes
    ensures Same(d.files, AtReply(d, v, cfg).files, p)
  {
    CommitSparesOwn(d, v, cfg, ts, p);
  }

  lemma WaitingSparesFlag(m: Disk, cfg: Config, talk: Talk)
    requires m.Sound() && Usable(talk.inputs, cfg) && cfg.flag.Some?
    ensures Same(m.files, After(m, FRESH, cfg, talk.tools, talk.inputs).0.files, cfg.flag.value)
  {
    hide Vouched, Usable, Transferred, Targeted, Doomed, After, Journalled, Clean, Announced;
    AtTheEnd(m, cfg, talk.tools, talk.inputs, |talk.inputs|);
    UsableNames(talk.inputs, cfg);
    assert talk.inputs[..|talk.inputs|] == talk.inputs;
    TransferredOwn(m.files, After(m, FRESH, cfg, talk.tools, talk.inputs).0.files, cfg, cfg.flag.value);
  }

  /** A session that is not waiting is over. */
  lemma StepIsOver(cfg: Config, m: Disk, talk: Talk, x: Disk, end: End, e: Disk) returns (y: Disk)
    requires SessionStep(cfg, m, talk, x, end, e) && cfg.flag.Some? && !end.Waiting?
    ensures Over(cfg, m, talk, y, e)
  {
    hide SweptFrom, AtReply, WithoutFlag, StagingRemoved, After, Finished;
    var n := Until(talk.inputs, talk.tools, talk.timeoutMs);
    var (d, v) := After(m, FRESH, cfg, talk.tools, talk.inputs[..n]);
    if Commits(talk.inputs[n]) {
      y := AtReply(d, v, cfg);
      FlagIsLast(d, v, cfg);
      FlagGoes(y, cfg);
    } else {
      y := x;
    }
  }

  lemma SessionFlag(cfg: Config, m: Disk, talk: Talk, x: Disk, end: End, e: Disk)
    requires SessionStep(cfg, m, talk, x, end, e) && m.Sound() && Usable(talk.inputs, cfg)
    requires cfg.flag.Some? && cfg.flag.value !in Doomed(talk.inputs, cfg) && cfg.flag.value in m.files
    ensures cfg.flag.value in e.files <==> !OverWithPower(cfg, m, talk, e)
  {
    hide Over, Usable, Doomed, WithoutFlag, After, SweptFrom, Stopped;
    forall y | Over(cfg, m, talk, y, e) ensures y.Alive() <==> cfg.flag.value !in e.files {
      OverSparesFlag(cfg, m, talk, y, e);
      OverRemoves(cfg, m, talk, y, e);
    }
    if end.Waiting? {
      WaitingIsNotOver(cfg, m, talk, x, e);
      WaitingSparesFlag(m, cfg, talk);
    } else {
      var y := StepIsOver(cfg, m, talk, x, end, e);
    }
  }

  lemma OverRemoves(cfg: Config, m: Disk, talk: Talk, y: Disk, e: Disk)
    requires Over(cfg, m, talk, y, e) && cfg.flag.Some? && cfg.flag.value in y.files
    ensures y.Alive() <==> cfg.flag.value !in e.files
  {
    hide SweptFrom, AtReply, WithoutFlag, After, StagingRemoved;
    FlagGoes(y, cfg);
  }

  lemma WaitingIsNotOver(cfg: Config, m: Disk, talk: Talk, x: Disk, e: Disk)
    requires SessionStep(cfg, m, talk, x, Waiting, e)
    ensures e == After(m, FRESH, cfg, talk.tools, talk.inputs).0 && !OverWithPower(cfg, m, talk, e)
  {
    hide SweptFrom, After, Finished, StagingRemoved;
    assert talk.inputs[..|talk.inputs|] == talk.inputs;
  }

  /* ---- the history ---- */

  /** The boot hears a request in its window. */
  predicate Asked(cfg: Config, d: Disk, talk: Talk) {
    var (s, rolledBack) := Settled(d, cfg);
    !rolledBack && Heard(Marked(s, cfg), cfg, WindowOf(s, cfg), talk.rounds)
  }

  /** The boot serves a session to its end. */
  ghost predicate Closed(cfg: Config, d: Disk, talk: Talk, e: Disk) {
    var (s, rolledBack) := Settled(d, cfg);
    !rolledBack && OverWithPower(cfg, Marked(s, cfg), talk, e)
  }

  /** Was an update asked for that has not been served, or given up in a recovery? */
  ghost function Pending(cfg: Config, events: seq<Event>, ds: seq<Disk>, start: bool): bool
    requires |ds| == |events| + 1
    decreases |events|
  {
    if events == [] then start else
    var n := |events| - 1;
    var before := Pending(cfg, events[..n], ds[..n + 1], start);
    match events[n]
    case Boot(k, talk) => if before then !Closed(cfg, ds[n].Reboot(k), talk, ds[n + 1]) else Asked(cfg, ds[n].Reboot(k), talk)
    case Requesting(k) => before || k > 0
    case Recovering(k) => before && !Repaired(ds[n].Reboot(k), cfg).Alive()
    case _ => before
  }

  /** The event's packets have usable names, and none deletes the flag. */
  ghost predicate Fair(ev: Event, cfg: Config) {
    UsableEvent(ev, cfg) && (ev.Boot? && cfg.flag.Some? ==> cfg.flag.value !in Doomed(ev.talk.inputs, cfg))
  }

  lemma BootFlag(cfg: Config, d: Disk, talk: Talk, e: Disk)
    requires d.Sound() && Proper(d.files, cfg) && BootStep(cfg, d, talk, e) && Usable(talk.inputs, cfg)
    requires cfg.flag.Some? && cfg.flag.value !in Doomed(talk.inputs, cfg) && cfg.flag != Some(cfg.mark)
    ensures cfg.flag.value in e.files
            <==> if cfg.flag.value in d.files then !Closed(cfg, d, talk, e) else Asked(cfg, d, talk)
  {
    hide Proper, Settled, Listened, Heard, SessionStep, WindowOf, Usable, Doomed, Keeps, KeptBackups, OverWithPower;
    SettledSpares(d, cfg, cfg.flag.value);
    MarkedKeepsJournalled(d, cfg);
    var (s, rolledBack) := Settled(d, cfg);
    var m := Marked(s, cfg);
    KeepsProper(d, m, cfg);
    ProperForeign(m.files, cfg, cfg.flag.value);
    if !rolledBack {
      if cfg.flag.value in m.files {
        var x, end :| SessionStep(cfg, m, talk, x, end, e);
        SessionFlag(cfg, m, talk, x, end, e);
      } else {
        ListenedFlag(m, cfg, WindowOf(s, cfg), talk.rounds);
        var (l, _, reset) := Listened(m, cfg, WindowOf(s, cfg), talk.rounds);
        assert !Orphan(cfg.flag.value, KeptBackups(l.files, cfg.journal));
        assert !reset ==> Same(l.files, e.files, cfg.flag.value);
      }
    }
  }

  lemma StepFlag(cfg: Config, d: Disk, e: Disk, ev: Event)
    requires d.Sound() && Proper(d.files, cfg) && Step(cfg, ev, d, e) && Fair(ev, cfg)
    requires cfg.flag.Some? && cfg.flag != Some(cfg.mark)
    ensures cfg.flag.value in e.files <==>
              match ev
              case Boot(k, talk) =>
                if cfg.flag.value in d.files then !Closed(cfg, d.Reboot(k), talk, e) else Asked(cfg, d.Reboot(k), talk)
              case Requesting(k) => cfg.flag.value in d.files || k > 0
              case Recovering(k) => cfg.flag.value in d.files && !Repaired(d.Reboot(k), cfg).Alive()
              case _ => cfg.flag.value in d.files
  {
    hide BootStep, Closed, Asked, Usable, Doomed, Repaired, RestoredAll, Proper, Foreign;
    ProperForeign(d.files, cfg, cfg.flag.value);
    match ev
    case Boot(k, talk) => BootFlag(cfg, d.Reboot(k), talk, e);
    case RollingBack(k) => RestoredAllSpares(d.Reboot(k), cfg, cfg.flag.value);
    case Recovering(k) =>
      RepairSpares(d.Reboot(k), cfg, cfg.flag.value);
      FlagGoes(Repaired(d.Reboot(k), cfg), cfg);
    case Requesting(k) =>
    case Confirming(k) =>
    case Polling(k) =>
    case Asking =>
  }

  /** Over any run under usable names, whatever windows and sessions receive and wherever
      the power fails, the flag is there exactly when an update was asked for, in a
      window or by the application, with the power to note it, and since then neither a
      session has been served to its end nor a recovery made with the power to drop it. */
  lemma {:induction false} FlagIsHistory(cfg: Config, events: seq<Event>, ds: seq<Disk>)
    requires Runs.Run(cfg, events, ds) && ds[0].Sound() && Proper(ds[0].files, cfg) && forall ev | ev in events :: Fair(ev, cfg)
    requires cfg.flag.Some? && cfg.flag != Some(cfg.mark)
    ensures cfg.flag.value in ds[|events|].files <==> Pending(cfg, events, ds, cfg.flag.value in ds[0].files)
    decreases |events|
  {
    hide Step, Proper, UsableEvent, Closed, Asked, Doomed;
    if events != [] {
      var n := |events| - 1;
      assert events[n] in events && forall ev | ev in events[..n] :: ev in events;
      FlagIsHistory(cfg, events[..n], ds[..n + 1]);
      RunStaysProper(cfg, events[..n], ds[..n + 1]);
      StepFlag(cfg, ds[n], ds[n + 1], events[n]);
    }
  }
}
