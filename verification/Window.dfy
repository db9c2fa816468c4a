/** What a boot does before it serves an update session or sweeps: repair and trial,
    the marker, and the recovery window. */
module Window {
  import opened Text
  import opened Disks
  import opened Names
  import opened Journals
  import opened Restore
  import Auth
  import Counters

  /* ---- the device's own files ---- */

  function OwnPaths(cfg: Config): set<Path> {
    {cfg.journal, cfg.mark} + match cfg.flag case Some(flag) => {flag} case None => {}
  }

  /** A file of the device's own: no target, not the journal, and no copy of a target. */
  predicate Own(cfg: Config, ts: set<Path>, p: Path) {
    p !in ts && p != cfg.journal && !IsBck(p) && !IsOta(p)
  }

  /** No target and none of its copies is the journal or a file of the device's own. */
  ghost predicate OwnApart(cfg: Config, ts: set<Path>) {
    Apart(ts, cfg.journal) && Own(cfg, ts, cfg.mark) && (cfg.flag.Some? ==> Own(cfg, ts, cfg.flag.value))
  }

  /** The boot marker: written once, and only when the wide window is enabled. */
  function Marked(d: Disk, cfg: Config): Disk {
    if cfg.recoveryMs <= 0 || cfg.mark in d.files then d else Written(d, cfg.mark, "1")
  }

  /** The marker cleared by the first `poll` or `mark_application_alive`. */
  function Unmarked(d: Disk, cfg: Config): Disk { if cfg.recoveryMs <= 0 then d else Removed(d, cfg.mark) }

  /** `repair` and `trial`: what every boot does first. */
  function Settled(d: Disk, cfg: Config): (Disk, bool) { Tried(Repaired(d, cfg), cfg) }

  /** The marker: tested before it is written. */
  method MarkBoot(fs: FileSystem, cfg: Config) returns (had: bool)
    modifies fs
    ensures fs.disk == Marked(old(fs.disk), cfg)
    ensures had <==> cfg.recoveryMs > 0 && cfg.mark in old(fs.disk.files)
  {
    had := false;
    if cfg.recoveryMs > 0 {
      had := fs.Exists(cfg.mark);
      if !had { fs.Write(cfg.mark, "1"); }
    }
  }

  /* ---- the recovery window ---- */

  /** What one round makes of its packet: nothing, when there is none or it is blank or
      no UTF-8; a reply of the gate; or a command. */
  datatype Admission = Unheard | Denied(reply: string) | Admitted(command: string)

  /** One round of the window, with the clock since it opened. */
  datatype Round = Round(elapsed: int, admission: Admission)

  datatype Answer = Rebooting | Answered(reply: Reply) | Refused | Rejected(text: string)

  function Flagged(d: Disk, cfg: Config): Disk {
    match cfg.flag case Some(flag) => Written(d, flag, "1") case None => d
  }

  /** The arm of one round: what it answers, and whether it resets the board. */
  function Obeyed(d: Disk, cfg: Config, admission: Admission): (Disk, seq<Answer>, bool) {
    match admission
    case Unheard => (d, [], false)
    case Denied(text) => (d, [Rejected(text)], false)
    case Admitted(c) =>
      if c == "UPDATE_REQUEST" then (Flagged(d, cfg), [Rebooting], true)
      else if c == "ROLLBACK" then
        var (e, n) := RolledBack(d, cfg);
        (e, [Answered(if n == BUSY then RollbackBusy else if n == 0 then RollbackNone else RollbackOk)], n > 0)
      else (d, [Refused], false)
  }

  lemma ObeyedLeaves(d: Disk, cfg: Config, admission: Admission)
    ensures var (e, _, _) := Obeyed(d, cfg, admission); e == d || e == Flagged(d, cfg) || e == RolledBack(d, cfg).0
  {}

  /** The disk that the window leaves, what it answered, and whether it asked for a
      reset. The deadline is absolute: no activity extends it. */
  function Listened(d: Disk, cfg: Config, windowMs: int, rounds: seq<Round>): (Disk, seq<Answer>, bool)
    decreases |rounds|
  {
    if windowMs <= 0 || rounds == [] || rounds[0].elapsed >= windowMs then (d, [], false) else
    var (e, answers, reset) := Obeyed(d, cfg, rounds[0].admission);
    if reset then (e, answers, true) else
    var (f, more, later) := Listened(e, cfg, windowMs, rounds[1..]);
    (f, answers + more, later)
  }

  ghost predicate InTime(windowMs: int, rounds: seq<Round>) { windowMs > 0 && forall r | r in rounds :: r.elapsed < windowMs }

  lemma Continued(a: seq<Answer>, b: seq<Answer>, c: seq<Answer>)
    ensures a + b + c == a + (b + c) && [] + c == c && c + [] == c
  {}

  /** Rounds in time are served one after the other, until one resets the board. */
  lemma {:induction false} ListenedSplit(d: Disk, cfg: Config, windowMs: int, a: seq<Round>, b: seq<Round>)
    requires InTime(windowMs, a)
    ensures var (e, answers, reset) := Listened(d, cfg, windowMs, a);
            var (f, more, later) := Listened(e, cfg, windowMs, b);
            Listened(d, cfg, windowMs, a + b) == if reset then (e, answers, true) else (f, answers + more, later)
    decreases |a|
  {
    hide Obeyed;
    if a == [] {
      assert a + b == b;
      Continued([], [], Listened(d, cfg, windowMs, b).1);
    } else {
      var (e, answers, reset) := Obeyed(d, cfg, a[0].admission);
      assert (a + b)[0] == a[0] && (a + b)[1..] == a[1..] + b && a[0] in a;
      if !reset {
        ListenedSplit(e, cfg, windowMs, a[1..], b);
        var (m, more, _) := Listened(e, cfg, windowMs, a[1..]);
        Continued(answers, more, Listened(m, cfg, windowMs, b).1);
      }
    }
  }

  /** A round in time is served; the first one at or after the deadline closes the window,
      whatever comes behind it. */
  lemma DeadlineIsAbsolute(d: Disk, cfg: Config, windowMs: int, a: seq<Round>, r: Round, b: seq<Round>)
    requires InTime(windowMs, a) && !Listened(d, cfg, windowMs, a).2
    ensures var (e, answers, _) := Listened(d, cfg, windowMs, a);
            var (f, more, reset) := Obeyed(e, cfg, r.admission);
            && (r.elapsed < windowMs ==> Listened(d, cfg, windowMs, a + [r]) == (f, answers + more, reset))
            && (r.elapsed >= windowMs ==> Listened(d, cfg, windowMs, a + ([r] + b)) == (e, answers, false))
  {
    hide Obeyed;
    var (e, answers, _) := Listened(d, cfg, windowMs, a);
    ListenedSplit(d, cfg, windowMs, a, [r]);
    ListenedSplit(d, cfg, windowMs, a, [r] + b);
    Continued([], [], answers);
    var (f, more, reset) := Obeyed(e, cfg, r.admission);
    Continued([], [], more);
    if r.elapsed < windowMs {
      assert Listened(f, cfg, windowMs, []) == (f, [], false);
      assert [r][1..] == [];
      assert Listened(e, cfg, windowMs, [r]) == (f, more, reset);
    } else {
      assert ([r] + b)[0] == r;
      assert Listened(e, cfg, windowMs, [r] + b) == (e, [], false);
    }
  }

  /** Each packet that the window hears is answered once, and one that it does not serve
      changes nothing; only an update request and a rollback that succeeds reset the board. */
  lemma OneAnswerEach(d: Disk, cfg: Config, admission: Admission)
    ensures var (e, answers, reset) := Obeyed(d, cfg, admission);
            && |answers| == (if admission.Unheard? then 0 else 1)
            && (answers == [Rebooting] <==> admission == Admitted("UPDATE_REQUEST"))
            && (answers == [Refused] <==> admission.Admitted? && admission.command !in ["UPDATE_REQUEST", "ROLLBACK"])
            && (admission.Denied? ==> answers == [Rejected(admission.reply)])
            && (reset <==> answers == [Rebooting] || answers == [Answered(RollbackOk)])
            && (admission !in [Admitted("UPDATE_REQUEST"), Admitted("ROLLBACK")] ==> e == d)
            && (admission == Admitted("ROLLBACK") ==>
                  && (answers == [Answered(RollbackBusy)] <==> ReadJournal(d.files, cfg.journal).state == Committing)
                  && (answers == [Answered(RollbackOk)] <==>
                        ReadJournal(d.files, cfg.journal).state != Committing && RestoredCount(d, ReadJournal(d.files, cfg.journal).paths) > 0))
  {
    hide RestoredAll, ReadJournal;
    NoneToRestore(d, ReadJournal(d.files, cfg.journal).paths);
  }

  lemma {:induction false} NoneToRestore(d: Disk, paths: seq<Path>)
    ensures !AnyBackup(d.files, paths) ==> RestoredCount(d, paths) == 0
    decreases |paths|
  {
    if paths != [] && !AnyBackup(d.files, paths) {
      assert Bck(paths[0]) !in d.files;
      forall i | 0 <= i < |paths[1..]| ensures Bck(paths[1..][i]) !in d.files { assert paths[1..][i] == paths[i + 1]; }
      NoneToRestore(d, paths[1..]);
    }
  }

  /* ---- the gate in front of it ---- */

  /** What arrives in one round, if anything. */
  datatype Arrival = Arrival(elapsed: int, raw: Option<string>)

  datatype Checks = Checks(crypto: Auth.Crypto, key: Option<Auth.Bytes>, requireAuth: bool, validText: string -> bool)

  /** The verdict on one packet, and the highest counter accepted after it. */
  function Admit(c: Checks, guard: int, raw: Option<string>): (Admission, int) {
    if raw.None? then (Unheard, guard) else
    var p := Strip(raw.value);
    if p == "" || (HighBit(p) && !c.validText(p)) then (Unheard, guard)
    else if !c.requireAuth then (Admitted(p), guard)
    else match Auth.Judged(c.crypto, c.key, guard, p)
      case Accept(command) => (Admitted(command), Auth.Open(p).counter)
      case Refuse(reply) => (Denied(reply), guard)
  }

  /** What the window hears: any packet that is not blank and no broken UTF-8, and with
      authentication on only a genuine one, whose counter is then the highest. */
  lemma AdmittedIff(c: Checks, guard: int, raw: Option<string>)
    requires c.crypto.Lawful()
    ensures var (admission, later) := Admit(c, guard, raw);
            && (admission.Admitted?
                <==> raw.Some? && var p := Strip(raw.value);
                     p != "" && ((forall b | b in p :: b as int < 128) || c.validText(p))
                     && (c.requireAuth ==> Auth.Genuine(c.crypto, c.key, guard, p)))
            && (admission.Admitted? && !c.requireAuth ==> admission.command == Strip(raw.value))
            && (admission.Admitted? && c.requireAuth ==>
                  later > guard && Auth.Sealed(c.crypto, c.key.value, Strip(raw.value), later, admission.command))
            && (!admission.Admitted? || !c.requireAuth ==> later == guard)
  {
    hide Strip;
    if raw.Some? {
      var p := Strip(raw.value);
      if !HighBit(p) { forall b | b in p ensures b as int < 128 { var i :| 0 <= i < |p| && p[i] == b; } }
      else { var i :| 0 <= i < |p| && p[i] as int >= 128; assert p[i] in p; }
      Auth.AcceptsGenuine(c.crypto, c.key, guard, p);
      if c.key.Some? && Auth.Open(p).Opened? { Auth.OpenedSealed(c.crypto, c.key.value, p); }
    }
  }

  function Rounds(c: Checks, guard: int, arrivals: seq<Arrival>): (r: seq<Round>)
    ensures |r| == |arrivals|
    decreases |arrivals|
  {
    if arrivals == [] then [] else
    var (admission, later) := Admit(c, guard, arrivals[0].raw);
    [Round(arrivals[0].elapsed, admission)] + Rounds(c, later, arrivals[1..])
  }

  /** Does the packet carry a command with a counter of its own and the tag of both? */
  ghost predicate Heeds(crypto: Auth.Crypto, configured: string, last: int, raw: Option<string>) {
    raw.Some? && Auth.Genuine(crypto, Auth.KeyFromHex(configured), last, Strip(raw.value))
  }

  /** Nothing that arrives in time is genuine. */
  ghost predicate Forged(crypto: Auth.Crypto, configured: string, last: int, windowMs: int, arrivals: seq<Arrival>) {
    crypto.Lawful() && forall a | a in arrivals && a.elapsed < windowMs :: !Heeds(crypto, configured, last, a.raw)
  }

  /** One packet through the UTF-8 check and, if configured, the gate. */
  method Hear(gate: Counters.AuthGate, requireAuth: bool, validText: string -> bool, raw: Option<string>) returns (admission: Admission)
    requires gate.Valid() && Counters.Current(gate.lastSeen, gate.floor.text) >= 0
    modifies gate
    ensures gate.Valid()
    ensures (admission, Counters.Current(gate.lastSeen, gate.floor.text))
            == Admit(Checks(gate.crypto, Auth.KeyFromHex(gate.configured), requireAuth, validText),
                     Counters.Current(old(gate.lastSeen), gate.floor.text), raw)
    ensures Counters.Current(gate.lastSeen, gate.floor.text) >= Counters.Current(old(gate.lastSeen), gate.floor.text)
    ensures !requireAuth ==> gate.lastSeen == old(gate.lastSeen)
    ensures requireAuth && admission.Admitted? ==> gate.lastSeen.Some?
    ensures requireAuth && gate.crypto.Lawful()
            && !Heeds(gate.crypto, gate.configured, Counters.Current(old(gate.lastSeen), gate.floor.text), raw) ==>
              && !admission.Admitted?
              && Counters.Current(gate.lastSeen, gate.floor.text) == Counters.Current(old(gate.lastSeen), gate.floor.text)
  {
    if raw.None? { return Unheard; }
    var packet := Strip(raw.value);
    if packet == "" { return Unheard; }
    if HighBit(packet) && !validText(packet) { return Unheard; }
    if !requireAuth { return Admitted(packet); }
    var verdict := gate.Authenticate(packet);
    match verdict {
      case Accept(command) => return Admitted(command);
      case Refuse(reply) => return Denied(reply);
    }
  }

  /** The window, from packets off the link. Every reset it commands leaves the guard's
      counter, if there is a guard, in the floor file, as far as that can be written. */
  method Listen(fs: FileSystem, cfg: Config, gate: Counters.AuthGate, requireAuth: bool, validText: string -> bool,
                windowMs: int, arrivals: seq<Arrival>, write: Counters.FloorWrite) returns (answers: seq<Answer>, reset: bool)
    requires gate.Valid() && Counters.Current(gate.lastSeen, gate.floor.text) >= 0
    modifies fs, gate, gate.floor
    ensures gate.Valid()
    ensures var checks := Checks(gate.crypto, Auth.KeyFromHex(gate.configured), requireAuth, validText);
            (fs.disk, answers, reset)
            == Listened(old(fs.disk), cfg, windowMs,
                        Rounds(checks, Counters.Current(old(gate.lastSeen), old(gate.floor.text)), arrivals))
    ensures gate.floor.text == if reset then Counters.Floored(gate.lastSeen, old(gate.floor.text), write) else old(gate.floor.text)
    ensures !requireAuth ==> gate.lastSeen == old(gate.lastSeen)
    ensures requireAuth && reset ==> gate.lastSeen.Some?
    ensures requireAuth && Forged(gate.crypto, gate.configured, Counters.Current(old(gate.lastSeen), old(gate.floor.text)), windowMs, arrivals) ==>
              && fs.disk == old(fs.disk) && !reset
              && Counters.Current(gate.lastSeen, gate.floor.text) == Counters.Current(old(gate.lastSeen), old(gate.floor.text))
  {
    hide RestoredAll, RestoredCount, AnyBackup, ReadJournal, Admit, Heeds;
    ghost var forged := requireAuth
      && Forged(gate.crypto, gate.configured, Counters.Current(gate.lastSeen, gate.floor.text), windowMs, arrivals);
    answers, reset := [], false;
    if windowMs <= 0 { return; }
    ghost var checks := Checks(gate.crypto, Auth.KeyFromHex(gate.configured), requireAuth, validText);
    ghost var all := Rounds(checks, Counters.Current(gate.lastSeen, gate.floor.text), arrivals);
    var i := 0;
    assert arrivals[0..] == arrivals;
    Continued([], [], Listened(fs.disk, cfg, windowMs, all).1);
    while i < |arrivals| && arrivals[i].elapsed < windowMs
      invariant i <= |arrivals| && !reset
      invariant gate.Valid() && gate.floor.text == old(gate.floor.text) && Counters.Current(gate.lastSeen, gate.floor.text) >= 0
      invariant !requireAuth ==> gate.lastSeen == old(gate.lastSeen)
      invariant forged ==> fs.disk == old(fs.disk)
                           && Counters.Current(gate.lastSeen, gate.floor.text) == Counters.Current(old(gate.lastSeen), old(gate.floor.text))
      invariant var (d, more, r) := Listened(fs.disk, cfg, windowMs,
                                             Rounds(checks, Counters.Current(gate.lastSeen, gate.floor.text), arrivals[i..]));
                Listened(old(fs.disk), cfg, windowMs, all) == (d, answers + more, r)
    {
      ghost var now := Rounds(checks, Counters.Current(gate.lastSeen, gate.floor.text), arrivals[i..]);
      var admission := Hear(gate, requireAuth, validText, arrivals[i].raw);
      ghost var rest := Rounds(checks, Counters.Current(gate.lastSeen, gate.floor.text), arrivals[i + 1..]);
      assert arrivals[i..][1..] == arrivals[i + 1..];
      assert now[0] == Round(arrivals[i].elapsed, admission) && now[1..] == rest;
      i := i + 1;
      var more;
      more, reset := Obey(fs, cfg, admission);
      Continued(answers, more, Listened(fs.disk, cfg, windowMs, rest).1);
      answers := answers + more;
      if reset {
        assert answers + [] == answers;
        gate.PersistFloor(write);
        return;
      }
    }
    assert answers + [] == answers;
  }

  method Obey(fs: FileSystem, cfg: Config, admission: Admission) returns (answers: seq<Answer>, reset: bool)
    modifies fs
    ensures (fs.disk, answers, reset) == Obeyed(old(fs.disk), cfg, admission)
  {
    hide RestoredAll, RestoredCount, AnyBackup, ReadJournal;
    match admission {
      case Unheard => return [], false;
      case Denied(text) => return [Rejected(text)], false;
      case Admitted(c) =>
        if c == "UPDATE_REQUEST" {
          if cfg.flag.Some? { fs.Write(cfg.flag.value, "1"); }
          return [Rebooting], true;
        } else if c == "ROLLBACK" {
          var reply, restored := RollbackResult(fs, cfg);
          return [Answered(reply)], restored > 0;
        } else {
          return [Refused], false;
        }
    }
  }

  /* ---- which window ---- */

  /** Which window a boot without a pending update opens. */
  function WindowMs(cfg: Config, hadMark: bool, state: Label): int {
    var wide := if hadMark || state != Stable then cfg.recoveryMs else 0;
    if wide > 0 then wide else cfg.listenMs
  }

  /** The window of a boot that has got past its trial with disk `s`. */
  function WindowOf(s: Disk, cfg: Config): int {
    WindowMs(cfg, cfg.recoveryMs > 0 && cfg.mark in s.files, StateLabel(Marked(s, cfg).files, cfg.journal))
  }
}
