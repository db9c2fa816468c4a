/** The runtime command surface where it changes what the next boot finds: the
    commands that reset the board, and the ones about the update candidate. */
module Commands {
  import opened Text
  import opened Disks
  import opened Journals
  import opened Restore
  import Auth
  import opened Counters
  import Window
  import Runs

  /** What a command does: the disk it leaves, its reply, and whether the board is
      reset. */
  datatype Outcome = Outcome(disk: Disk, reply: Option<string>, reset: bool)

  function StateReply(state: Label): string {
    match state
    case OnTrial(n) => "STATE_OK:trial:" + IntText(n)
    case Stable => "STATE_OK:stable:" + IntText(0)
  }

  function RollbackReply(reply: Reply): string {
    match reply
    case RollbackOk => "ROLLBACK_OK"
    case RollbackBusy => "ROLLBACK_ERR:Commit in flight"
    case RollbackNone => "ROLLBACK_ERR:Nothing to roll back"
  }

  /** The commands whose arms are modelled. */
  predicate Modelled(command: string) {
    Split(command, ':')[0] in ["PING", "RB", "SR", "UPDATE_REQUEST", "CONFIRM", "UPDATE_STATE", "ROLLBACK"]
  }

  function Obeyed(d: Disk, cfg: Config, command: string): Outcome
    requires Modelled(command)
  {
    var cmd := Split(command, ':')[0];
    if cmd == "PING" then Outcome(d, Some("PONG"), false)
    else if cmd == "RB" then Outcome(d, Some("RB_OK"), true)
    else if cmd == "SR" then Outcome(d, Some("SR_OK"), true)
    else if cmd == "UPDATE_REQUEST" then Outcome(Window.Flagged(d, cfg), Some("REBOOTING"), true)
    else if cmd == "CONFIRM" then
      var busy := ReadJournal(d.files, cfg.journal).state == Committing;
      Outcome(ConfirmedDisk(d, cfg), Some(if busy then "CONFIRM_ERR" else "CONFIRM_OK"), false)
    else if cmd == "UPDATE_STATE" then Outcome(d, Some(StateReply(StateLabel(d.files, cfg.journal))), false)
    else
      var (e, n) := RolledBack(d, cfg);
      Outcome(e, Some(RollbackReply(if n == BUSY then RollbackBusy else if n == 0 then RollbackNone else RollbackOk)), n > 0)
  }

  class Runtime {
    const fs: FileSystem
    const cfg: Config
    const gate: AuthGate
    const requireAuth: bool

    constructor (fs: FileSystem, cfg: Config, gate: AuthGate, requireAuth: bool)
      ensures this.fs == fs && this.cfg == cfg && this.gate == gate && this.requireAuth == requireAuth
    {
      this.fs, this.cfg, this.gate, this.requireAuth := fs, cfg, gate, requireAuth;
    }

    /** The arm of a command, without the reset. The other commands never reset the
        board; what else they do is not part of this model. */
    method Obey(command: string) returns (reply: Option<string>, reset: bool)
      modifies fs
      ensures Modelled(command) ==> Outcome(fs.disk, reply, reset) == Obeyed(old(fs.disk), cfg, command)
      ensures !Modelled(command) ==> !reset
    {
      var cmd := Split(command, ':')[0];
      reset := false;
      if cmd == "PING" {
        reply := Some("PONG");
      } else if cmd == "RB" {
        reply, reset := Some("RB_OK"), true;
      } else if cmd == "SR" {
        reply, reset := Some("SR_OK"), true;
      } else if cmd == "UPDATE_REQUEST" {
        if cfg.flag.Some? { fs.Write(cfg.flag.value, "1"); }
        reply, reset := Some("REBOOTING"), true;
      } else if cmd == "CONFIRM" {
        var ok := Confirm(fs, cfg);
        reply := Some(if ok then "CONFIRM_OK" else "CONFIRM_ERR");
      } else if cmd == "UPDATE_STATE" {
        reply := Some(StateReply(StateLabel(fs.disk.files, cfg.journal)));
      } else if cmd == "ROLLBACK" {
        var answer, restored := RollbackResult(fs, cfg);
        reply, reset := Some(RollbackReply(answer)), restored > 0;
      } else {
        reply := None;
      }
    }

    /** One command off the link. With authentication on, a command that the gate
        refuses reaches neither the disk nor the floor, and every reset that is
        commanded leaves the guard's counter in the floor file. */
    method Poll(text: string, write: FloorWrite) returns (reply: Option<string>, reset: bool)
      requires gate.Valid() && Current(gate.lastSeen, gate.floor.text) >= 0
      modifies fs, gate, gate.floor
      ensures gate.Valid()
      ensures var verdict := Auth.Judged(gate.crypto, Auth.KeyFromHex(gate.configured),
                                         Current(old(gate.lastSeen), old(gate.floor.text)), text);
              if requireAuth && verdict.Refuse?
              then fs.disk == old(fs.disk) && reply == Some(verdict.reply) && !reset
              else
                var command := if requireAuth then verdict.command else text;
                if Modelled(command) then Outcome(fs.disk, reply, reset) == Obeyed(old(fs.disk), cfg, command) else !reset
      ensures gate.floor.text == if reset then Floored(gate.lastSeen, old(gate.floor.text), write) else old(gate.floor.text)
      ensures !requireAuth ==> gate.lastSeen == old(gate.lastSeen)
      ensures requireAuth && reset ==> gate.lastSeen == Some(Auth.Open(text).counter)
      ensures requireAuth && gate.crypto.Lawful()
              && !Auth.Genuine(gate.crypto, Auth.KeyFromHex(gate.configured), Current(old(gate.lastSeen), old(gate.floor.text)), text) ==>
                && fs.disk == old(fs.disk) && !reset
                && Current(gate.lastSeen, gate.floor.text) == Current(old(gate.lastSeen), old(gate.floor.text))
    {
      reset := false;
      var command := text;
      if requireAuth {
        var verdict := gate.Authenticate(text);
        if verdict.Refuse? { return Some(verdict.reply), false; }
        command := verdict.command;
      }
      reply, reset := Obey(command);
      if reset { gate.PersistFloor(write); }
    }
  }

  /** The event of the run theorems that a modelled command is. */
  function EventOf(command: string, k: nat): Runs.Event {
    var cmd := Split(command, ':')[0];
    if cmd == "UPDATE_REQUEST" then Runs.Requesting(k)
    else if cmd == "CONFIRM" then Runs.Confirming(k)
    else if cmd == "ROLLBACK" then Runs.RollingBack(k)
    else Runs.Asking
  }

  /** So what those theorems say of a run holds of commands over the link; and the board
      is reset by RB, SR and UPDATE_REQUEST, and by a ROLLBACK exactly when it answers OK. */
  lemma CommandsAreEvents(d: Disk, cfg: Config, command: string, k: nat)
    requires Modelled(command)
    ensures var ev := EventOf(command, k);
            var d' := if ev.Asking? then d else d.Reboot(k);
            var o := Obeyed(d', cfg, command);
            && Runs.Step(cfg, ev, d, o.disk)
            && (o.reset <==> Split(command, ':')[0] in ["RB", "SR", "UPDATE_REQUEST"] || o.reply == Some("ROLLBACK_OK"))
  {
    assert "ROLLBACK_OK"[9] == 'O' && "ROLLBACK_ERR:Commit in flight"[9] == 'E' && "ROLLBACK_ERR:Nothing to roll back"[9] == 'E';
    assert "STATE_OK:trial:"[0] == 'S' && "STATE_OK:stable:"[0] == 'S' && "CONFIRM_OK"[0] == 'C' && "CONFIRM_ERR"[0] == 'C';
    hide RestoredAll, RestoredCount, AnyBackup, ReadJournal, Split, IntText;
  }

  /** CONFIRM answers OK exactly when no commit is marked, and then the candidate, if there
      is one and power to write, is off its trial; otherwise nothing changes. A ROLLBACK
      that does not answer OK says whether a commit stands in its way. */
  lemma AnswersAreHonest(d: Disk, cfg: Config, command: string)
    requires Modelled(command) && AllOneLine(ReadJournal(d.files, cfg.journal).paths)
    ensures var o, cmd, j := Obeyed(d, cfg, command), Split(command, ':')[0], ReadJournal(d.files, cfg.journal);
            && o.reply.Some?
            && (cmd == "CONFIRM" ==> (o.reply == Some("CONFIRM_OK") <==> j.state != Committing))
            && (cmd == "CONFIRM" && j.state != Committing && d.Alive() ==> ReadJournal(o.disk.files, cfg.journal) == Journal(if j.state == Trial then 0 else j.attempt, Confirmed, j.paths))
            && (cmd == "CONFIRM" && j.state == Committing ==> o.disk == d)
            && (cmd == "ROLLBACK" ==> (o.reply == Some("ROLLBACK_ERR:Commit in flight") <==> j.state == Committing))
  {
    assert "CONFIRM_OK"[8] == 'O' && "CONFIRM_ERR"[8] == 'E';
    assert "ROLLBACK_OK"[9] == 'O' && "ROLLBACK_ERR:Commit in flight"[13] == 'C' && "ROLLBACK_ERR:Nothing to roll back"[13] == 'N';
    hide RestoredAll, RestoredCount, AnyBackup, Split, IntText, ParseJournal, JournalText;
    JournalRoundTrip(Confirmed, 0, ReadJournal(d.files, cfg.journal).paths);
  }

  /** What the guard had accepted up to a commanded reset is refused after it if and
      only if the floor could hold the guard's counter: the gate accepts counters of
      any size, but a floor beyond 32 bits reads as 0. */
  lemma ResetRefusesThePast(crypto: Auth.Crypto, key: Auth.Bytes, guard: int, floor: Option<string>, text: string)
    requires guard >= 0 && Auth.Open(text).Opened? && 0 < Auth.Open(text).counter <= guard
    requires Auth.Judged(crypto, Some(key), Auth.Open(text).counter - 1, text).Accept?
    ensures Auth.Judged(crypto, Some(key), Current(None, Floored(Some(guard), floor, Complete)), text) == Auth.Refuse("ERROR:Replayed")
            <==> guard <= Auth.U32_MAX
  {
    ParseIntText(guard);
  }

  /** A command that resets the board cannot be sent to it again. */
  lemma ResetIsNotRepeated(crypto: Auth.Crypto, key: Auth.Bytes, last: int, floor: Option<string>, text: string)
    requires last >= 0 && Auth.Judged(crypto, Some(key), last, text).Accept? && Auth.Open(text).counter <= Auth.U32_MAX
    ensures var n := Auth.Open(text).counter;
            Auth.Judged(crypto, Some(key), Current(None, Floored(Some(n), floor, Complete)), text) == Auth.Refuse("ERROR:Replayed")
  {
    ParseIntText(Auth.Open(text).counter);
  }
}
