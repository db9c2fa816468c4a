/** Streaming file copies at run time: CP_START, CP_CHUNK, CP_END and CP_ABORT. */
module FileCopy {
  import opened Text
  import opened Disks

  /** What the session takes from elsewhere. `canReplace` tells whether the platform
      has `os.replace`; without it a copy is committed by renames. */
  datatype Tools = Tools(decode: string -> Option<Content>, hexHash: Content -> string, allowed: Path -> bool, canReplace: bool)

  /** What the platform answers while one command is handled. */
  datatype Env = Env(free: Option<int>, openError: Option<string>, writeError: Option<string>, closeError: Option<string>)

  /** An active copy. `hashed` is what its digest covers so far. */
  datatype Copy = Copy(target: Path, staging: Path, digest: string, hashed: Content, size: int, written: nat, sequence: nat)

  datatype Turn = Turn(disk: Disk, copy: Option<Copy>, reply: string)

  predicate IsError(reply: string) { "ERROR:" <= reply }

  function Failure(message: string): (reply: string)
    ensures IsError(reply)
  {
    "ERROR:" + message
  }

  function Staging(target: Path): Path { target + ".cp" }

  function Backup(target: Path): Path { target + ".bak" }

  /* ---- committing ---- */

  function Fallback(d: Disk, target: Path, staging: Path): (Disk, bool) {
    var a := Removed(d, Backup(target));
    var had, b := CanRename(a, target, Backup(target)), Renamed(a, target, Backup(target));
    var ok, c := CanRename(b, staging, target), Renamed(b, staging, target);
    if !ok then (if had then Renamed(c, Backup(target), target) else c, false)
    else (if had then Removed(c, Backup(target)) else c, true)
  }

  function Placed(d: Disk, tools: Tools, target: Path, staging: Path): (Disk, bool) {
    if tools.canReplace then (Replaced(d, staging, target), CanReplace(d, staging)) else Fallback(d, target, staging)
  }

  /* ---- the commands ---- */

  function Dropped(d: Disk, copy: Option<Copy>): Disk {
    if copy.None? then d else Removed(d, copy.value.staging)
  }

  function OnStart(d0: Disk, copy: Option<Copy>, tools: Tools, command: string, env: Env): Turn {
    var d, fields := Dropped(d0, copy), SplitMax(command, ':', 3);
    if |fields| < 4 || fields[1] == "" then Turn(d, None, Failure("Invalid copy start")) else
    var size := ParseInt(fields[2]);
    if size.None? || size.value < 0 || |fields[3]| != 64 then Turn(d, None, Failure("Invalid copy metadata"))
    else if !tools.allowed(fields[1]) then Turn(d, None, Failure("Forbidden path"))
    else if env.free.Some? && env.free.value < size.value then Turn(d, None, Failure("Insufficient storage"))
    else
      var clean := Removed(d, Staging(fields[1]));
      if env.openError.Some? then Turn(clean, None, Failure(env.openError.value))
      else Turn(Written(clean, Staging(fields[1]), ""),
                Some(Copy(fields[1], Staging(fields[1]), fields[3], "", size.value, 0, 0)), "CP_READY")
  }

  function OnChunk(d: Disk, copy: Option<Copy>, tools: Tools, command: string, env: Env): Turn {
    var fields := SplitMax(command, ':', 2);
    if copy.None? then Turn(d, None, Failure("No active copy"))
    else if |fields| < 3 then Turn(Dropped(d, copy), None, Failure("Invalid copy chunk"))
    else
      var c := copy.value;
      match (ParseInt(fields[1]), tools.decode(fields[2]))
      case (None, _) => Turn(Dropped(d, copy), None, Failure(""))
      case (Some(n), data) =>
        if n != c.sequence then Turn(Dropped(d, copy), None, Failure("Unexpected chunk sequence"))
        else if data.None? then Turn(Dropped(d, copy), None, Failure(""))
        else if c.written + |data.value| > c.size then Turn(Dropped(d, copy), None, Failure("Copy exceeds declared size"))
        else if env.writeError.Some? then Turn(Dropped(d, copy), None, Failure(env.writeError.value))
        else Turn(Appended(d, c.staging, data.value),
                  Some(c.(hashed := c.hashed + data.value, written := c.written + |data.value|, sequence := c.sequence + 1)),
                  "CP_ACK:" + IntText(n))
  }

  function OnEnd(d: Disk, copy: Option<Copy>, tools: Tools, env: Env): Turn {
    if copy.None? then Turn(d, None, Failure("No active copy")) else
    var c := copy.value;
    if env.closeError.Some? then Turn(Dropped(d, copy), None, Failure(env.closeError.value))
    else if c.written != c.size then Turn(Dropped(d, copy), None, Failure("Copy size mismatch"))
    else if tools.hexHash(c.hashed) != c.digest then Turn(Dropped(d, copy), None, Failure("Copy checksum mismatch"))
    else
      var (e, ok) := Placed(d, tools, c.target, c.staging);
      if ok then Turn(e, None, "CP_OK") else Turn(Dropped(e, copy), None, Failure(""))
  }

  function Name(command: string): string { SplitMax(command, ':', 1)[0] }

  function Handled(d: Disk, copy: Option<Copy>, tools: Tools, command: string, env: Env): Turn {
    var name := Name(command);
    if name == "CP_START" then OnStart(d, copy, tools, command, env)
    else if name == "CP_CHUNK" then OnChunk(d, copy, tools, command, env)
    else if name == "CP_END" then OnEnd(d, copy, tools, env)
    else if name == "CP_ABORT" then Turn(Dropped(d, copy), None, "CP_ABORTED")
    else Turn(d, copy, Failure("Unknown copy command"))
  }

  class CopySession {
    const fs: FileSystem
    const tools: Tools
    /** The flat state list on the core, while a copy is in progress. */
    var copy: Option<Copy>

    constructor (fs: FileSystem, tools: Tools)
      ensures this.fs == fs && this.tools == tools && copy == None
    {
      this.fs, this.tools, this.copy := fs, tools, None;
    }

    method ClearState()
      modifies this, fs
      ensures copy == None && fs.disk == Dropped(old(fs.disk), old(copy))
    {
      if copy.None? { return; }
      fs.Remove(copy.value.staging);
      copy := None;
    }

    method Start(command: string, env: Env) returns (reply: string)
      modifies this, fs
      ensures Turn(fs.disk, copy, reply) == OnStart(old(fs.disk), old(copy), tools, command, env)
    {
      ClearState();
      var fields := SplitMax(command, ':', 3);
      if |fields| < 4 || fields[1] == "" { return Failure("Invalid copy start"); }
      var size := ParseInt(fields[2]);
      if size.None? || size.value < 0 || |fields[3]| != 64 { return Failure("Invalid copy metadata"); }
      var target := fields[1];
      if !tools.allowed(target) { return Failure("Forbidden path"); }
      var staging := Staging(target);
      if env.free.Some? && env.free.value < size.value { return Failure("Insufficient storage"); }
      fs.Remove(staging);
      if env.openError.Some? { return Failure(env.openError.value); }
      fs.Write(staging, "");
      copy := Some(Copy(target, staging, fields[3], "", size.value, 0, 0));
      reply := "CP_READY";
    }

    method Chunk(command: string, env: Env) returns (reply: string)
      modifies this, fs
      ensures Turn(fs.disk, copy, reply) == OnChunk(old(fs.disk), old(copy), tools, command, env)
    {
      var fields := SplitMax(command, ':', 2);
      if copy.None? { return Failure("No active copy"); }
      if |fields| < 3 {
        ClearState();
        return Failure("Invalid copy chunk");
      }
      var c := copy.value;
      var sequence := ParseInt(fields[1]);
      if sequence.None? {
        ClearState();
        return Failure("");
      }
      if sequence.value != c.sequence {
        ClearState();
        return Failure("Unexpected chunk sequence");
      }
      var data := tools.decode(fields[2]);
      if data.None? {
        ClearState();
        return Failure("");
      }
      if c.written + |data.value| > c.size {
        ClearState();
        return Failure("Copy exceeds declared size");
      }
      if env.writeError.Some? {
        ClearState();
        return Failure(env.writeError.value);
      }
      fs.Append(c.staging, data.value);
      copy := Some(c.(hashed := c.hashed + data.value, written := c.written + |data.value|, sequence := c.sequence + 1));
      reply := "CP_ACK:" + IntText(sequence.value);
    }

    method Commit(target: Path, staging: Path) returns (ok: bool)
      modifies fs
      ensures (fs.disk, ok) == Placed(old(fs.disk), tools, target, staging)
    {
      if tools.canReplace {
        ok := fs.Replace(staging, target);
        return;
      }
      var backup := Backup(target);
      fs.Remove(backup);
      var hadTarget := fs.Rename(target, backup);
      ok := fs.Rename(staging, target);
      if !ok {
        if hadTarget { var _ := fs.Rename(backup, target); }
        return;
      }
      if hadTarget { fs.Remove(backup); }
    }

    method End(env: Env) returns (reply: string)
      modifies this, fs
      ensures Turn(fs.disk, copy, reply) == OnEnd(old(fs.disk), old(copy), tools, env)
    {
      if copy.None? { return Failure("No active copy"); }
      var c := copy.value;
      if env.closeError.Some? {
        ClearState();
        return Failure(env.closeError.value);
      }
      if c.written != c.size {
        ClearState();
        return Failure("Copy size mismatch");
      }
      if tools.hexHash(c.hashed) != c.digest {
        ClearState();
        return Failure("Copy checksum mismatch");
      }
      var ok := Commit(c.target, c.staging);
      if !ok {
        ClearState();
        return Failure("");
      }
      copy := None;
      reply := "CP_OK";
    }

    method Handle(command: string, env: Env) returns (reply: string)
      modifies this, fs
      ensures Turn(fs.disk, copy, reply) == Handled(old(fs.disk), old(copy), tools, command, env)
    {
      var name := SplitMax(command, ':', 1)[0];
      if name == "CP_START" {
        reply := Start(command, env);
      } else if name == "CP_CHUNK" {
        reply := Chunk(command, env);
      } else if name == "CP_END" {
        reply := End(env);
      } else if name == "CP_ABORT" {
        ClearState();
        reply := "CP_ABORTED";
      } else {
        reply := Failure("Unknown copy command");
      }
    }
  }

  /* ---- the ledger: what a listener of the conversation knows ---- */

  /** An acknowledged start and the chunks acknowledged since. */
  datatype Open = Open(target: Path, size: int, digest: string, chunks: seq<Content>)

  datatype Ledger = Ledger(files: Files, open: Option<Open>)

  function Whole(chunks: seq<Content>): Content {
    if chunks == [] then "" else Whole(chunks[..|chunks| - 1]) + chunks[|chunks| - 1]
  }

  /** The listener's bookkeeping: a file changes when CP_END is answered CP_OK, and
      then it is the concatenation of the acknowledged chunks. */
  function Noted(l: Ledger, decode: string -> Option<Content>, command: string, reply: string): Ledger {
    var name := Name(command);
    if name == "CP_START" then
      var fields := SplitMax(command, ':', 3);
      if reply == "CP_READY" && |fields| == 4 && ParseInt(fields[2]).Some?
      then l.(open := Some(Open(fields[1], ParseInt(fields[2]).value, fields[3], [])))
      else l.(open := None)
    else if name == "CP_CHUNK" then
      var fields := SplitMax(command, ':', 2);
      if l.open.Some? && |fields| == 3 && decode(fields[2]).Some? && reply == "CP_ACK:" + NatText(|l.open.value.chunks|)
      then l.(open := Some(l.open.value.(chunks := l.open.value.chunks + [decode(fields[2]).value])))
      else l.(open := None)
    else if name == "CP_END" then
      if l.open.Some? && reply == "CP_OK"
      then Ledger(l.files[l.open.value.target := Whole(l.open.value.chunks)], None)
      else l.(open := None)
    else if name == "CP_ABORT" then l.(open := None)
    else l
  }

  /** The device agrees with the ledger on every path that is no working file. */
  ghost predicate Agrees(d: Disk, copy: Option<Copy>, l: Ledger) {
    && (forall p | !Working(p) :: (p in d.files <==> p in l.files) && (p in d.files ==> d.files[p] == l.files[p]))
    && (copy.Some? <==> l.open.Some?)
    && (copy.Some? ==> Backed(d, copy.value, l.open.value))
  }

  predicate Working(p: Path) { EndsWith(p, ".cp") || EndsWith(p, ".bak") }

  ghost predicate Backed(d: Disk, c: Copy, o: Open) {
    && c.target == o.target && c.staging == Staging(c.target) && c.size == o.size && c.digest == o.digest
    && c.hashed == Whole(o.chunks) && c.written == |c.hashed| <= c.size && c.sequence == |o.chunks|
    && c.staging in d.files && d.files[c.staging] == c.hashed
  }

  /** The medium would move the target aside, and then refuse both the new file and
      the way back. */
  predicate TwiceRefused(d: Disk, target: Path) {
    target in d.files && d.renames !in d.bad && d.renames + 1 in d.bad && d.renames + 2 in d.bad
  }

  /** A commit that fails can be taken back. */
  predicate Forgiving(d: Disk, tools: Tools, target: Path) { tools.canReplace || !TwiceRefused(d, target) }

  /** The file that a CP_END is about to commit. */
  function Committing(copy: Option<Copy>, tools: Tools, command: string, env: Env): Option<Path> {
    if copy.None? || Name(command) != "CP_END" || env.closeError.Some? then None else
    var c := copy.value;
    if c.written == c.size && tools.hexHash(c.hashed) == c.digest then Some(c.target) else None
  }

  /** No commit that the command makes fails beyond repair. */
  predicate Forgiven(d: Disk, copy: Option<Copy>, tools: Tools, command: string, env: Env) {
    var target := Committing(copy, tools, command, env);
    target.Some? ==> Forgiving(d, tools, target.value)
  }

  /** What the listener may conclude from an answer that is no error: chunks are
      acknowledged in order and within the declared size, and CP_OK means that
      length and digest are as declared. */
  ghost predicate Vouched(l: Ledger, tools: Tools, command: string, reply: string) {
    IsError(reply) ||
    var name := Name(command);
    && (name == "CP_CHUNK" ==>
          var fields := SplitMax(command, ':', 2);
          && l.open.Some? && |fields| == 3 && tools.decode(fields[2]).Some?
          && reply == "CP_ACK:" + NatText(|l.open.value.chunks|)
          && |Whole(l.open.value.chunks)| + |tools.decode(fields[2]).value| <= l.open.value.size)
    && (name == "CP_END" ==>
          && l.open.Some? && reply == "CP_OK" && |Whole(l.open.value.chunks)| == l.open.value.size
          && tools.hexHash(Whole(l.open.value.chunks)) == l.open.value.digest)
  }

  /* ---- one command ---- */

  lemma Suffixes(t: Path)
    ensures Working(Staging(t)) && Working(Backup(t)) && Staging(t) != Backup(t) && Staging(t) != t && Backup(t) != t
  {
    assert Staging(t)[|t|..] == ".cp" && Backup(t)[|t|..] == ".bak";
    assert |Staging(t)| == |t| + 3 && |Backup(t)| == |t| + 4;
  }

  ghost predicate SameElsewhere(f: Files, g: Files) {
    forall p | !Working(p) :: (p in g <==> p in f) && (p in g ==> g[p] == f[p])
  }

  lemma DroppedKeeps(d: Disk, copy: Option<Copy>)
    requires copy.Some? ==> copy.value.staging == Staging(copy.value.target)
    ensures var e := Dropped(d, copy); SameElsewhere(d.files, e.files) && e.bad == d.bad && e.power <= d.power
  {
    if copy.Some? { Suffixes(copy.value.target); }
  }

  /** A refused start, and a refused chunk, end the copy with an error. */
  lemma StartRefused(d: Disk, copy: Option<Copy>, tools: Tools, command: string, env: Env)
    ensures var t, fields := OnStart(d, copy, tools, command, env), SplitMax(command, ':', 3);
            t.copy.None? ==> IsError(t.reply) && (t.disk == Dropped(d, copy)
                             || (|fields| == 4 && t.disk == Removed(Dropped(d, copy), Staging(fields[1]))))
  {
    hide Failure, IsError;
  }

  lemma ChunkRefused(d: Disk, copy: Option<Copy>, tools: Tools, command: string, env: Env)
    ensures var t := OnChunk(d, copy, tools, command, env);
            t.copy.None? ==> IsError(t.reply) && t.disk == Dropped(d, copy)
  {
    hide Failure, IsError;
  }

  lemma ErrorIs(reply: string)
    requires IsError(reply)
    ensures reply[0] == 'E'
  {}

  lemma StartAgrees(d: Disk, copy: Option<Copy>, tools: Tools, command: string, env: Env, l: Ledger)
    requires Agrees(d, copy, l) && Name(command) == "CP_START"
    requires OnStart(d, copy, tools, command, env).disk.Alive()
    ensures var t := OnStart(d, copy, tools, command, env);
            Agrees(t.disk, t.copy, Noted(l, tools.decode, command, t.reply)) && t.disk.bad == d.bad && t.disk.power <= d.power
  {
    DroppedKeeps(d, copy);
    var fields, t := SplitMax(command, ':', 3), OnStart(d, copy, tools, command, env);
    if t.copy.Some? {
      StartTaken(d, copy, tools, command, env, l);
    } else {
      hide OnStart;
      StartRefused(d, copy, tools, command, env);
      ErrorIs(t.reply);
      if |fields| == 4 { Suffixes(fields[1]); }
    }
  }

  lemma StartTaken(d: Disk, copy: Option<Copy>, tools: Tools, command: string, env: Env, l: Ledger)
    requires Agrees(d, copy, l) && Name(command) == "CP_START"
    requires var t := OnStart(d, copy, tools, command, env); t.disk.Alive() && t.copy.Some?
    ensures var t := OnStart(d, copy, tools, command, env);
            Agrees(t.disk, t.copy, Noted(l, tools.decode, command, t.reply)) && t.disk.bad == d.bad && t.disk.power <= d.power
  {
    hide SplitMax, ParseInt, NatText, EndsWith, Failure, IsError, Dropped;
    DroppedKeeps(d, copy);
    Suffixes(SplitMax(command, ':', 3)[1]);
  }

  lemma ChunkAgrees(d: Disk, copy: Option<Copy>, tools: Tools, command: string, env: Env, l: Ledger)
    requires Agrees(d, copy, l) && Name(command) == "CP_CHUNK"
    requires OnChunk(d, copy, tools, command, env).disk.Alive()
    ensures var t := OnChunk(d, copy, tools, command, env);
            && Agrees(t.disk, t.copy, Noted(l, tools.decode, command, t.reply)) && t.disk.bad == d.bad && t.disk.power <= d.power
            && Vouched(l, tools, command, t.reply)
  {
    DroppedKeeps(d, copy);
    var fields, t := SplitMax(command, ':', 2), OnChunk(d, copy, tools, command, env);
    if t.copy.Some? {
      ChunkTaken(d, copy, tools, command, env, l);
    } else {
      hide OnChunk;
      ChunkRefused(d, copy, tools, command, env);
      ErrorIs(t.reply);
    }
  }

  lemma ChunkTaken(d: Disk, copy: Option<Copy>, tools: Tools, command: string, env: Env, l: Ledger)
    requires Agrees(d, copy, l) && Name(command) == "CP_CHUNK"
    requires var t := OnChunk(d, copy, tools, command, env); t.disk.Alive() && t.copy.Some?
    ensures var t := OnChunk(d, copy, tools, command, env);
            && Agrees(t.disk, t.copy, Noted(l, tools.decode, command, t.reply)) && t.disk.bad == d.bad && t.disk.power <= d.power
            && Vouched(l, tools, command, t.reply)
  {
    hide SplitMax, ParseInt, NatText, EndsWith, Failure, IsError, Dropped;
    var fields := SplitMax(command, ':', 2);
    var c, data := copy.value, tools.decode(fields[2]).value;
    Suffixes(c.target);
  }

  /** Committing changes the target alone, and only when it reports success. */
  lemma PlacedKeeps(d: Disk, tools: Tools, target: Path, staging: Path)
    requires staging == Staging(target) && staging in d.files && Forgiving(d, tools, target)
    requires Placed(d, tools, target, staging).0.Alive()
    ensures var (e, ok) := Placed(d, tools, target, staging);
            && e.bad == d.bad && e.power <= d.power
            && SameElsewhere(if ok then d.files[target := d.files[staging]] else d.files, e.files)
  {
    Suffixes(target);
    if !tools.canReplace { FallbackKeeps(d, target, staging); }
  }

  lemma FallbackKeeps(d: Disk, target: Path, staging: Path)
    requires staging == Staging(target) && staging in d.files && !TwiceRefused(d, target)
    requires Fallback(d, target, staging).0.Alive()
    ensures var (e, ok) := Fallback(d, target, staging);
            && e.bad == d.bad && e.power <= d.power
            && SameElsewhere(if ok then d.files[target := d.files[staging]] else d.files, e.files)
  {
    Suffixes(target);
    var backup := Backup(target);
    var a := Removed(d, backup);
    var had, b := CanRename(a, target, backup), Renamed(a, target, backup);
    var ok, c := CanRename(b, staging, target), Renamed(b, staging, target);
    if had && !ok {
      assert a.renames !in a.bad && b.renames in b.bad;
      assert CanRename(c, backup, target);
    }
  }

  lemma EndAgrees(d: Disk, copy: Option<Copy>, tools: Tools, command: string, env: Env, l: Ledger)
    requires Agrees(d, copy, l) && Forgiven(d, copy, tools, command, env) && Name(command) == "CP_END"
    requires OnEnd(d, copy, tools, env).disk.Alive()
    ensures var t := OnEnd(d, copy, tools, env);
            && Agrees(t.disk, t.copy, Noted(l, tools.decode, command, t.reply)) && t.disk.bad == d.bad && t.disk.power <= d.power
            && Vouched(l, tools, command, t.reply)
  {
    DroppedKeeps(d, copy);
    var t := OnEnd(d, copy, tools, env);
    if t.reply != "CP_OK" {
      ErrorIs(t.reply);
    }
    if copy.Some? && env.closeError.None? && copy.value.written == copy.value.size && tools.hexHash(copy.value.hashed) == copy.value.digest {
      var c := copy.value;
      var (e, ok) := Placed(d, tools, c.target, c.staging);
      DroppedKeeps(e, copy);
      PlacedKeeps(d, tools, c.target, c.staging);
    }
  }

  /** Whatever the command, device and ledger still agree afterwards. */
  lemma HandledAgrees(d: Disk, copy: Option<Copy>, tools: Tools, command: string, env: Env, l: Ledger)
    requires Agrees(d, copy, l) && Forgiven(d, copy, tools, command, env) && Handled(d, copy, tools, command, env).disk.Alive()
    ensures var t := Handled(d, copy, tools, command, env);
            && Agrees(t.disk, t.copy, Noted(l, tools.decode, command, t.reply)) && t.disk.power <= d.power
            && Vouched(l, tools, command, t.reply)
  {
    var name := Name(command);
    if name == "CP_START" { StartAgrees(d, copy, tools, command, env, l); }
    else if name == "CP_CHUNK" { ChunkAgrees(d, copy, tools, command, env, l); }
    else if name == "CP_END" { EndAgrees(d, copy, tools, command, env, l); }
    else { DroppedKeeps(d, copy); }
  }

  /** Unless the command is about to lose its target: then they agree no longer. */
  lemma HandledAgreesIff(d: Disk, copy: Option<Copy>, tools: Tools, command: string, env: Env, l: Ledger)
    requires Agrees(d, copy, l) && (copy.Some? ==> !Working(copy.value.target))
    requires Handled(d, copy, tools, command, env).disk.Alive()
    ensures var t := Handled(d, copy, tools, command, env);
            Agrees(t.disk, t.copy, Noted(l, tools.decode, command, t.reply)) <==> Forgiven(d, copy, tools, command, env)
  {
    if Forgiven(d, copy, tools, command, env) {
      HandledAgrees(d, copy, tools, command, env, l);
    } else {
      var c := copy.value;
      TwiceRefusedLoses(d, c.target, c.staging);
      assert c.target in l.files;
    }
  }

  lemma TwiceRefusedLoses(d: Disk, target: Path, staging: Path)
    requires staging == Staging(target) && staging in d.files && TwiceRefused(d, target)
    requires Fallback(d, target, staging).0.Alive()
    ensures var (e, ok) := Fallback(d, target, staging); !ok && target !in e.files
  {
    Suffixes(target);
  }

  /* ---- whole sessions ---- */

  datatype Call = Call(command: string, env: Env)

  function Ran(d: Disk, copy: Option<Copy>, tools: Tools, calls: seq<Call>): (Disk, Option<Copy>, seq<string>)
    decreases |calls|
  {
    if calls == [] then (d, copy, []) else
    var t := Handled(d, copy, tools, calls[0].command, calls[0].env);
    var (e, c, replies) := Ran(t.disk, t.copy, tools, calls[1..]);
    (e, c, [t.reply] + replies)
  }

  function NotedAll(l: Ledger, decode: string -> Option<Content>, calls: seq<Call>, replies: seq<string>): Ledger
    requires |replies| == |calls|
    decreases |calls|
  {
    if calls == [] then l else NotedAll(Noted(l, decode, calls[0].command, replies[0]), decode, calls[1..], replies[1..])
  }

  ghost predicate VouchedAll(l: Ledger, tools: Tools, calls: seq<Call>, replies: seq<string>)
    requires |replies| == |calls|
    decreases |calls|
  {
    calls == [] ||
    (Vouched(l, tools, calls[0].command, replies[0])
     && VouchedAll(Noted(l, tools.decode, calls[0].command, replies[0]), tools, calls[1..], replies[1..]))
  }

  predicate AllForgiven(d: Disk, copy: Option<Copy>, tools: Tools, calls: seq<Call>)
    decreases |calls|
  {
    calls == [] ||
    (Forgiven(d, copy, tools, calls[0].command, calls[0].env)
     && var t := Handled(d, copy, tools, calls[0].command, calls[0].env); AllForgiven(t.disk, t.copy, tools, calls[1..]))
  }

  lemma HandledPower(d: Disk, copy: Option<Copy>, tools: Tools, command: string, env: Env)
    ensures Handled(d, copy, tools, command, env).disk.power <= d.power
  {
    hide OnStart, OnChunk, Name;
    StartPower(d, copy, tools, command, env);
    ChunkPower(d, copy, tools, command, env);
  }

  lemma StartPower(d: Disk, copy: Option<Copy>, tools: Tools, command: string, env: Env)
    ensures OnStart(d, copy, tools, command, env).disk.power <= d.power
  {
    hide SplitMax, ParseInt, Failure;
  }

  lemma ChunkPower(d: Disk, copy: Option<Copy>, tools: Tools, command: string, env: Env)
    ensures OnChunk(d, copy, tools, command, env).disk.power <= d.power
  {
    hide SplitMax, ParseInt, Failure;
  }

  lemma {:induction false} RanFacts(d: Disk, copy: Option<Copy>, tools: Tools, calls: seq<Call>)
    ensures var (e, c, replies) := Ran(d, copy, tools, calls); |replies| == |calls| && e.power <= d.power
    decreases |calls|
  {
    if calls != [] {
      hide Handled;
      var t := Handled(d, copy, tools, calls[0].command, calls[0].env);
      HandledPower(d, copy, tools, calls[0].command, calls[0].env);
      RanFacts(t.disk, t.copy, tools, calls[1..]);
    }
  }

  /** Any sequence of copy commands, in any order and with any failure: the files are
      what the ledger of commands and answers says, every acknowledgement carries the
      next number, and CP_OK is only ever given for the declared content. */
  lemma {:induction false} RunAgrees(d: Disk, copy: Option<Copy>, tools: Tools, calls: seq<Call>, l: Ledger)
    requires Agrees(d, copy, l) && AllForgiven(d, copy, tools, calls) && Ran(d, copy, tools, calls).0.Alive()
    ensures var (e, c, replies) := Ran(d, copy, tools, calls);
            && |replies| == |calls| && Agrees(e, c, NotedAll(l, tools.decode, calls, replies))
            && VouchedAll(l, tools, calls, replies)
    decreases |calls|
  {
    if calls != [] {
      hide Handled;
      var t := Handled(d, copy, tools, calls[0].command, calls[0].env);
      HandledPower(d, copy, tools, calls[0].command, calls[0].env);
      RanFacts(t.disk, t.copy, tools, calls[1..]);
      HandledAgrees(d, copy, tools, calls[0].command, calls[0].env, l);
      RunAgrees(t.disk, t.copy, tools, calls[1..], Noted(l, tools.decode, calls[0].command, t.reply));
      var replies := Ran(t.disk, t.copy, tools, calls[1..]).2;
      assert ([t.reply] + replies)[1..] == replies;
    }
  }

  /* ---- the fallback without os.replace ---- */

  /** Where a power cut can leave the renames: the old target, the new one, or no
      target but the old content under the backup name. */
  lemma CutFallback(d: Disk, target: Path, staging: Path)
    requires staging == Staging(target) && staging in d.files && target in d.files
    ensures var f := Fallback(d, target, staging).0.files;
            || (target in f && (f[target] == d.files[target] || f[target] == d.files[staging]))
            || (target !in f && Backup(target) in f && f[Backup(target)] == d.files[target])
  {
    Suffixes(target);
  }

  /** A failed fallback keeps the target exactly when the medium does not refuse both
      the second rename and the one that would undo the first. */
  lemma FailedFallback(d: Disk, target: Path, staging: Path)
    requires staging == Staging(target) && staging in d.files && target in d.files && d.power >= 4
    requires !Fallback(d, target, staging).1
    ensures var f := Fallback(d, target, staging).0.files;
            (target in f && f[target] == d.files[target])
            <==> (d.renames in d.bad || d.renames + 2 !in d.bad)
  {
    Suffixes(target);
  }

  /* ---- a copy that nothing disturbs ---- */

  const QUIET := Env(None, None, None, None)

  function StartMessage(target: Path, size: nat, digest: string): string {
    "CP_START" + [':'] + target + [':'] + NatText(size) + [':'] + digest
  }

  function ChunkMessage(k: nat, payload: string): string { "CP_CHUNK" + [':'] + NatText(k) + [':'] + payload }

  /** The host's messages from chunk `k` on, CP_END included. */
  function Rest(payloads: seq<string>, k: nat): seq<Call>
    requires k <= |payloads|
    decreases |payloads| - k
  {
    if k == |payloads| then [Call("CP_END", QUIET)] else [Call(ChunkMessage(k, payloads[k]), QUIET)] + Rest(payloads, k + 1)
  }

  lemma NumeralParses(n: nat)
    ensures ':' !in NatText(n) && ParseInt(NatText(n)) == Some(n)
  {
    ParseIntText(n);
    assert NatText(n) == IntText(n);
  }

  lemma HostStarts(d: Disk, copy: Option<Copy>, tools: Tools, target: Path, size: nat, digest: string)
    requires target != "" && ':' !in target && |digest| == 64 && tools.allowed(target)
    ensures var t := Handled(d, copy, tools, StartMessage(target, size, digest), QUIET);
            && t.reply == "CP_READY" && t.copy == Some(Copy(target, Staging(target), digest, "", size, 0, 0))
            && t.disk.power + 3 >= d.power && t.disk.renames == d.renames && t.disk.bad == d.bad
            && (t.disk.Alive() ==> Staging(target) in t.disk.files && t.disk.files[Staging(target)] == "")
  {
    var cmd := "CP_START";
    NumeralParses(size);
    FourSplit(cmd, target, NatText(size), digest, ':');
    hide SplitMax, ParseInt, NatText;
    var m := StartMessage(target, size, digest);
    assert Name(m) == "CP_START";
  }

  lemma HostSends(d: Disk, c: Copy, tools: Tools, payload: string, data: Content)
    requires tools.decode(payload) == Some(data) && c.written + |data| <= c.size
    ensures var t := Handled(d, Some(c), tools, ChunkMessage(c.sequence, payload), QUIET);
            && t.disk == Appended(d, c.staging, data) && t.reply == "CP_ACK:" + NatText(c.sequence)
            && t.copy == Some(c.(hashed := c.hashed + data, written := c.written + |data|, sequence := c.sequence + 1))
  {
    var cmd := "CP_CHUNK";
    NumeralParses(c.sequence);
    ThreeSplit(cmd, NatText(c.sequence), payload, ':');
    hide SplitMax, ParseInt, NatText;
    assert Name(ChunkMessage(c.sequence, payload)) == "CP_CHUNK";
  }

  lemma PlacedPlaces(d: Disk, tools: Tools, target: Path)
    requires d.Sound() && d.power > 4 && Staging(target) in d.files
    ensures var (e, ok) := Placed(d, tools, target, Staging(target));
            ok && target in e.files && e.files[target] == d.files[Staging(target)] && Staging(target) !in e.files
  {
    Suffixes(target);
    hide Staging, Backup;
  }

  /** With nothing refused a finished copy is committed, over an old target or none. */
  lemma HostEnds(d: Disk, c: Copy, tools: Tools)
    requires d.Sound() && d.power > 4 && c.staging == Staging(c.target) && c.staging in d.files
    requires c.written == c.size && tools.hexHash(c.hashed) == c.digest
    ensures var t := Handled(d, Some(c), tools, "CP_END", QUIET);
            && t.reply == "CP_OK" && t.copy == None && c.target in t.disk.files && t.disk.files[c.target] == d.files[c.staging]
            && c.staging !in t.disk.files
  {
    SplitMaxWhole("CP_END", ':', 1);
    PlacedPlaces(d, tools, c.target);
    hide SplitMax, Placed, Staging;
    assert Name("CP_END") == "CP_END";
  }

  lemma {:induction false} WholePrefix(datas: seq<Content>, k: nat)
    requires k <= |datas|
    ensures Whole(datas[..k]) <= Whole(datas)
    decreases |datas|
  {
    if k == |datas| {
      assert datas[..k] == datas;
    } else {
      var n := |datas| - 1;
      WholePrefix(datas[..n], k);
      assert datas[..n][..k] == datas[..k];
    }
  }

  /** Ready for chunk `k`. */
  ghost predicate Midway(d: Disk, c: Copy, tools: Tools, datas: seq<Content>, payloads: seq<string>, k: nat) {
    && |payloads| == |datas| && k <= |datas| && d.Sound() && d.power > |datas| - k + 4
    && (forall i | 0 <= i < |datas| :: tools.decode(payloads[i]) == Some(datas[i]))
    && c.staging == Staging(c.target) && c.staging in d.files && d.files[c.staging] == c.hashed == Whole(datas[..k])
    && c.written == |c.hashed| && c.sequence == k && c.size == |Whole(datas)| && c.digest == tools.hexHash(Whole(datas))
  }

  lemma ChunkAdvances(d: Disk, c: Copy, tools: Tools, datas: seq<Content>, payloads: seq<string>, k: nat)
    requires Midway(d, c, tools, datas, payloads, k) && k < |datas|
    ensures var t := Handled(d, Some(c), tools, ChunkMessage(k, payloads[k]), QUIET);
            && t.copy.Some? && t.copy.value.target == c.target && Midway(t.disk, t.copy.value, tools, datas, payloads, k + 1)
            && t.reply == "CP_ACK:" + NatText(k)
  {
    hide Handled, NatText;
    assert datas[..k + 1][..k] == datas[..k];
    WholePrefix(datas, k + 1);
    HostSends(d, c, tools, payloads[k], datas[k]);
  }

  lemma {:induction false} RestSucceeds(d: Disk, c: Copy, tools: Tools, datas: seq<Content>, payloads: seq<string>, k: nat)
    requires Midway(d, c, tools, datas, payloads, k)
    ensures var (e, copy, replies) := Ran(d, Some(c), tools, Rest(payloads, k));
            && replies != [] && replies[|replies| - 1] == "CP_OK" && copy == None
            && c.target in e.files && e.files[c.target] == Whole(datas) && c.staging !in e.files
    decreases |datas| - k
  {
    hide Handled, NatText;
    var calls := Rest(payloads, k);
    if k == |datas| {
      assert datas[..k] == datas && calls[1..] == [];
      HostEnds(d, c, tools);
    } else {
      assert calls[1..] == Rest(payloads, k + 1);
      ChunkAdvances(d, c, tools, datas, payloads, k);
      var t := Handled(d, Some(c), tools, ChunkMessage(k, payloads[k]), QUIET);
      RestSucceeds(t.disk, t.copy.value, tools, datas, payloads, k + 1);
    }
  }

  /** The host's copy of any content in any pieces, from whatever state, to an allowed name
      on a medium that refuses nothing and with power enough: CP_OK, the target holds the
      content, and no working file is left. */
  lemma CopySucceeds(d: Disk, copy: Option<Copy>, tools: Tools, target: Path, datas: seq<Content>, payloads: seq<string>)
    requires target != "" && ':' !in target && tools.allowed(target) && d.Sound() && d.power > |datas| + 7
    requires |payloads| == |datas| && forall i | 0 <= i < |datas| :: tools.decode(payloads[i]) == Some(datas[i])
    requires |tools.hexHash(Whole(datas))| == 64
    ensures var (e, after, replies) := Ran(d, copy, tools,
              [Call(StartMessage(target, |Whole(datas)|, tools.hexHash(Whole(datas))), QUIET)] + Rest(payloads, 0));
            && replies != [] && replies[|replies| - 1] == "CP_OK" && after == None
            && target in e.files && e.files[target] == Whole(datas) && Staging(target) !in e.files
  {
    hide Handled, NatText;
    var size, digest := |Whole(datas)|, tools.hexHash(Whole(datas));
    var start := Call(StartMessage(target, size, digest), QUIET);
    assert ([start] + Rest(payloads, 0))[1..] == Rest(payloads, 0) && datas[..0] == [];
    HostStarts(d, copy, tools, target, size, digest);
    var t := Handled(d, copy, tools, start.command, QUIET);
    RestSucceeds(t.disk, t.copy.value, tools, datas, payloads, 0);
  }

  /* ---- what no command does ---- */

  /** A copy that ends leaves no working file: its staging file goes however it ends, and
      after CP_OK there is no backup either. */
  lemma EndedLeavesNothing(d: Disk, c: Copy, tools: Tools, command: string, env: Env)
    requires c.staging == Staging(c.target)
    ensures var t := Handled(d, Some(c), tools, command, env);
            && (t.copy == None && t.disk.Alive() ==> c.staging !in t.disk.files)
            && (t.reply == "CP_OK" && t.disk.Alive() && !tools.canReplace ==> Backup(c.target) !in t.disk.files)
            && (Name(command) == "CP_ABORT" ==> t.copy == None)
  {
    hide SplitMax, ParseInt, IntText, Backup, Staging, EndsWith, OnStart, OnEnd;
    NotOk();
    EndLeavesNothing(d, c, tools, env);
    StartLeavesNothing(d, c, tools, command, env);
  }

  lemma StartLeavesNothing(d: Disk, c: Copy, tools: Tools, command: string, env: Env)
    ensures var t := OnStart(d, Some(c), tools, command, env);
            (t.copy == None && t.disk.Alive() ==> c.staging !in t.disk.files) && t.reply != "CP_OK"
  {
    hide SplitMax, ParseInt, Staging, Failure;
    NotOk();
  }

  lemma EndLeavesNothing(d: Disk, c: Copy, tools: Tools, env: Env)
    requires c.staging == Staging(c.target)
    ensures var t := OnEnd(d, Some(c), tools, env);
            && (t.disk.Alive() ==> c.staging !in t.disk.files)
            && (t.reply == "CP_OK" && t.disk.Alive() && !tools.canReplace ==> Backup(c.target) !in t.disk.files)
  {
    hide Placed, Backup, Staging, Failure;
    NotOk();
    PlacedCleans(d, tools, c.target);
  }

  lemma PlacedCleans(d: Disk, tools: Tools, target: Path)
    ensures var (e, ok) := Placed(d, tools, target, Staging(target));
            ok && e.Alive() ==> Staging(target) !in e.files && (!tools.canReplace ==> Backup(target) !in e.files)
  {
    Suffixes(target);
    hide Staging, Backup;
  }

  lemma NotOk()
    ensures forall text :: Failure(text) != "CP_OK"
    ensures forall n :: "CP_ACK:" + IntText(n) != "CP_OK"
    ensures "CP_READY" != "CP_OK" && "CP_ABORTED" != "CP_OK"
  {
    forall text ensures Failure(text) != "CP_OK" { assert Failure(text)[0] == 'E'; }
    forall n ensures "CP_ACK:" + IntText(n) != "CP_OK" { assert ("CP_ACK:" + IntText(n))[3] == 'A'; }
  }

  /** The name of an active copy is allowed. */
  predicate Begun(copy: Option<Copy>, tools: Tools) {
    copy.Some? ==> tools.allowed(copy.value.target) && copy.value.staging == Staging(copy.value.target)
  }

  /** A copy is begun only for a name that is allowed, with room for it. */
  lemma BegunIsAllowed(d: Disk, copy: Option<Copy>, tools: Tools, command: string, env: Env)
    requires Begun(copy, tools)
    ensures Begun(Handled(d, copy, tools, command, env).copy, tools)
    ensures var t := Handled(d, copy, tools, command, env);
            t.reply == "CP_READY" && Name(command) == "CP_START" ==>
              t.copy.Some? && t.copy.value.size >= 0 && |t.copy.value.digest| == 64
              && (env.free.Some? ==> env.free.value >= t.copy.value.size)
  {
    hide SplitMax, ParseInt, IntText, OnStart, OnChunk, Staging, Placed, Dropped;
    StartIsAllowed(d, copy, tools, command, env);
    ChunkIsAllowed(d, copy, tools, command, env);
  }

  lemma StartIsAllowed(d: Disk, copy: Option<Copy>, tools: Tools, command: string, env: Env)
    ensures var t := OnStart(d, copy, tools, command, env);
            && Begun(t.copy, tools)
            && (t.reply == "CP_READY" ==>
                  t.copy.Some? && t.copy.value.size >= 0 && |t.copy.value.digest| == 64
                  && (env.free.Some? ==> env.free.value >= t.copy.value.size))
  {
    hide SplitMax, ParseInt, Staging, Dropped, Failure;
    assert !IsError("CP_READY") by { assert "CP_READY"[0] == 'C'; }
  }

  lemma ChunkIsAllowed(d: Disk, copy: Option<Copy>, tools: Tools, command: string, env: Env)
    requires Begun(copy, tools)
    ensures Begun(OnChunk(d, copy, tools, command, env).copy, tools)
  {
    hide SplitMax, ParseInt, Staging, Dropped, Failure, IntText;
  }

  ghost predicate SameFile(f: Files, g: Files, p: Path) { (p in g <==> p in f) && (p in f ==> g[p] == f[p]) }

  lemma OtherFilesStay(d: Disk, copy: Option<Copy>, tools: Tools, command: string, env: Env, p: Path)
    requires Begun(copy, tools) && !tools.allowed(p) && !Working(p)
    ensures SameFile(d.files, Handled(d, copy, tools, command, env).disk.files, p)
  {
    hide SplitMax, ParseInt, IntText, OnStart, OnChunk, OnEnd, Staging, Working;
    if copy.Some? { Suffixes(copy.value.target); }
    StartSpares(d, copy, tools, command, env, p);
    ChunkSpares(d, copy, tools, command, env, p);
    EndSpares(d, copy, tools, env, p);
  }

  lemma Steps(d: Disk, q: Path, text: Content, p: Path)
    requires p != q
    ensures SameFile(d.files, d.files, p) && SameFile(d.files, Removed(d, q).files, p)
    ensures SameFile(d.files, Written(d, q, text).files, p)
  {}

  lemma SameFileThen(f: Files, g: Files, h: Files, p: Path)
    requires SameFile(f, g, p) && SameFile(g, h, p)
    ensures SameFile(f, h, p)
  {}

  lemma StartSpares(d: Disk, copy: Option<Copy>, tools: Tools, command: string, env: Env, p: Path)
    requires Begun(copy, tools) && !Working(p)
    ensures SameFile(d.files, OnStart(d, copy, tools, command, env).disk.files, p)
  {
    var fields := SplitMax(command, ':', 3);
    var target := if |fields| == 4 then fields[1] else "";
    var staging := Staging(target);
    Suffixes(target);
    if copy.Some? { Suffixes(copy.value.target); }
    Steps(d, if copy.Some? then copy.value.staging else staging, "", p);
    var a := Dropped(d, copy);
    Steps(a, staging, "", p);
    var b := Removed(a, staging);
    Steps(b, staging, "", p);
    SameFileThen(d.files, a.files, b.files, p);
    SameFileThen(d.files, b.files, Written(b, staging, "").files, p);
    hide SplitMax, ParseInt, Staging, Working, Failure, Begun, SameFile, Removed, Written, Dropped;
  }

  lemma ChunkSpares(d: Disk, copy: Option<Copy>, tools: Tools, command: string, env: Env, p: Path)
    requires Begun(copy, tools) && !Working(p)
    ensures SameFile(d.files, OnChunk(d, copy, tools, command, env).disk.files, p)
  {
    if copy.Some? { Suffixes(copy.value.target); }
    hide SplitMax, ParseInt, Staging, Working, Failure, IntText;
  }

  lemma EndSpares(d: Disk, copy: Option<Copy>, tools: Tools, env: Env, p: Path)
    requires Begun(copy, tools) && !tools.allowed(p) && !Working(p)
    ensures SameFile(d.files, OnEnd(d, copy, tools, env).disk.files, p)
  {
    if copy.Some? { PlacedSpares(d, tools, copy.value.target, p); Suffixes(copy.value.target); }
    hide Placed, Staging, Working, Failure;
  }

  lemma PlacedSpares(d: Disk, tools: Tools, target: Path, p: Path)
    requires target != p && !Working(p)
    ensures SameFile(d.files, Placed(d, tools, target, Staging(target)).0.files, p)
  {
    Suffixes(target);
    hide Staging, Backup, Working;
  }

  /** Whatever commands arrive, with whatever failures and wherever the power goes: a file
      that may not be copied to never changes. */
  lemma {:induction false} ForbiddenStays(d: Disk, copy: Option<Copy>, tools: Tools, calls: seq<Call>, p: Path)
    requires Begun(copy, tools) && !tools.allowed(p) && !Working(p)
    ensures SameFile(d.files, Ran(d, copy, tools, calls).0.files, p)
    decreases |calls|
  {
    hide Handled, Working, Begun;
    if calls != [] {
      var t := Handled(d, copy, tools, calls[0].command, calls[0].env);
      BegunIsAllowed(d, copy, tools, calls[0].command, calls[0].env);
      OtherFilesStay(d, copy, tools, calls[0].command, calls[0].env, p);
      ForbiddenStays(t.disk, t.copy, tools, calls[1..], p);
    }
  }
}
