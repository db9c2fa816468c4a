/** The packet-by-packet update session served by the boot loader. */
module Session {
  import opened Text
  import opened Disks
  import opened Names
  import opened Paths
  import opened Journals
  import opened Restore
  import opened Sweep
  import opened Atomicity
  import opened Clearing

  /** What the session takes from elsewhere: the base64 decoder, the hexadecimal
      SHA-256 digest, and the UTF-8 check. */
  datatype Tools = Tools(decode: string -> Option<Content>, hexHash: Content -> string, validText: string -> bool)

  /** What the platform answers while one packet is handled. */
  datatype Env = Env(free: int, openError: Option<string>, writeError: Option<string>)

  /** The session's variables. `current` is the open staging file, `hashed` the
      bytes its digest covers so far. */
  datatype Vars = Vars(files: seq<Staged>, deletes: seq<Path>, current: Option<Path>, expected: string, hashed: Content)

  const FRESH := Vars([], [], None, "", "")

  datatype Turn = Turn(disk: Disk, vars: Vars, reply: string)

  const RTC_HELPER := "_otampy_set_rtc.py"

  /* ---- one packet ---- */

  function Command(packet: string): string { SplitMax(packet, ':', 1)[0] }

  function OnUpdateStart(d: Disk, v: Vars, cfg: Config, packet: string, env: Env): Turn {
    var parts := SplitMax(packet, ':', 2);
    if |parts| < 3 then Turn(d, v, "ERROR:Invalid manifest")
    else match (ParseInt(parts[1]), ParseInt(parts[2]))
      case (Some(_), Some(total)) =>
        Turn(Cleared(d, cfg), v.(deletes := []), if env.free * 2 < total * 3 then "SPACE_ERR" else "SPACE_OK")
      case _ => Turn(d, v, "ERROR:Invalid numbers")
  }

  function OnDelete(d: Disk, v: Vars, cfg: Config, packet: string): Turn {
    var parts := SplitMax(packet, ':', 1);
    if |parts| != 2 then Turn(d, v, "ERROR:Invalid delete")
    else Turn(d, v.(deletes := v.deletes + [Resolve(parts[1], cfg.micropython)]), "DELETE_OK")
  }

  /** A name that is already a directory, or that leads through a file. */
  predicate Blocked(files: Files, key: Path) {
    exists l | l in files :: Comps(l) < Comps(key) || Comps(key) < Comps(l)
  }

  function OnFileStart(d: Disk, v: Vars, cfg: Config, packet: string, env: Env): Turn {
    var parts := SplitMax(packet, ':', 3);
    if |parts| < 4 then Turn(d, v, "ERROR:Invalid file start")
    else if ParseInt(parts[2]) == None then Turn(d, v, "ERROR:Invalid file size")
    else Opening(d, v, Resolve(parts[1], cfg.micropython), parts[3], env)
  }

  function Opening(d: Disk, v: Vars, target: Path, hash: string, env: Env): Turn {
    var key := Locate(Ota(target));
    if env.openError.Some? then Turn(d, v, "FILE_ERR:" + env.openError.value)
    else if Blocked(d.files, key) then Turn(d, v, "FILE_ERR:")
    else Turn(Written(d, key, ""), Vars(v.files + [Staged(target, Ota(target))], v.deletes, Some(key), hash, ""), "FILE_OK")
  }

  function OnChunk(d: Disk, v: Vars, tools: Tools, packet: string, env: Env): Turn {
    var parts := SplitMax(packet, ':', 2);
    if |parts| < 3 then Turn(d, v, "ERROR:Invalid chunk packet")
    else match v.current
      case None => Turn(d, v, "ERROR:No active file session")
      case Some(key) =>
        match (tools.decode(parts[2]), env.writeError)
        case (Some(data), None) => Turn(Appended(d, key, data), v.(hashed := v.hashed + data), "CHUNK_ACK:" + parts[1])
        case (_, Some(e)) => Turn(d, v, "CHUNK_ERR:" + e)
        case _ => Turn(d, v, "CHUNK_ERR:")
  }

  function OnFileEnd(d: Disk, v: Vars, tools: Tools): Turn {
    if v.current == None then Turn(d, v, "ERROR:No active file session")
    else if tools.hexHash(v.hashed) == v.expected then Turn(d, v.(current := None, expected := "", hashed := ""), "FILE_OK")
    else if v.files == [] then Turn(d, v.(current := None, expected := "", hashed := ""), "FILE_ERR:Checksum mismatch")
    else
      var last := |v.files| - 1;
      Turn(Removed(d, Locate(v.files[last].staging)), Vars(v.files[..last], v.deletes, None, "", ""), "FILE_ERR:Checksum mismatch")
  }

  /** Every packet but UPDATE_ABORT and UPDATE_COMMIT; "" means no reply. */
  function Served(d: Disk, v: Vars, cfg: Config, tools: Tools, packet: string, env: Env): Turn {
    var cmd := Command(packet);
    if cmd == "UPDATE_START" then OnUpdateStart(d, v, cfg, packet, env)
    else if cmd == "DELETE" then OnDelete(d, v, cfg, packet)
    else if cmd == "FILE_START" then OnFileStart(d, v, cfg, packet, env)
    else if cmd == "CHUNK" then OnChunk(d, v, tools, packet, env)
    else if cmd == "FILE_END" then OnFileEnd(d, v, tools)
    else Turn(d, v, "")
  }

  /* ---- UPDATE_COMMIT ---- */

  function BaseName(path: string): string { var parts := Split(path, '/'); parts[|parts| - 1] }

  predicate IsRtcHelper(s: Staged) { BaseName(s.target) == RTC_HELPER }

  /** The one-shot helper is known by its file name, in whatever directory. */
  lemma HelperIff(s: Staged)
    ensures IsRtcHelper(s) <==> s.target == RTC_HELPER || EndsWith(s.target, "/" + RTC_HELPER)
  {
    var name := RTC_HELPER;
    LastFieldIs(s.target, '/', name);
    assert "/" + name == ['/'] + name;
  }

  function Retained(files: seq<Staged>): seq<Staged> {
    if files == [] then []
    else (if IsRtcHelper(files[0]) then [] else [files[0]]) + Retained(files[1..])
  }

  /** The one-shot helper is placed by a plain rename, never retained. */
  function RtcPlaced(d: Disk, files: seq<Staged>): Disk
    decreases |files|
  {
    if files == [] then d else
    var s := files[0];
    RtcPlaced(if IsRtcHelper(s) then Renamed(Removed(d, s.target), s.staging, s.target) else d, files[1..])
  }

  function Finished(d: Disk, v: Vars, cfg: Config): (Disk, bool) {
    var (e, ok) := Committed(RtcPlaced(d, v.files), cfg, Retained(v.files), v.deletes);
    (WithoutFlag(e, cfg), ok)
  }

  /* ---- the session as the loader runs it ---- */

  datatype Input = Packet(raw: string, env: Env) | Silence(elapsed: int)

  /** A packet whose command is `cmd`, whether or not it is well formed. */
  predicate Says(i: Input, cmd: string) { i.Packet? && Command(Strip(i.raw)) == cmd }

  predicate Commits(i: Input) { Says(i, "UPDATE_COMMIT") }

  datatype End = Waiting | Aborted | Ended(ok: bool)

  /** A packet that is neither empty nor refused for its encoding. */
  predicate Heeded(i: Input, tools: Tools) {
    i.Packet? && var p := Strip(i.raw); p != "" && (HighBit(p) ==> tools.validText(p))
  }

  /** The inputs after which the session is over. */
  predicate Stops(i: Input, tools: Tools, timeoutMs: int) {
    if i.Silence? then i.elapsed >= timeoutMs else Heeded(i, tools) && (Says(i, "UPDATE_ABORT") || Commits(i))
  }

  /** Disk and variables after one input that does not stop the session. */
  function Turned(d: Disk, v: Vars, cfg: Config, tools: Tools, i: Input): (Disk, Vars) {
    if !Heeded(i, tools) then (d, v) else
    var t := Served(d, v, cfg, tools, Strip(i.raw), i.env);
    (t.disk, t.vars)
  }

  /** Disk and variables after all of them. */
  function After(d: Disk, v: Vars, cfg: Config, tools: Tools, inputs: seq<Input>): (Disk, Vars)
    decreases |inputs|
  {
    if inputs == [] then (d, v) else
    var n := |inputs| - 1;
    var (d1, v1) := After(d, v, cfg, tools, inputs[..n]);
    Turned(d1, v1, cfg, tools, inputs[n])
  }

  /** How many of the inputs come before the one that stops the session. */
  function Until(inputs: seq<Input>, tools: Tools, timeoutMs: int): (n: nat)
    ensures n <= |inputs| && (forall k | 0 <= k < n :: !Stops(inputs[k], tools, timeoutMs))
    ensures n < |inputs| ==> Stops(inputs[n], tools, timeoutMs)
    decreases |inputs|
  {
    if inputs == [] || Stops(inputs[0], tools, timeoutMs) then 0 else 1 + Until(inputs[1..], tools, timeoutMs)
  }

  function StagingRemoved(d: Disk, files: seq<Staged>): Disk
    decreases |files|
  {
    if files == [] then d else StagingRemoved(Removed(d, Locate(files[0].staging)), files[1..])
  }

  /** What the input that stops the session leaves. */
  ghost predicate Stopped(d: Disk, v: Vars, cfg: Config, i: Input, e: Disk, end: End) {
    if Commits(i) then (e, end) == (Finished(d, v, cfg).0, Ended(Finished(d, v, cfg).1))
    else end == Aborted && SweptFrom(if i.Silence? then StagingRemoved(d, v.files) else d, e, cfg.journal)
  }

  /** A session served from `d`, up to the input that stops it; without one it is
      still waiting for the next packet. */
  ghost predicate Conducted(d: Disk, v: Vars, cfg: Config, tools: Tools, timeoutMs: int, inputs: seq<Input>, e: Disk, end: End) {
    var n := Until(inputs, tools, timeoutMs);
    var (d1, v1) := After(d, v, cfg, tools, inputs[..n]);
    if n == |inputs| then e == d1 && end == Waiting else Stopped(d1, v1, cfg, inputs[n], e, end)
  }

  /** A session waits on exactly while it has been neither silent for its whole timeout,
      nor told to abort or to commit in a packet that it can read; what it cannot read
      changes nothing. */
  lemma SessionWaitsIff(d: Disk, v: Vars, cfg: Config, tools: Tools, timeoutMs: int, inputs: seq<Input>, e: Disk, end: End)
    requires Conducted(d, v, cfg, tools, timeoutMs, inputs, e, end)
    ensures end.Waiting? <==>
              forall i | i in inputs :: GoesOn(i, tools, timeoutMs)
    ensures forall i: Input | i.Packet? && Unreadable(Strip(i.raw), tools) :: Turned(d, v, cfg, tools, i) == (d, v)
  {
    hide After, SweptFrom, Finished, StagingRemoved, Strip, Command;
    hide Stops, GoesOn;
    var n := Until(inputs, tools, timeoutMs);
    forall i | i in inputs ensures Stops(i, tools, timeoutMs) <==> !GoesOn(i, tools, timeoutMs) { StopsIff(i, tools, timeoutMs); }
    if n < |inputs| { assert inputs[n] in inputs; }
    forall i: Input | i.Packet? && Unreadable(Strip(i.raw), tools) ensures Turned(d, v, cfg, tools, i) == (d, v) { UnreadableIff(i, tools); }
  }

  ghost predicate GoesOn(i: Input, tools: Tools, timeoutMs: int) {
    match i
    case Silence(elapsed) => elapsed < timeoutMs
    case Packet(raw, _) => Unreadable(Strip(raw), tools) || Command(Strip(raw)) !in ["UPDATE_ABORT", "UPDATE_COMMIT"]
  }

  lemma UnreadableIff(i: Input, tools: Tools)
    requires i.Packet?
    ensures Heeded(i, tools) <==> !Unreadable(Strip(i.raw), tools)
  {
    var p := Strip(i.raw);
    if HighBit(p) {
      var k :| 0 <= k < |p| && p[k] as int >= 128;
      assert p[k] in p;
    }
  }

  lemma StopsIff(i: Input, tools: Tools, timeoutMs: int)
    ensures Stops(i, tools, timeoutMs) <==> !GoesOn(i, tools, timeoutMs)
  {
    if i.Packet? { UnreadableIff(i, tools); }
  }

  /** Blank, or no UTF-8 although it holds a byte beyond ASCII. */
  ghost predicate Unreadable(packet: string, tools: Tools) {
    packet == "" || ((exists c :: c in packet && c as int >= 128) && !tools.validText(packet))
  }

  /* ---- what holds between packets ---- */

  /** The staging file that FILE_END and the timeout remove. */
  predicate Paired(files: seq<Staged>) { forall s | s in files :: s.staging == Ota(s.target) }

  predicate Neat(v: Vars) { Paired(v.files) && (v.current.Some? ==> IsOta(v.current.value) && v.files != []) }

  ghost predicate Good(d: Disk, v: Vars) { Tree(d.files) && Neat(v) }

  /* ---- what a transfer may touch ---- */

  /** No rename was tried, and the power has not grown. */
  predicate SameAttempts(d: Disk, e: Disk) {
    e.power <= d.power && e.renames == d.renames && e.bad == d.bad && e.clashes == d.clashes
  }

  /** Only staging files have changed, and only the journal and the copies it
      names may have gone. */
  ghost predicate Transferred(was: Files, now: Files, cfg: Config) {
    forall p | !IsOta(p) :: Same(was, now, p) || (p !in now && Discarded(was, cfg, p))
  }

  predicate Discarded(was: Files, cfg: Config, p: Path) {
    p == cfg.journal || (IsBck(p) && Stem(p) in ReadJournal(was, cfg.journal).paths)
  }

  /** No file of the firmware has changed; retained copies and the journal are
      as before or gone. */
  ghost predicate FirmwareUntouched(was: Files, now: Files, cfg: Config) {
    forall p | !IsOta(p) :: Same(was, now, p) || (p !in now && (p == cfg.journal || IsBck(p)))
  }

  lemma TransferredUntouched(was: Files, now: Files, cfg: Config)
    requires Transferred(was, now, cfg)
    ensures FirmwareUntouched(was, now, cfg)
  {
    forall p | !IsOta(p) ensures Same(was, now, p) || (p !in now && (p == cfg.journal || IsBck(p))) {
      assert Same(was, now, p) || (p !in now && Discarded(was, cfg, p));
    }
  }

  lemma StartKeeps(was: Files, d: Disk, cfg: Config)
    requires Transferred(was, d.files, cfg) && !IsBck(cfg.journal) && !IsOta(cfg.journal)
    ensures var e := Cleared(d, cfg);
            && Transferred(was, e.files, cfg) && (Tree(d.files) ==> Tree(e.files)) && SameAttempts(d, e)
  {
    var paths := ReadJournal(d.files, cfg.journal).paths;
    assert cfg.journal in d.files ==> Same(was, d.files, cfg.journal);
    ClearedBackups(d, paths, cfg.journal);
    var e := Cleared(d, cfg);
    forall p | !IsOta(p) ensures Same(was, e.files, p) || (p !in e.files && Discarded(was, cfg, p)) {
      assert Same(was, d.files, p) || (p !in d.files && Discarded(was, cfg, p));
    }
  }

  lemma StagingTree(files: Files, target: Path, text: Content)
    requires Tree(files) && !Blocked(files, Locate(Ota(target)))
    ensures Tree(files[Locate(Ota(target)) := text])
  {
    var key := Locate(Ota(target));
    StagedLandsOnOta(target);
    PiecesAreNames(Ota(target));
    LocateAgain(Ota(target));
  }

  /** Nothing but staging files differs. */
  ghost predicate OnlyStaging(f: Files, g: Files) { forall p | !IsOta(p) :: Same(f, g, p) }

  lemma TransferredOn(was: Files, f: Files, g: Files, cfg: Config)
    requires Transferred(was, f, cfg) && OnlyStaging(f, g)
    ensures Transferred(was, g, cfg)
  {
    forall p | !IsOta(p) ensures Same(was, g, p) || (p !in g && Discarded(was, cfg, p)) {
      assert Same(f, g, p);
    }
  }

  lemma TreeWithout(d: Disk, key: Path)
    requires Tree(d.files)
    ensures Tree(Removed(d, key).files)
  {}

  lemma TreeExtended(d: Disk, key: Path, text: Content)
    requires Tree(d.files)
    ensures Tree(Appended(d, key, text).files)
  {
    assert Appended(d, key, text).files.Keys == d.files.Keys;
  }

  /** Only staging files differ. */
  ghost predicate Staging(d: Disk, e: Disk) { OnlyStaging(d.files, e.files) && SameAttempts(d, e) }

  /** Writing, extending or removing a staging file. */
  lemma StagingChanged(d: Disk, key: Path, text: Content)
    requires IsOta(key)
    ensures Staging(d, Written(d, key, text)) && Staging(d, Appended(d, key, text)) && Staging(d, Removed(d, key))
  {}

  lemma Unchanged(d: Disk)
    ensures Staging(d, d)
  {}

  lemma OpeningStages(d: Disk, v: Vars, target: Path, hash: string, env: Env)
    requires Neat(v)
    ensures var t := Opening(d, v, target, hash, env); Neat(t.vars) && Staging(d, t.disk)
    ensures Tree(d.files) ==> Tree(Opening(d, v, target, hash, env).disk.files)
  {
    hide Tree, Staging, Blocked, IsOta, Ota, Locate;
    var key := Locate(Ota(target));
    Unchanged(d);
    StagedLandsOnOta(target);
    StagingChanged(d, key, "");
    if Tree(d.files) && !Blocked(d.files, key) { StagingTree(d.files, target, ""); }
  }

  lemma FileStartStages(d: Disk, v: Vars, cfg: Config, packet: string, env: Env)
    requires Neat(v)
    ensures var t := OnFileStart(d, v, cfg, packet, env); Neat(t.vars) && Staging(d, t.disk)
    ensures Tree(d.files) ==> Tree(OnFileStart(d, v, cfg, packet, env).disk.files)
  {
    var parts := SplitMax(packet, ':', 3);
    if |parts| == 4 { OpeningStages(d, v, Resolve(parts[1], cfg.micropython), parts[3], env); }
  }

  lemma ChunkStages(d: Disk, v: Vars, tools: Tools, packet: string, env: Env)
    requires Neat(v)
    ensures var t := OnChunk(d, v, tools, packet, env); Neat(t.vars) && Staging(d, t.disk)
    ensures Tree(d.files) ==> Tree(OnChunk(d, v, tools, packet, env).disk.files)
  {
    hide Tree, Staging, IsOta, SplitMax;
    Unchanged(d);
    if v.current.Some? {
      var parts := SplitMax(packet, ':', 2);
      if |parts| == 3 && tools.decode(parts[2]).Some? {
        StagingChanged(d, v.current.value, tools.decode(parts[2]).value);
        if Tree(d.files) { TreeExtended(d, v.current.value, tools.decode(parts[2]).value); }
      }
    }
  }

  lemma FileEndStages(d: Disk, v: Vars, tools: Tools)
    requires Neat(v)
    ensures var t := OnFileEnd(d, v, tools); Neat(t.vars) && Staging(d, t.disk)
    ensures Tree(d.files) ==> Tree(OnFileEnd(d, v, tools).disk.files)
  {
    hide Tree, Staging, IsOta, Locate, Ota;
    Unchanged(d);
    if v.files != [] {
      var s := v.files[|v.files| - 1];
      assert s in v.files;
      StagedLandsOnOta(s.target);
      StagingChanged(d, Locate(s.staging), "");
      if Tree(d.files) { TreeWithout(d, Locate(s.staging)); }
    }
  }

  /** Each packet but UPDATE_START changes staging files only. */
  lemma ServedStages(d: Disk, v: Vars, cfg: Config, tools: Tools, packet: string, env: Env)
    requires Neat(v) && Command(packet) != "UPDATE_START"
    ensures var t := Served(d, v, cfg, tools, packet, env); Neat(t.vars) && Staging(d, t.disk)
    ensures Tree(d.files) ==> Tree(Served(d, v, cfg, tools, packet, env).disk.files)
  {
    hide Command, OnFileStart, OnChunk, OnFileEnd, Staging, Tree, SplitMax;
    var cmd := Command(packet);
    Unchanged(d);
    if cmd == "FILE_START" { FileStartStages(d, v, cfg, packet, env); }
    else if cmd == "CHUNK" { ChunkStages(d, v, tools, packet, env); }
    else if cmd == "FILE_END" { FileEndStages(d, v, tools); }
  }

  /** One packet that is no commit keeps the firmware, and keeps a clean tree clean. */
  lemma ServedKeeps(was: Files, d: Disk, v: Vars, cfg: Config, tools: Tools, packet: string, env: Env)
    requires Transferred(was, d.files, cfg) && Good(d, v) && !IsBck(cfg.journal) && !IsOta(cfg.journal)
    ensures var t := Served(d, v, cfg, tools, packet, env);
            && Transferred(was, t.disk.files, cfg) && Good(t.disk, t.vars) && t.disk.power <= d.power
            && (Clean(d.files, cfg) ==> Clean(t.disk.files, cfg))
  {
    hide Command, OnFileStart, OnChunk, OnFileEnd, OnlyStaging, Transferred, Tree, Cleared, IsOta, IsBck, SplitMax, ParseInt;
    var t := Served(d, v, cfg, tools, packet, env);
    if Command(packet) == "UPDATE_START" {
      StartKeeps(was, d, cfg);
      if Clean(d.files, cfg) { ClearedStaysClean(d, cfg); }
    } else {
      ServedStages(d, v, cfg, tools, packet, env);
      TransferredOn(was, d.files, t.disk.files, cfg);
      CleanKept(d.files, t.disk.files, cfg);
    }
  }

  lemma ClearedStaysClean(d: Disk, cfg: Config)
    requires Clean(d.files, cfg) && !IsBck(cfg.journal)
    ensures Clean(Cleared(d, cfg).files, cfg)
  {
    ClearedBackups(d, ReadJournal(d.files, cfg.journal).paths, cfg.journal);
  }

  lemma CleanKept(f: Files, g: Files, cfg: Config)
    requires !IsOta(cfg.journal) && OnlyStaging(f, g)
    ensures Clean(f, cfg) ==> Clean(g, cfg)
  {
    forall p | IsBck(p) ensures Same(f, g, p) { BckOfStem(p); }
  }

  /** A completed UPDATE_START leaves no retained copy and no journal. */
  lemma UpdateStartCleans(d: Disk, v: Vars, cfg: Config, packet: string, env: Env)
    requires Journalled(d.files, cfg) && !IsBck(cfg.journal)
    requires var t := OnUpdateStart(d, v, cfg, packet, env); t.disk.Alive() && (t.reply == "SPACE_OK" || t.reply == "SPACE_ERR")
    ensures Clean(OnUpdateStart(d, v, cfg, packet, env).disk.files, cfg)
  {
    ClearJournalCleans(d, cfg);
  }

  /* ---- the end of a session that does not commit ---- */

  lemma {:induction false} StagingRemovedKeeps(was: Files, d: Disk, cfg: Config, files: seq<Staged>)
    requires Transferred(was, d.files, cfg) && Tree(d.files) && Paired(files)
    ensures var e := StagingRemoved(d, files);
            Transferred(was, e.files, cfg) && Tree(e.files) && e.power <= d.power
    decreases |files|
  {
    if files != [] {
      assert files[0] in files;
      StagedLandsOnOta(files[0].target);
      StagingRemovedKeeps(was, Removed(d, Locate(files[0].staging)), cfg, files[1..]);
    }
  }

  lemma SweptUntouched(was: Files, d: Disk, e: Disk, cfg: Config)
    requires Transferred(was, d.files, cfg) && SweptFrom(d, e, cfg.journal)
    ensures FirmwareUntouched(was, e.files, cfg)
    ensures Tree(d.files) && e.Alive() ==> forall p | p in e.files :: !IsOta(p)
  {
    forall p | !IsOta(p) ensures Same(was, e.files, p) || (p !in e.files && (p == cfg.journal || IsBck(p))) {
      assert Same(was, d.files, p) || (p !in d.files && Discarded(was, cfg, p));
    }
    forall p | p in e.files && e.Alive() && Tree(d.files) ensures !IsOta(p) {
      assert Comps(p) != [] && [] < Comps(p);
    }
  }

  /* ---- sessions that update nothing ---- */

  /** Neither UPDATE_START nor UPDATE_COMMIT. */
  predicate Quiet(inputs: seq<Input>) { forall i | i in inputs :: !Says(i, "UPDATE_START") && !Commits(i) }

  /** The journal and every copy it keeps are as before; only staging files differ, and
      only retained copies outside the journal may have gone. */
  ghost predicate Spared(d: Disk, e: Disk, cfg: Config) {
    && (forall p | !IsOta(p) ::
         Same(d.files, e.files, p) || (p !in e.files && IsBck(p) && p !in KeptBackups(d.files, cfg.journal)))
    && SameAttempts(d, e)
  }

  lemma StagingThen(d: Disk, e: Disk, f: Disk)
    requires Staging(d, e) && Staging(e, f)
    ensures Staging(d, f)
  {
    forall p | !IsOta(p) ensures Same(d.files, f.files, p) { assert Same(d.files, e.files, p) && Same(e.files, f.files, p); }
  }

  lemma {:induction false} QuietAfter(d: Disk, v: Vars, cfg: Config, tools: Tools, inputs: seq<Input>)
    requires Neat(v) && forall i | i in inputs :: !Says(i, "UPDATE_START")
    ensures var (e, w) := After(d, v, cfg, tools, inputs); Neat(w) && Staging(d, e)
    decreases |inputs|
  {
    hide Staging, Served, Neat, Command, Strip, HighBit;
    Unchanged(d);
    if inputs != [] {
      var n := |inputs| - 1;
      QuietAfter(d, v, cfg, tools, inputs[..n]);
      var (e, w) := After(d, v, cfg, tools, inputs[..n]);
      var i := inputs[n];
      assert i in inputs;
      if Heeded(i, tools) {
        ServedStages(e, w, cfg, tools, Strip(i.raw), i.env);
        StagingThen(d, e, Served(e, w, cfg, tools, Strip(i.raw), i.env).disk);
      }
    }
  }

  lemma {:induction false} StagingRemovedStages(d: Disk, files: seq<Staged>)
    requires Paired(files)
    ensures Staging(d, StagingRemoved(d, files))
    decreases |files|
  {
    hide Staging;
    Unchanged(d);
    if files != [] {
      assert files[0] in files;
      StagedLandsOnOta(files[0].target);
      var e := Removed(d, Locate(files[0].staging));
      StagingChanged(d, Locate(files[0].staging), "");
      StagingRemovedStages(e, files[1..]);
      StagingThen(d, e, StagingRemoved(e, files[1..]));
    }
  }

  lemma SweptSpares(d: Disk, m: Disk, e: Disk, cfg: Config)
    requires Staging(d, m) && SweptFrom(m, e, cfg.journal) && !IsOta(cfg.journal)
    ensures Spared(d, e, cfg)
  {
    assert Same(d.files, m.files, cfg.journal);
    forall p | !IsOta(p)
      ensures Same(d.files, e.files, p) || (p !in e.files && IsBck(p) && p !in KeptBackups(d.files, cfg.journal))
    {
      assert Same(d.files, m.files, p);
    }
  }

  lemma StagingSpares(d: Disk, e: Disk, cfg: Config)
    requires Staging(d, e)
    ensures Spared(d, e, cfg)
  {}

  /** Without UPDATE_START and UPDATE_COMMIT a session, however it ends, leaves the
      journal and the generation that it retains alone. */
  lemma QuietSession(d: Disk, v: Vars, cfg: Config, tools: Tools, timeoutMs: int, inputs: seq<Input>, e: Disk, end: End)
    requires Conducted(d, v, cfg, tools, timeoutMs, inputs, e, end) && Neat(v) && Quiet(inputs) && !IsOta(cfg.journal)
    ensures Spared(d, e, cfg) && !end.Ended?
  {
    hide Staging, Spared, SweptFrom, Served, Finished, Neat, Command, Strip;
    var n := Until(inputs, tools, timeoutMs);
    assert forall i | i in inputs[..n] :: i in inputs;
    QuietAfter(d, v, cfg, tools, inputs[..n]);
    var (m, w) := After(d, v, cfg, tools, inputs[..n]);
    StagingSpares(d, m, cfg);
    if n < |inputs| {
      assert inputs[n] in inputs;
      NeatPairs(w);
      StagingRemovedStages(m, w.files);
      StagingThen(d, m, StagingRemoved(m, w.files));
      SweptSpares(d, if inputs[n].Silence? then StagingRemoved(m, w.files) else m, e, cfg);
    }
  }

  lemma NeatPairs(v: Vars)
    requires Neat(v)
    ensures Paired(v.files)
  {}

  /** A session that ended in a commit: the packets before it touched nothing but
      staging files, and the commit then ran on what they left. */
  ghost predicate EndedIn(was: Files, e: Disk, ok: bool, cfg: Config, d: Disk, v: Vars) {
    Transferred(was, d.files, cfg) && Good(d, v) && (e, ok) == Finished(d, v, cfg)
  }

  class UpdateSession {
    const fs: FileSystem
    const cfg: Config
    const tools: Tools
    const timeoutMs: int
    var files: seq<Staged>
    var deletePaths: seq<Path>
    var currentFile: Option<Path>
    var currentHash: string
    var hashed: Content

    constructor (fs: FileSystem, cfg: Config, tools: Tools, timeoutMs: int)
      ensures this.fs == fs && this.cfg == cfg && this.tools == tools && this.timeoutMs == timeoutMs && Now() == FRESH
    {
      this.fs, this.cfg, this.tools, this.timeoutMs := fs, cfg, tools, timeoutMs;
      files, deletePaths, currentFile, currentHash, hashed := [], [], None, "", "";
    }

    function Now(): Vars
      reads this
    {
      Vars(files, deletePaths, currentFile, currentHash, hashed)
    }

    method UpdateStart(packet: string, env: Env) returns (reply: string)
      modifies this, fs
      ensures Turn(fs.disk, Now(), reply) == OnUpdateStart(old(fs.disk), old(Now()), cfg, packet, env)
    {
      var parts := SplitMax(packet, ':', 2);
      if |parts| < 3 { return "ERROR:Invalid manifest"; }
      var count, total := ParseInt(parts[1]), ParseInt(parts[2]);
      if count == None || total == None { return "ERROR:Invalid numbers"; }
      ClearJournal(fs, cfg);
      deletePaths := [];
      reply := if env.free * 2 < total.value * 3 then "SPACE_ERR" else "SPACE_OK";
    }

    method DeletePath(packet: string) returns (reply: string)
      modifies this
      ensures Turn(fs.disk, Now(), reply) == OnDelete(old(fs.disk), old(Now()), cfg, packet)
    {
      var parts := SplitMax(packet, ':', 1);
      if |parts| != 2 { return "ERROR:Invalid delete"; }
      deletePaths := deletePaths + [Resolve(parts[1], cfg.micropython)];
      reply := "DELETE_OK";
    }

    method FileStart(packet: string, env: Env) returns (reply: string)
      modifies this, fs
      ensures Turn(fs.disk, Now(), reply) == OnFileStart(old(fs.disk), old(Now()), cfg, packet, env)
    {
      var parts := SplitMax(packet, ':', 3);
      if |parts| < 4 { return "ERROR:Invalid file start"; }
      if ParseInt(parts[2]) == None { return "ERROR:Invalid file size"; }
      var target := Resolve(parts[1], cfg.micropython);
      var staging := Ota(target);
      if env.openError.Some? { return "FILE_ERR:" + env.openError.value; }
      var key := Locate(staging);
      if Blocked(fs.disk.files, key) { return "FILE_ERR:"; }
      fs.Write(key, "");
      currentFile, currentHash, hashed := Some(key), parts[3], "";
      files := files + [Staged(target, staging)];
      reply := "FILE_OK";
    }

    method Chunk(packet: string, env: Env) returns (reply: string)
      modifies this, fs
      ensures Turn(fs.disk, Now(), reply) == OnChunk(old(fs.disk), old(Now()), tools, packet, env)
    {
      var parts := SplitMax(packet, ':', 2);
      if |parts| < 3 { return "ERROR:Invalid chunk packet"; }
      if currentFile == None { return "ERROR:No active file session"; }
      var decoded := tools.decode(parts[2]);
      if env.writeError.Some? { return "CHUNK_ERR:" + env.writeError.value; }
      if decoded == None { return "CHUNK_ERR:"; }
      fs.Append(currentFile.value, decoded.value);
      hashed := hashed + decoded.value;
      reply := "CHUNK_ACK:" + parts[1];
    }

    method FileEnd() returns (reply: string)
      requires currentFile.Some? ==> files != []
      modifies this, fs
      ensures Turn(fs.disk, Now(), reply) == OnFileEnd(old(fs.disk), old(Now()), tools)
    {
      if currentFile == None { return "ERROR:No active file session"; }
      var matches := tools.hexHash(hashed) == currentHash;
      currentFile, currentHash, hashed := None, "", "";
      if matches { return "FILE_OK"; }
      var last := |files| - 1;
      fs.Remove(Locate(files[last].staging));
      files := files[..last];
      reply := "FILE_ERR:Checksum mismatch";
    }

    method Serve(packet: string, env: Env) returns (reply: string)
      requires currentFile.Some? ==> files != []
      modifies this, fs
      ensures Turn(fs.disk, Now(), reply) == Served(old(fs.disk), old(Now()), cfg, tools, packet, env)
    {
      var cmd := Command(packet);
      if cmd == "UPDATE_START" { reply := UpdateStart(packet, env); }
      else if cmd == "DELETE" { reply := DeletePath(packet); }
      else if cmd == "FILE_START" { reply := FileStart(packet, env); }
      else if cmd == "CHUNK" { reply := Chunk(packet, env); }
      else if cmd == "FILE_END" { reply := FileEnd(); }
      else { reply := ""; }
    }

    method PlaceRtcHelper() returns (retained: seq<Staged>)
      modifies fs
      ensures fs.disk == RtcPlaced(old(fs.disk), files) && retained == Retained(files)
    {
      retained := [];
      var i := 0;
      while i < |files|
        invariant 0 <= i <= |files|
        invariant RtcPlaced(fs.disk, files[i..]) == RtcPlaced(old(fs.disk), files)
        invariant retained + Retained(files[i..]) == Retained(files)
      {
        assert files[i..][1..] == files[i + 1..];
        if IsRtcHelper(files[i]) {
          fs.Remove(files[i].target);
          var _ := fs.Rename(files[i].staging, files[i].target);
        } else {
          retained := retained + [files[i]];
        }
        i := i + 1;
      }
    }

    method UpdateCommit() returns (ok: bool)
      modifies fs
      ensures (fs.disk, ok) == Finished(old(fs.disk), Now(), cfg)
      ensures cfg.flag.Some? && fs.disk.Alive() ==> cfg.flag.value !in fs.disk.files
      ensures Now() == old(Now())
    {
      var retained := PlaceRtcHelper();
      ok := Commit(fs, cfg, retained, deletePaths);
      RemoveFlag(fs, cfg);
    }

    method Abort()
      requires Good(fs.disk, Now())
      modifies this, fs
      ensures SweptFrom(old(fs.disk), fs.disk, cfg.journal)
    {
      currentFile := None;
      SweepOrphans(fs, cfg);
    }

    method TimeOut()
      requires Good(fs.disk, Now())
      modifies this, fs
      ensures SweptFrom(StagingRemoved(old(fs.disk), old(files)), fs.disk, cfg.journal)
    {
      currentFile := None;
      var i := 0;
      while i < |files|
        invariant 0 <= i <= |files| && files == old(files)
        invariant Tree(fs.disk.files)
        invariant StagingRemoved(fs.disk, files[i..]) == StagingRemoved(old(fs.disk), files)
      {
        assert files[i..][1..] == files[i + 1..];
        ghost var before := fs.disk.files;
        fs.Remove(Locate(files[i].staging));
        TreeShrinks(before, fs.disk.files, Height(before));
        i := i + 1;
      }
      SweepOrphans(fs, cfg);
    }

    /** One packet off the link, as the loop's body treats it. */
    method Receive(raw: string, env: Env) returns (reply: string, end: End)
      requires Good(fs.disk, Now())
      modifies this, fs
      ensures var p := Strip(raw);
        if p == "" then reply == "" && end == Waiting && fs.disk == old(fs.disk) && Now() == old(Now())
        else if HighBit(p) && !tools.validText(p) then
          reply == "ERROR:Invalid UTF-8" && end == Waiting && fs.disk == old(fs.disk) && Now() == old(Now())
        else if Command(p) == "UPDATE_ABORT" then
          reply == "UPDATE_ABORTED" && end == Aborted && SweptFrom(old(fs.disk), fs.disk, cfg.journal)
        else if Command(p) == "UPDATE_COMMIT" then
          var (d, ok) := Finished(old(fs.disk), old(Now()), cfg);
          fs.disk == d && end == Ended(ok) && reply == if ok then "COMMIT_OK" else "COMMIT_ERR"
        else end == Waiting && Turn(fs.disk, Now(), reply) == Served(old(fs.disk), old(Now()), cfg, tools, p, env)
    {
      var packet := Strip(raw);
      if packet == "" { return "", Waiting; }
      if HighBit(packet) && !tools.validText(packet) { return "ERROR:Invalid UTF-8", Waiting; }
      var cmd := Command(packet);
      if cmd == "UPDATE_ABORT" {
        Abort();
        return "UPDATE_ABORTED", Aborted;
      }
      if cmd == "UPDATE_COMMIT" {
        var ok := UpdateCommit();
        return if ok then "COMMIT_OK" else "COMMIT_ERR", Ended(ok);
      }
      reply := Serve(packet, env);
      end := Waiting;
    }

    /** Serve one session over whatever arrives, well formed or not. Unless it
        ends in a commit, no file of the firmware changes; a session that was
        aborted or timed out leaves no staged file anywhere in the tree. */
    method Run(inputs: seq<Input>) returns (end: End, replies: seq<string>)
      requires Good(fs.disk, Now()) && !IsBck(cfg.journal) && !IsOta(cfg.journal)
      modifies this, fs
      ensures !end.Ended? ==> FirmwareUntouched(old(fs.disk.files), fs.disk.files, cfg)
      ensures end.Aborted? && fs.disk.Alive() ==> forall p | p in fs.disk.files :: !IsOta(p)
      ensures end.Ended? ==> exists d, v :: EndedIn(old(fs.disk.files), fs.disk, end.ok, cfg, d, v)
      ensures (forall i | i in inputs :: !Commits(i)) ==> !end.Ended?
      ensures Conducted(old(fs.disk), old(Now()), cfg, tools, timeoutMs, inputs, fs.disk, end)
      ensures Quiet(inputs) ==> Spared(old(fs.disk), fs.disk, cfg)
    {
      hide Served, Finished, SweptFrom, StagingRemoved, Spared, Quiet, FirmwareUntouched, Tree,
        HighBit, Strip, Command, Clean, IsOta, IsBck;
      ghost var was, d0, v0 := fs.disk.files, fs.disk, Now();
      replies := [];
      var i := 0;
      while i < |inputs|
        invariant 0 <= i <= |inputs|
        invariant Good(fs.disk, Now()) && Transferred(was, fs.disk.files, cfg)
        invariant After(d0, v0, cfg, tools, inputs[..i]) == (fs.disk, Now())
        invariant forall k | 0 <= k < i :: !Stops(inputs[k], tools, timeoutMs)
      {
        var input := inputs[i];
        assert inputs[..i + 1][..i] == inputs[..i];
        i := i + 1;
        if input.Silence? {
          if input.elapsed >= timeoutMs {
            StagingRemovedKeeps(was, fs.disk, cfg, files);
            ghost var mid := StagingRemoved(fs.disk, files);
            TimeOut();
            SweptUntouched(was, mid, fs.disk, cfg);
            assert Until(inputs, tools, timeoutMs) == i - 1;
            if Quiet(inputs) { QuietSession(d0, v0, cfg, tools, timeoutMs, inputs, fs.disk, Aborted); }
            return Aborted, replies + ["UPDATE_ABORTED"];
          }
          continue;
        }
        ghost var d, v := fs.disk, Now();
        ServedKeeps(was, d, v, cfg, tools, Strip(input.raw), input.env);
        var reply;
        reply, end := Receive(input.raw, input.env);
        if reply != "" { replies := replies + [reply]; }
        if end.Aborted? {
          SweptUntouched(was, d, fs.disk, cfg);
          assert Until(inputs, tools, timeoutMs) == i - 1;
          if Quiet(inputs) { QuietSession(d0, v0, cfg, tools, timeoutMs, inputs, fs.disk, end); }
          return;
        }
        if end.Ended? {
          assert Commits(input) && input in inputs;
          assert Until(inputs, tools, timeoutMs) == i - 1;
          if Quiet(inputs) { QuietSession(d0, v0, cfg, tools, timeoutMs, inputs, fs.disk, end); }
          assert EndedIn(was, fs.disk, end.ok, cfg, d, v);
          return;
        }
      }
      end := Waiting;
      TransferredUntouched(was, fs.disk.files, cfg);
      assert inputs[..|inputs|] == inputs;
      assert Until(inputs, tools, timeoutMs) == |inputs|;
      if Quiet(inputs) { QuietSession(d0, v0, cfg, tools, timeoutMs, inputs, fs.disk, end); }
    }
  }
}
