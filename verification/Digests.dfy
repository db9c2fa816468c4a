/** Digests in the update session: FILE_END decides by the bytes that came over the
    link, and nothing else gets into the firmware. */
module Digests {
  import opened Text
  import opened Disks
  import opened Names
  import opened Paths
  import opened Journals
  import opened Restore
  import opened Healing
  import opened Atomicity
  import opened Clearing
  import opened Sweep
  import opened Window
  import opened Session
  import opened Packets
  import opened Delivery

  /* ---- one file over the link ---- */

  /** The digest that a FILE_START declares, and the file that it stages into. */
  function Declared(i: Input): string {
    if !i.Packet? then "" else
    var parts := SplitMax(Strip(i.raw), ':', 3);
    if |parts| < 4 then "" else parts[3]
  }

  function Key(target: Path): Path { Locate(Ota(target)) }

  predicate Acknowledged(reply: string) { "CHUNK_ACK:" <= reply }

  /** What a CHUNK packet carries. */
  function Payload(i: Input, tools: Tools): Content {
    if !i.Packet? then "" else
    var parts := SplitMax(Strip(i.raw), ':', 2);
    if |parts| < 3 then "" else match tools.decode(parts[2]) case Some(data) => data case None => ""
  }

  /** The bytes of the acknowledged chunks, in order. */
  function Uploaded(d: Disk, v: Vars, cfg: Config, tools: Tools, inputs: seq<Input>): Content
    decreases |inputs|
  {
    if inputs == [] then "" else
    var n := |inputs| - 1;
    var (m, w) := After(d, v, cfg, tools, inputs[..n]);
    Uploaded(d, v, cfg, tools, inputs[..n])
    + if inputs[n].Packet? && Acknowledged(Served(m, w, cfg, tools, Strip(inputs[n].raw), inputs[n].env).reply) then Payload(inputs[n], tools) else ""
  }

  predicate Accepted(d: Disk, v: Vars, cfg: Config, tools: Tools, i: Input) {
    Heeded(i, tools) && Says(i, "FILE_START") && Served(d, v, cfg, tools, Strip(i.raw), i.env).reply == "FILE_OK"
  }

  /** A staging file is open and holds what was uploaded. */
  ghost predicate Receiving(d0: Disk, v0: Vars, d: Disk, v: Vars, target: Path, digest: string, bytes: Content) {
    && v == Vars(v0.files + [Staged(target, Ota(target))], v0.deletes, Some(Key(target)), digest, bytes)
    && (d.Alive() ==> d.files == d0.files[Key(target) := bytes])
  }

  lemma StartReceives(d: Disk, v: Vars, cfg: Config, tools: Tools, i: Input)
    requires Accepted(d, v, cfg, tools, i)
    ensures FileNamed(i, cfg).Some?
    ensures var t := Served(d, v, cfg, tools, Strip(i.raw), i.env);
            Receiving(d, v, t.disk, t.vars, FileNamed(i, cfg).value, Declared(i), "")
  {
    hide SplitMax, Strip, Locate, Blocked, ParseInt, HighBit;
    var packet := Strip(i.raw);
    assert Served(d, v, cfg, tools, packet, i.env) == OnFileStart(d, v, cfg, packet, i.env);
    ErrorsAreErrors(i.env);
  }

  lemma ErrorsAreErrors(env: Env)
    ensures env.openError.Some? ==> "FILE_ERR:" + env.openError.value != "FILE_OK"
    ensures env.writeError.Some? ==> !Acknowledged("CHUNK_ERR:" + env.writeError.value)
    ensures "FILE_ERR:" != "FILE_OK" && !Acknowledged("CHUNK_ERR:")
  {
    if env.openError.Some? { assert ("FILE_ERR:" + env.openError.value)[5] == 'E' && "FILE_OK"[5] == 'O'; }
    if env.writeError.Some? { assert ("CHUNK_ERR:" + env.writeError.value)[6] == 'E' && "CHUNK_ACK:"[6] == 'A'; }
    assert "CHUNK_ERR:"[6] == 'E' && "CHUNK_ACK:"[6] == 'A';
  }

  lemma ChunkReceives(d0: Disk, v0: Vars, d: Disk, v: Vars, cfg: Config, tools: Tools, i: Input,
                      target: Path, digest: string, bytes: Content)
    requires Receiving(d0, v0, d, v, target, digest, bytes) && i.Packet? && Says(i, "CHUNK")
    ensures var t := Served(d, v, cfg, tools, Strip(i.raw), i.env);
            Receiving(d0, v0, t.disk, t.vars, target, digest,
                      bytes + if Acknowledged(t.reply) then Payload(i, tools) else "")
  {
    hide SplitMax, Strip, Locate;
    var packet := Strip(i.raw);
    var t := Served(d, v, cfg, tools, packet, i.env);
    assert t == OnChunk(d, v, tools, packet, i.env);
    ErrorsAreErrors(i.env);
    assert !Acknowledged("ERROR:Invalid chunk packet") by { assert "ERROR:Invalid chunk packet"[0] == 'E'; }
    assert bytes + "" == bytes;
    if t.disk.Alive() { assert d.files[Key(target)] == bytes; }
  }

  lemma {:induction false} ChunksReceive(d: Disk, v: Vars, cfg: Config, tools: Tools, start: Input, chunks: seq<Input>)
    requires Accepted(d, v, cfg, tools, start) && forall i | i in chunks :: Heeded(i, tools) && Says(i, "CHUNK")
    ensures FileNamed(start, cfg).Some?
    ensures var s := Served(d, v, cfg, tools, Strip(start.raw), start.env);
            var (m, w) := After(d, v, cfg, tools, [start] + chunks);
            Receiving(d, v, m, w, FileNamed(start, cfg).value, Declared(start), Uploaded(s.disk, s.vars, cfg, tools, chunks))
    ensures var s := Served(d, v, cfg, tools, Strip(start.raw), start.env);
            After(d, v, cfg, tools, [start] + chunks) == After(s.disk, s.vars, cfg, tools, chunks)
    decreases |chunks|
  {
    hide Served, Receiving, FileNamed, Declared, Payload, HighBit, Strip, Command, Acknowledged;
    var all := [start] + chunks;
    StartReceives(d, v, cfg, tools, start);
    if chunks == [] {
      assert all[..0] == [] && all == [start];
    } else {
      var n := |chunks| - 1;
      assert all[..|all| - 1] == [start] + chunks[..n] && all[|all| - 1] == chunks[n];
      assert chunks[n] in chunks && forall i | i in chunks[..n] :: i in chunks;
      ChunksReceive(d, v, cfg, tools, start, chunks[..n]);
      var s := Served(d, v, cfg, tools, Strip(start.raw), start.env);
      var (m, w) := After(d, v, cfg, tools, [start] + chunks[..n]);
      ChunkReceives(d, v, m, w, cfg, tools, chunks[n], FileNamed(start, cfg).value, Declared(start),
                    Uploaded(s.disk, s.vars, cfg, tools, chunks[..n]));
    }
  }

  /** An accepted FILE_START, any chunks, and FILE_END: the answer is FILE_OK exactly when
      the acknowledged bytes have the declared digest. Then the staging file holds them
      and the pair is listed; otherwise neither is left. Nothing else has changed. */
  lemma FileIsChecked(d: Disk, v: Vars, cfg: Config, tools: Tools, start: Input, chunks: seq<Input>, end: Input)
    requires Accepted(d, v, cfg, tools, start) && forall i | i in chunks :: Heeded(i, tools) && Says(i, "CHUNK")
    requires Heeded(end, tools) && Says(end, "FILE_END")
    ensures FileNamed(start, cfg).Some?
    ensures var s := Served(d, v, cfg, tools, Strip(start.raw), start.env);
            var bytes := Uploaded(s.disk, s.vars, cfg, tools, chunks);
            var (m, w) := After(d, v, cfg, tools, [start] + chunks);
            var t := Served(m, w, cfg, tools, Strip(end.raw), end.env);
            var target := FileNamed(start, cfg).value;
            && (t.reply == "FILE_OK" <==> tools.hexHash(bytes) == Declared(start))
            && t.vars == Vars(if t.reply == "FILE_OK" then v.files + [Staged(target, Ota(target))] else v.files, v.deletes, None, "", "")
            && (t.disk.Alive() ==>
                  t.disk.files == if t.reply == "FILE_OK" then d.files[Key(target) := bytes] else d.files - {Key(target)})
  {
    hide Accepted, Uploaded, After, FileNamed, Declared, Strip, SplitMax, Locate, HighBit;
    ChunksReceive(d, v, cfg, tools, start, chunks);
    var (m, w) := After(d, v, cfg, tools, [start] + chunks);
    var target := FileNamed(start, cfg).value;
    var t := Served(m, w, cfg, tools, Strip(end.raw), end.env);
    assert t == OnFileEnd(m, w, tools);
    var all := v.files + [Staged(target, Ota(target))];
    assert all[..|all| - 1] == v.files;
    assert "FILE_ERR:Checksum mismatch"[5] == 'E' && "FILE_OK"[5] == 'O';
  }

  /* ---- what a session may bring in ---- */

  /** Was the last file that was announced not yet closed? */
  predicate Unclosed(inputs: seq<Input>, tools: Tools)
    decreases |inputs|
  {
    inputs != [] &&
    var n := |inputs| - 1;
    if Heeded(inputs[n], tools) && Says(inputs[n], "FILE_START") then true
    else if Heeded(inputs[n], tools) && Says(inputs[n], "FILE_END") then false
    else Unclosed(inputs[..n], tools)
  }

  lemma TurnCloses(d: Disk, v: Vars, cfg: Config, tools: Tools, inputs: seq<Input>, i: Input)
    requires v.current.Some? ==> Unclosed(inputs, tools)
    ensures Turned(d, v, cfg, tools, i).1.current.Some? ==> Unclosed(inputs + [i], tools)
  {
    hide Strip, SplitMax, Locate, ParseInt, Blocked, Cleared, HighBit, Resolve;
    assert (inputs + [i])[..|inputs|] == inputs;
  }

  lemma {:induction false} OpenIsUnclosed(d: Disk, cfg: Config, tools: Tools, inputs: seq<Input>)
    ensures After(d, FRESH, cfg, tools, inputs).1.current.Some? ==> Unclosed(inputs, tools)
    decreases |inputs|
  {
    hide Turned, Unclosed;
    if inputs != [] {
      var n := |inputs| - 1;
      OpenIsUnclosed(d, cfg, tools, inputs[..n]);
      var (e, w) := After(d, FRESH, cfg, tools, inputs[..n]);
      TurnCloses(e, w, cfg, tools, inputs[..n], inputs[n]);
      assert inputs[..n] + [inputs[n]] == inputs;
    }
  }

  /** In no session is a chunk acknowledged or a file accepted but between a FILE_START and
      its FILE_END. */
  lemma AnswersNeedAFile(d: Disk, cfg: Config, tools: Tools, inputs: seq<Input>, i: Input)
    requires Heeded(i, tools)
    requires var (e, w) := After(d, FRESH, cfg, tools, inputs);
             var reply := Served(e, w, cfg, tools, Strip(i.raw), i.env).reply;
             (Says(i, "CHUNK") && Acknowledged(reply)) || (Says(i, "FILE_END") && reply == "FILE_OK")
    ensures Unclosed(inputs, tools)
  {
    hide Strip, SplitMax, After, Unclosed, HighBit;
    OpenIsUnclosed(d, cfg, tools, inputs);
    var (e, w) := After(d, FRESH, cfg, tools, inputs);
    assert "ERROR:No active file session" != "FILE_OK";
    ErrorsAreErrors(i.env);
    assert !Acknowledged("ERROR:No active file session") && !Acknowledged("ERROR:Invalid chunk packet") by {
      assert "ERROR:No active file session"[0] == 'E' && "ERROR:Invalid chunk packet"[0] == 'E';
    }
  }

  /** Every FILE_START is closed by a FILE_END before the next one and before the commit. */
  ghost predicate Bracketed(inputs: seq<Input>, tools: Tools) {
    forall k | 0 <= k < |inputs| && (Says(inputs[k], "FILE_START") || Commits(inputs[k])) :: !Unclosed(inputs[..k], tools)
  }

  /** Some FILE_START stages under this key and declares the digest of this content. */
  ghost predicate Vetted(inputs: seq<Input>, cfg: Config, tools: Tools, key: Path, content: Content) {
    exists i :: i in inputs && FileNamed(i, cfg).Some? && Key(FileNamed(i, cfg).value) == key && tools.hexHash(content) == Declared(i)
  }

  /** The open staging file is the one that the last FILE_START named. */
  ghost predicate Expecting(d: Disk, v: Vars, cfg: Config, inputs: seq<Input>) {
    v.current.Some? ==>
      && v.files != [] && v.current.value == Key(v.files[|v.files| - 1].target)
      && (exists i :: i in inputs && FileNamed(i, cfg).Some? && Key(FileNamed(i, cfg).value) == v.current.value && Declared(i) == v.expected)
      && (d.Alive() ==> v.current.value in d.files && d.files[v.current.value] == v.hashed)
  }

  /** Every other staged file has been vetted. */
  ghost predicate Checked(d: Disk, v: Vars, cfg: Config, tools: Tools, inputs: seq<Input>) {
    d.Alive() ==>
      forall s | s in v.files && Key(s.target) in d.files && v.current != Some(Key(s.target)) ::
        Vetted(inputs, cfg, tools, Key(s.target), d.files[Key(s.target)])
  }

  ghost predicate Guarded(d: Disk, v: Vars, cfg: Config, tools: Tools, inputs: seq<Input>) {
    Paired(v.files) && Expecting(d, v, cfg, inputs) && Checked(d, v, cfg, tools, inputs) && (v.current.Some? ==> Unclosed(inputs, tools))
  }

  lemma VettedMore(inputs: seq<Input>, i: Input, cfg: Config, tools: Tools, key: Path, content: Content)
    requires Vetted(inputs, cfg, tools, key, content)
    ensures Vetted(inputs + [i], cfg, tools, key, content)
  {
    var j :| j in inputs && FileNamed(j, cfg).Some? && Key(FileNamed(j, cfg).value) == key && tools.hexHash(content) == Declared(j);
    assert j in inputs + [i];
  }

  lemma CheckedMore(d: Disk, e: Disk, v: Vars, w: Vars, cfg: Config, tools: Tools, inputs: seq<Input>, i: Input)
    requires Checked(d, v, cfg, tools, inputs) && e.power <= d.power && (forall s | s in w.files :: s in v.files)
    requires forall s | s in w.files && Key(s.target) in e.files && w.current != Some(Key(s.target)) && e.Alive() ::
               v.current != Some(Key(s.target)) && Key(s.target) in d.files && e.files[Key(s.target)] == d.files[Key(s.target)]
    ensures Checked(e, w, cfg, tools, inputs + [i])
  {
    hide Vetted, Locate;
    forall s | s in w.files && Key(s.target) in e.files && w.current != Some(Key(s.target)) && e.Alive()
      ensures Vetted(inputs + [i], cfg, tools, Key(s.target), e.files[Key(s.target)])
    {
      VettedMore(inputs, i, cfg, tools, Key(s.target), d.files[Key(s.target)]);
    }
  }

  lemma ExpectingMore(d: Disk, e: Disk, v: Vars, w: Vars, cfg: Config, inputs: seq<Input>, i: Input)
    requires Expecting(d, v, cfg, inputs) && e.power <= d.power && w.files == v.files && w.current == v.current && w.expected == v.expected
    requires v.current.Some? && e.Alive() && v.current.value in d.files && d.files[v.current.value] == v.hashed ==>
               v.current.value in e.files && e.files[v.current.value] == w.hashed
    ensures Expecting(e, w, cfg, inputs + [i])
  {
    hide FileNamed, Declared, Locate;
    if v.current.Some? {
      var j :| j in inputs && FileNamed(j, cfg).Some? && Key(FileNamed(j, cfg).value) == v.current.value && Declared(j) == v.expected;
      assert j in inputs + [i];
    }
  }

  lemma UnclosedMore(inputs: seq<Input>, i: Input, tools: Tools)
    ensures Heeded(i, tools) && Says(i, "FILE_START") ==> Unclosed(inputs + [i], tools)
    ensures !(Heeded(i, tools) && (Says(i, "FILE_START") || Says(i, "FILE_END"))) ==> Unclosed(inputs + [i], tools) == Unclosed(inputs, tools)
  {
    assert (inputs + [i])[..|inputs|] == inputs;
  }

  /** Inputs that change no staging file. */
  lemma ShrunkGuarded(d: Disk, e: Disk, v: Vars, w: Vars, cfg: Config, tools: Tools, inputs: seq<Input>, i: Input)
    requires Guarded(d, v, cfg, tools, inputs) && e.power <= d.power && w == v.(deletes := w.deletes)
    requires forall p | IsOta(p) :: Same(d.files, e.files, p)
    requires !(Heeded(i, tools) && (Says(i, "FILE_START") || Says(i, "FILE_END")))
    ensures Guarded(e, w, cfg, tools, inputs + [i])
  {
    hide Vetted, Checked, Expecting, Heeded, Says, Unclosed, Locate, IsOta;
    UnclosedMore(inputs, i, tools);
    forall s | s in w.files ensures Same(d.files, e.files, Key(s.target)) { StagedLandsOnOta(s.target); }
    if v.current.Some? { CurrentIsKey(d, v, cfg, inputs); }
    CheckedMore(d, e, v, w, cfg, tools, inputs, i);
    ExpectingMore(d, e, v, w, cfg, inputs, i);
  }

  lemma CurrentIsKey(d: Disk, v: Vars, cfg: Config, inputs: seq<Input>)
    requires Expecting(d, v, cfg, inputs) && v.current.Some?
    ensures v.files != [] && v.current.value == Key(v.files[|v.files| - 1].target)
  {}

  lemma StartGuarded(d: Disk, v: Vars, cfg: Config, tools: Tools, inputs: seq<Input>, i: Input)
    requires Guarded(d, v, cfg, tools, inputs) && Accepted(d, v, cfg, tools, i) && v.current.None? && !IsBck(cfg.journal)
    ensures var t := Served(d, v, cfg, tools, Strip(i.raw), i.env); Guarded(t.disk, t.vars, cfg, tools, inputs + [i])
  {
    hide Vetted, FileNamed, Declared, HighBit, Strip, Command, Locate, Served;
    var t := Served(d, v, cfg, tools, Strip(i.raw), i.env);
    var all := inputs + [i];
    assert all[..|all| - 1] == inputs && i in all;
    StartReceives(d, v, cfg, tools, i);
    ServedPower(d, v, cfg, tools, i);
    var key := Key(FileNamed(i, cfg).value);
    forall s | s in t.vars.files && Key(s.target) in t.disk.files && Key(s.target) != key && t.disk.Alive()
      ensures Vetted(all, cfg, tools, Key(s.target), t.disk.files[Key(s.target)])
    {
      assert s in v.files;
      VettedMore(inputs, i, cfg, tools, Key(s.target), d.files[Key(s.target)]);
    }
  }

  lemma ServedPower(d: Disk, v: Vars, cfg: Config, tools: Tools, i: Input)
    requires i.Packet? && !IsBck(cfg.journal)
    ensures Served(d, v, cfg, tools, Strip(i.raw), i.env).disk.power <= d.power
  {
    hide SplitMax, Strip, Locate, ParseInt, Blocked, RemovedBackups, ReadJournal, IsBck;
    ClearedBackups(d, ReadJournal(d.files, cfg.journal).paths, cfg.journal);
  }

  lemma ClearedOta(d: Disk, cfg: Config)
    requires !IsBck(cfg.journal) && !IsOta(cfg.journal)
    ensures var e := Cleared(d, cfg); e.power <= d.power && forall p | IsOta(p) :: Same(d.files, e.files, p)
  {
    ClearedBackups(d, ReadJournal(d.files, cfg.journal).paths, cfg.journal);
    forall p | IsOta(p) ensures !IsBck(p) { if IsBck(p) { BckOfStem(p); } }
  }

  lemma ChunkChanges(d: Disk, v: Vars, cfg: Config, tools: Tools, i: Input)
    requires i.Packet? && Says(i, "CHUNK")
    ensures var t := Served(d, v, cfg, tools, Strip(i.raw), i.env);
            && t.disk.power <= d.power && t.vars == v.(hashed := t.vars.hashed)
            && (forall p | v.current != Some(p) :: Same(d.files, t.disk.files, p))
            && (v.current.Some? && t.disk.Alive() && v.current.value in d.files && d.files[v.current.value] == v.hashed ==>
                  v.current.value in t.disk.files && t.disk.files[v.current.value] == t.vars.hashed)
  {
    hide HighBit, Strip, SplitMax;
    assert Served(d, v, cfg, tools, Strip(i.raw), i.env) == OnChunk(d, v, tools, Strip(i.raw), i.env);
  }

  lemma ChunkGuarded(d: Disk, v: Vars, cfg: Config, tools: Tools, inputs: seq<Input>, i: Input)
    requires Guarded(d, v, cfg, tools, inputs) && Heeded(i, tools) && Says(i, "CHUNK")
    ensures var t := Served(d, v, cfg, tools, Strip(i.raw), i.env); Guarded(t.disk, t.vars, cfg, tools, inputs + [i])
  {
    hide Vetted, Checked, Expecting, Unclosed, HighBit, Strip, Locate, Served, Command;
    var t := Served(d, v, cfg, tools, Strip(i.raw), i.env);
    ChunkChanges(d, v, cfg, tools, i);
    UnclosedMore(inputs, i, tools);
    ChunkIsNoOther(i);
    CheckedMore(d, t.disk, v, t.vars, cfg, tools, inputs, i);
    ExpectingMore(d, t.disk, v, t.vars, cfg, inputs, i);
  }

  lemma ChunkIsNoOther(i: Input)
    requires Says(i, "CHUNK")
    ensures !Says(i, "FILE_START") && !Says(i, "FILE_END")
  {}

  lemma EndGuarded(d: Disk, v: Vars, cfg: Config, tools: Tools, inputs: seq<Input>, i: Input)
    requires Guarded(d, v, cfg, tools, inputs) && Heeded(i, tools) && Says(i, "FILE_END")
    ensures var t := Served(d, v, cfg, tools, Strip(i.raw), i.env); Guarded(t.disk, t.vars, cfg, tools, inputs + [i])
  {
    hide FileNamed, Declared, HighBit, Strip, SplitMax, Locate;
    var t := Served(d, v, cfg, tools, Strip(i.raw), i.env);
    assert t == OnFileEnd(d, v, tools);
    var all := inputs + [i];
    assert all[..|all| - 1] == inputs && forall j | j in inputs :: j in all;
    forall s | s in t.vars.files && Key(s.target) in t.disk.files && t.disk.Alive()
      ensures Vetted(all, cfg, tools, Key(s.target), t.disk.files[Key(s.target)])
    {
      assert s in v.files;
      if v.current != Some(Key(s.target)) { VettedMore(inputs, i, cfg, tools, Key(s.target), d.files[Key(s.target)]); }
    }
  }

  lemma RefusedGuarded(d: Disk, v: Vars, cfg: Config, tools: Tools, inputs: seq<Input>, i: Input)
    requires Guarded(d, v, cfg, tools, inputs) && v.current.None?
    ensures Guarded(d, v, cfg, tools, inputs + [i])
  {
    hide Vetted, Checked, Expecting;
    CheckedMore(d, d, v, v, cfg, tools, inputs, i);
    ExpectingMore(d, d, v, v, cfg, inputs, i);
  }

  /** What the other packets do to disk and variables. */
  lemma OtherTurn(d: Disk, v: Vars, cfg: Config, tools: Tools, i: Input)
    requires i.Packet? && !Says(i, "CHUNK") && !Says(i, "FILE_END") && !Accepted(d, v, cfg, tools, i) && Heeded(i, tools)
    ensures var t := Served(d, v, cfg, tools, Strip(i.raw), i.env);
            && (t.disk == d || (!Says(i, "FILE_START") && t.disk == Cleared(d, cfg)))
            && (if Says(i, "FILE_START") then t.vars == v else t.vars == v.(deletes := t.vars.deletes))
  {
    hide SplitMax, Strip, Locate, ParseInt, Blocked, Cleared, HighBit;
  }

  lemma TurnGuarded(d: Disk, v: Vars, cfg: Config, tools: Tools, inputs: seq<Input>, i: Input)
    requires Guarded(d, v, cfg, tools, inputs) && (Says(i, "FILE_START") ==> v.current.None?)
    requires !IsBck(cfg.journal) && !IsOta(cfg.journal)
    ensures var (e, w) := Turned(d, v, cfg, tools, i); Guarded(e, w, cfg, tools, inputs + [i])
  {
    hide Guarded, Heeded, Served, Says, Strip, Cleared, IsBck, IsOta, Accepted;
    if !Heeded(i, tools) {
      ShrunkGuarded(d, d, v, v, cfg, tools, inputs, i);
    } else {
      HeededIsPacket(i, tools);
      SaysOne(i);
      if Says(i, "CHUNK") { ChunkGuarded(d, v, cfg, tools, inputs, i); }
      else if Says(i, "FILE_END") { EndGuarded(d, v, cfg, tools, inputs, i); }
      else if Accepted(d, v, cfg, tools, i) {
        AcceptedSays(d, v, cfg, tools, i);
        StartGuarded(d, v, cfg, tools, inputs, i);
      }
      else {
        OtherTurn(d, v, cfg, tools, i);
        ClearedOta(d, cfg);
        var t := Served(d, v, cfg, tools, Strip(i.raw), i.env);
        if Says(i, "FILE_START") { RefusedGuarded(d, v, cfg, tools, inputs, i); }
        else { ShrunkGuarded(d, t.disk, v, t.vars, cfg, tools, inputs, i); }
      }
    }
  }

  lemma SaysOne(i: Input)
    ensures Says(i, "FILE_START") ==> !Says(i, "FILE_END")
  {}

  lemma AcceptedSays(d: Disk, v: Vars, cfg: Config, tools: Tools, i: Input)
    requires Accepted(d, v, cfg, tools, i)
    ensures Says(i, "FILE_START")
  {}

  lemma {:induction false} AfterGuarded(d: Disk, cfg: Config, tools: Tools, inputs: seq<Input>)
    requires !IsBck(cfg.journal) && !IsOta(cfg.journal)
    requires forall k | 0 <= k < |inputs| && Says(inputs[k], "FILE_START") :: !Unclosed(inputs[..k], tools)
    ensures var (e, w) := After(d, FRESH, cfg, tools, inputs); Guarded(e, w, cfg, tools, inputs)
    decreases |inputs|
  {
    hide Turned, Says, Unclosed, IsBck, IsOta, Expecting, Checked;
    if inputs == [] {
      FreshIsGuarded(d, cfg, tools);
    } else {
      var n := |inputs| - 1;
      forall k | 0 <= k < n && Says(inputs[..n][k], "FILE_START") ensures !Unclosed(inputs[..n][..k], tools) {
        assert inputs[..n][..k] == inputs[..k] && inputs[..n][k] == inputs[k];
      }
      AfterGuarded(d, cfg, tools, inputs[..n]);
      var (e, w) := After(d, FRESH, cfg, tools, inputs[..n]);
      TurnGuarded(e, w, cfg, tools, inputs[..n], inputs[n]);
      assert inputs[..n] + [inputs[n]] == inputs;
    }
  }

  lemma FreshIsGuarded(d: Disk, cfg: Config, tools: Tools)
    ensures Guarded(d, FRESH, cfg, tools, [])
  {}

  /* ---- what the commit takes from it ---- */

  /** The content under `q` is the old one or comes from a staged file of that name. */
  ghost predicate FromStaged(d: Files, e: Files, files: seq<Staged>, q: Path) {
    q in e ==> (q in d && e[q] == d[q]) || exists s :: s in files && s.target == q && s.staging in d && e[q] == d[s.staging]
  }

  lemma OneHelper(d: Disk, s: Staged, q: Path)
    requires d.Sound() && s.staging == Ota(s.target) && !IsOta(s.target) && !IsOta(q)
    ensures var m := Renamed(Removed(d, s.target), s.staging, s.target);
            && m.Sound() && FromStaged(d.files, m.files, [s], q) && OtaShrinks(d.files, m.files)
  {
    var m := Renamed(Removed(d, s.target), s.staging, s.target);
    if q in m.files && !(q in d.files && m.files[q] == d.files[q]) { assert s in [s] && s.target == q; }
  }

  /** Staging files may go, but none changes. */
  ghost predicate OtaShrinks(f: Files, g: Files) { forall p | IsOta(p) && p in g :: p in f && g[p] == f[p] }

  lemma FromStagedThen(f: Files, g: Files, h: Files, first: seq<Staged>, rest: seq<Staged>, all: seq<Staged>, q: Path)
    requires FromStaged(f, g, first, q) && FromStaged(g, h, rest, q) && OtaShrinks(f, g) && Paired(all)
    requires forall s | s in first || s in rest :: s in all
    ensures FromStaged(f, h, all, q)
  {
    if q in h {
      if q in g && h[q] == g[q] {
        if !(q in f && g[q] == f[q]) {
          var s :| s in first && s.target == q && s.staging in f && g[q] == f[s.staging];
          assert s in all;
        }
      } else {
        var s :| s in rest && s.target == q && s.staging in g && h[q] == g[s.staging];
        assert s in all && IsOta(s.staging);
      }
    }
  }

  lemma {:induction false} RtcBrings(d: Disk, files: seq<Staged>, q: Path)
    requires d.Sound() && Paired(files) && (forall s | s in files :: !IsOta(s.target)) && !IsOta(q)
    ensures var e := RtcPlaced(d, files); FromStaged(d.files, e.files, files, q) && OtaShrinks(d.files, e.files)
    decreases |files|
  {
    hide FromStaged, IsRtcHelper, IsOta;
    if files == [] {
      SameFromStaged(d.files, files, q);
    } else {
      var s, rest := files[0], files[1..];
      assert s in files && forall x | x in rest :: x in files;
      var m := if IsRtcHelper(s) then Renamed(Removed(d, s.target), s.staging, s.target) else d;
      OneHelper(d, s, q);
      SameFromStaged(d.files, [s], q);
      RtcBrings(m, rest, q);
      FromStagedThen(d.files, m.files, RtcPlaced(d, files).files, [s], rest, files, q);
    }
  }

  lemma SameFromStaged(f: Files, files: seq<Staged>, q: Path)
    ensures FromStaged(f, f, files, q)
  {}

  /** Wherever it is cut, `commit` puts nothing under a firmware name but what was staged
      for it. */
  lemma CommitBrings(d: Disk, cfg: Config, staged: seq<Staged>, deletes: seq<Path>, q: Path)
    requires d.Sound() && Ready(d.files, cfg, staged, deletes) && !IsOta(q) && !IsBck(q) && q != cfg.journal
    ensures FromStaged(d.files, Committed(d, cfg, staged, deletes).0.files, staged, q)
  {
    hide Committed, StagedTargets;
    var paths, e := StagedTargets(d.files, staged), Committed(d, cfg, staged, deletes).0;
    if q in Targets(paths) {
      var s := StagedWitness(d.files, staged, q);
      CommitCut(d, cfg, staged, deletes);
      assert e == d || Half(d.files, e.files, q) by { assert q in Targets(paths); }
    } else {
      CommitBringsNoOther(d, cfg, staged, deletes, q);
    }
  }

  lemma FinishedBrings(d: Disk, v: Vars, cfg: Config, ts: set<Path>, q: Path)
    requires d.Sound() && Committable(v, cfg, ts) && !IsOta(q) && !IsBck(q) && q != cfg.journal
    ensures FromStaged(d.files, Finished(d, v, cfg).0.files, v.files, q)
  {
    hide Committed, RtcPlaced, IsRtcHelper, FromStaged, Ready, OtaShrinks;
    var r, kept := RtcPlaced(d, v.files), Session.Retained(v.files);
    CommitReadies(d, v, cfg, ts);
    CommittableTargets(v, cfg, ts);
    RtcBrings(d, v.files, q);
    CommitBrings(r, cfg, kept, v.deletes, q);
    RetainedAre(v.files);
    FromStagedThen(d.files, r.files, AtReply(d, v, cfg).files, v.files, kept, v.files, q);
    FlagIsLast(d, v, cfg);
    FewerFromStaged(d.files, AtReply(d, v, cfg).files, WithoutFlag(AtReply(d, v, cfg), cfg).files, v.files, q);
  }

  lemma CommittableTargets(v: Vars, cfg: Config, ts: set<Path>)
    requires Committable(v, cfg, ts)
    ensures Paired(v.files) && forall s | s in v.files :: !IsOta(s.target)
  {
    assert forall s | s in v.files :: s.target in TargetSet(v.files);
  }

  lemma FewerFromStaged(f: Files, g: Files, h: Files, files: seq<Staged>, q: Path)
    requires FromStaged(f, g, files, q) && (q in h ==> q in g && h[q] == g[q])
    ensures FromStaged(f, h, files, q)
  {}

  /* ---- the whole session ---- */

  /** A FILE_START of the session names the file and declares the digest of what it
      holds. */
  ghost predicate Announces(inputs: seq<Input>, cfg: Config, tools: Tools, q: Path, content: Content) {
    exists i :: i in inputs && FileNamed(i, cfg) == Some(q) && tools.hexHash(content) == Declared(i)
  }

  lemma LongerName(cs: seq<string>)
    requires AllNames(cs) && cs != []
    ensures var n := |cs| - 1; AllNames(cs[..n] + [cs[n] + OTA])
  {
    var n := |cs| - 1;
    assert cs[n] in cs && IsName(cs[n]);
    assert |cs[n] + OTA| > 1 && '/' !in OTA;
  }

  lemma OtaLocated(cs: seq<string>)
    requires AllNames(cs) && cs != []
    ensures Key(Spell(cs)) == Ota(Spell(cs))
  {
    hide Spell, Comps, AllNames, IsName, IsOta, IsBck, EndsWith;
    var n := |cs| - 1;
    var dir, last := cs[..n], cs[n] + OTA;
    LongerName(cs);
    assert cs == dir + [cs[n]];
    SpellAppend(dir, cs[n]);
    SpellAppend(dir, last);
    assert Spell(dir) + "/" + cs[n] + OTA == Spell(dir) + "/" + last;
    CompsOfSpelling("", dir + [last]);
    assert "" + Spell(dir + [last]) == Spell(dir + [last]);
  }

  lemma KeyIsOta(inputs: seq<Input>, cfg: Config, t: Path)
    requires Usable(inputs, cfg) && t in Targeted(inputs, cfg)
    ensures Key(t) == Ota(t)
  {
    hide Targeted, OwnPaths, Doomed, Key;
    var files := map p | p in Targeted(inputs, cfg) + OwnPaths(cfg) :: "";
    assert t in files;
    OtaLocated(Comps(t));
  }

  lemma BracketedSoFar(inputs: seq<Input>, tools: Tools, n: nat)
    requires Bracketed(inputs, tools) && n < |inputs| && Commits(inputs[n])
    ensures forall k | 0 <= k < |inputs[..n]| && Says(inputs[..n][k], "FILE_START") :: !Unclosed(inputs[..n][..k], tools)
    ensures !Unclosed(inputs[..n], tools)
  {
    hide Unclosed;
    forall k | 0 <= k < n && Says(inputs[..n][k], "FILE_START") ensures !Unclosed(inputs[..n][..k], tools) {
      assert inputs[..n][..k] == inputs[..k];
    }
  }

  lemma VettedAnnounces(inputs: seq<Input>, some: seq<Input>, cfg: Config, tools: Tools, q: Path, content: Content)
    requires Vetted(some, cfg, tools, Key(q), content) && Usable(inputs, cfg) && q in Targeted(inputs, cfg)
    requires forall i | i in some :: i in inputs
    ensures Announces(inputs, cfg, tools, q, content)
  {
    hide Usable, Declared, FileNamed, Key;
    var i :| i in some && FileNamed(i, cfg).Some? && Key(FileNamed(i, cfg).value) == Key(q) && tools.hexHash(content) == Declared(i);
    var t := FileNamed(i, cfg).value;
    assert t in Targeted(inputs, cfg);
    KeyIsOta(inputs, cfg, t);
    KeyIsOta(inputs, cfg, q);
    assert Stem(Ota(t)) == Stem(Ota(q));
  }

  lemma CommittedDeclared(d: Disk, cfg: Config, tools: Tools, inputs: seq<Input>, n: nat, q: Path)
    requires n < |inputs| && Commits(inputs[n]) && Bracketed(inputs, tools)
    requires d.Sound() && Usable(inputs, cfg) && !IsOta(q) && !IsBck(q) && q != cfg.journal
    ensures var (m, w) := After(d, FRESH, cfg, tools, inputs[..n]);
            var e := Finished(m, w, cfg).0;
            q in e.files ==> (q in d.files && e.files[q] == d.files[q]) || Announces(inputs, cfg, tools, q, e.files[q])
  {
    hide Usable, Finished, After, FileNamed, Declared, Unclosed, Targeted, Doomed, Key, Expecting, Vetted, Bracketed, Announces, Journalled, Clean;
    UsableNames(inputs, cfg);
    AtTheEnd(d, cfg, tools, inputs, n);
    var ts := Targeted(inputs, cfg);
    var (m, w) := After(d, FRESH, cfg, tools, inputs[..n]);
    var e := Finished(m, w, cfg).0;
    BracketedSoFar(inputs, tools, n);
    AfterGuarded(d, cfg, tools, inputs[..n]);
    VouchedCommittable(w, cfg, ts, Doomed(inputs, cfg));
    FinishedBrings(m, w, cfg, ts, q);
    if m.power == 0 { DeadFinished(m, w, cfg); }
    assert q in m.files ==> Same(d.files, m.files, q);
    if q in e.files && !(q in d.files && e.files[q] == d.files[q]) {
      var s :| s in w.files && s.target == q && s.staging in m.files && e.files[q] == m.files[s.staging];
      assert q in TargetSet(w.files);
      KeyIsOta(inputs, cfg, q);
      VettedAnnounces(inputs, inputs[..n], cfg, tools, q, e.files[q]);
    }
  }

  /** A session whose every FILE_START is closed by FILE_END, whatever else arrives and
      wherever the power fails: a firmware file holds what it held, or content whose
      digest was declared for it. */
  lemma OnlyDeclaredArrives(d: Disk, cfg: Config, tools: Tools, timeoutMs: int, inputs: seq<Input>, e: Disk, end: End, q: Path)
    requires Conducted(d, FRESH, cfg, tools, timeoutMs, inputs, e, end) && Bracketed(inputs, tools)
    requires d.Sound() && Usable(inputs, cfg) && !IsOta(q) && !IsBck(q) && q != cfg.journal
    ensures q in e.files ==> (q in d.files && e.files[q] == d.files[q]) || Announces(inputs, cfg, tools, q, e.files[q])
  {
    hide Usable, Finished, Until, After, Vouched, SweptFrom, FileNamed, Declared, Unclosed, Targeted, Doomed;
    UsableNames(inputs, cfg);
    var n := Until(inputs, tools, timeoutMs);
    var (m, w) := After(d, FRESH, cfg, tools, inputs[..n]);
    if n < |inputs| && Commits(inputs[n]) {
      CommittedDeclared(d, cfg, tools, inputs, n, q);
    } else {
      UncommittedUntouched(d, cfg, tools, timeoutMs, inputs, e, end);
      assert Same(d.files, e.files, q) || q !in e.files;
    }
  }
}
