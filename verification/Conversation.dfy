/** The whole update conversation: when the host sees COMMIT_OK, the device holds
    exactly the host's files, on trial, with the old ones retained. */
module Conversation {
  import opened Text
  import opened Disks
  import opened Names
  import opened Paths
  import opened Restore
  import opened Atomicity
  import opened Sweep
  import opened Session
  import opened Base64
  import opened Host

  function TargetOf(e: Entry, cfg: Config): Path { Resolve(e.path, cfg.micropython) }

  function Pairs(manifest: seq<Entry>, cfg: Config): seq<Staged> {
    seq(|manifest|, i requires 0 <= i < |manifest| => var t := TargetOf(manifest[i], cfg); Staged(t, Ota(t)))
  }

  function Resolved(paths: seq<string>, cfg: Config): seq<Path> {
    seq(|paths|, i requires 0 <= i < |paths| => Resolve(paths[i], cfg.micropython))
  }

  /** Distinct targets under the spelling that the device files them under. */
  ghost predicate Addressable(manifest: seq<Entry>, cfg: Config) {
    && (forall e | e in manifest :: Locate(Ota(TargetOf(e, cfg))) == Ota(TargetOf(e, cfg)))
    && (forall i, j | 0 <= i < j < |manifest| :: TargetOf(manifest[i], cfg) != TargetOf(manifest[j], cfg))
  }

  /* ---- one file ---- */

  /** Where chunk `i` starts, as Python's slicing cuts it. */
  function Offset(i: nat, size: nat, chunk: nat): (off: nat)
    ensures off <= size
  {
    if i * chunk < size then i * chunk else size
  }

  function ChunkCount(size: nat, chunk: nat): nat
    requires chunk > 0
  {
    (size + chunk - 1) / chunk
  }

  lemma Multiples(a: nat, b: nat, c: nat)
    requires a <= b
    ensures a * c <= b * c && (a + 1) * c == a * c + c
  {
    assert b * c == a * c + (b - a) * c;
  }

  lemma CountBounds(size: nat, chunk: nat)
    requires chunk > 0
    ensures var q := ChunkCount(size, chunk); size <= q * chunk < size + chunk
  {
    var n := size + chunk - 1;
    var q, r := n / chunk, n % chunk;
    assert n == q * chunk + r && 0 <= r < chunk;
  }

  /** There is a chunk `i` exactly while it starts inside the content; then it is
      not empty. */
  lemma ChunkBounds(i: nat, size: nat, chunk: nat)
    requires chunk > 0
    ensures i < ChunkCount(size, chunk) <==> Offset(i, size, chunk) < size
    ensures i < ChunkCount(size, chunk) ==> Offset(i, size, chunk) < Offset(i + 1, size, chunk)
    ensures Offset(0, size, chunk) == 0
  {
    var q := ChunkCount(size, chunk);
    CountBounds(size, chunk);
    if i < q { Multiples(i, i, chunk); Multiples(i + 1, q, chunk); } else { Multiples(q, i, chunk); }
  }

  /** While a file is sent only its staging file and the digest change. */
  ghost predicate Streaming(d: Disk, v: Vars, d0: Disk, v0: Vars, key: Path, sent: Content) {
    && v == v0.(hashed := sent) && v0.current == Some(key) && Staging(d0, d)
    && (d.Alive() ==> d.files == d0.files[key := sent])
  }

  lemma StreamStep(d: Disk, v: Vars, d0: Disk, v0: Vars, key: Path, sent: Content, data: Content)
    requires Streaming(d, v, d0, v0, key, sent) && IsOta(key)
    ensures Streaming(Appended(d, key, data), v.(hashed := v.hashed + data), d0, v0, key, sent + data)
  {}

  lemma ServedChunk(d: Disk, v: Vars, cfg: Config, tools: Tools, packet: string, env: Env)
    requires Command(packet) == "CHUNK" && Good(d, v)
    ensures var t := Served(d, v, cfg, tools, packet, env); Staging(d, t.disk) && Good(t.disk, t.vars)
  {
    ChunkStages(d, v, tools, packet, env);
  }

  /** One CHUNK exchange: acknowledged means that the device took the data. */
  method SendChunk(device: UpdateSession, i: nat, data: Content, env: Env) returns (ok: bool)
    requires Good(device.fs.disk, device.Now()) && IsBytes(data) && data != "" && Faithful(device.tools) && device.currentFile.Some?
    modifies device, device.fs
    ensures Good(device.fs.disk, device.Now()) && Staging(old(device.fs.disk), device.fs.disk)
    ensures ok ==> device.fs.disk == Appended(old(device.fs.disk), old(device.currentFile.value), data)
                   && device.Now() == old(device.Now()).(hashed := old(device.hashed) + data)
    ensures env.writeError.None? ==> ok
  {
    ghost var d, v, m := device.fs.disk, device.Now(), ChunkMessage(i, data);
    ChunkTurn(d, v, device.cfg, device.tools, i, data, env);
    ChunkPasses(device.tools, i, data);
    ChunkFields(i, data);
    ServedChunk(d, v, device.cfg, device.tools, m, env);
    var reply, over := device.Receive(ChunkMessage(i, data), env);
    ok := reply == "CHUNK_ACK:" + NatText(i);
  }

  /** Chunk `i`, from `off` on. */
  method SendNext(device: UpdateSession, content: Content, chunkSize: nat, i: nat, off: nat, env: Env,
                  ghost d0: Disk, ghost v0: Vars, ghost key: Path)
    returns (ok: bool, end: nat)
    requires chunkSize > 0 && i < ChunkCount(|content|, chunkSize) && off == Offset(i, |content|, chunkSize)
    requires Good(device.fs.disk, device.Now()) && IsBytes(content) && Faithful(device.tools)
    requires Streaming(device.fs.disk, device.Now(), d0, v0, key, content[..off]) && IsOta(key) && Staging(d0, device.fs.disk)
    modifies device, device.fs
    ensures Good(device.fs.disk, device.Now()) && Staging(d0, device.fs.disk) && end == Offset(i + 1, |content|, chunkSize)
    ensures ok ==> Streaming(device.fs.disk, device.Now(), d0, v0, key, content[..end])
    ensures env.writeError.None? ==> ok
    ensures ok ==> device.fs.disk.power + 1 >= old(device.fs.disk.power)
  {
    hide Good, Streaming, Staging, Offset, ChunkCount, IsBytes;
    end := Offset(i + 1, |content|, chunkSize);
    ChunkBounds(i, |content|, chunkSize);
    NextPiece(content, off, end);
    ghost var d := device.fs.disk;
    StreamStep(d, device.Now(), d0, v0, key, content[..off], content[off..end]);
    ok := SendChunk(device, i, content[off..end], env);
    StagingThen(d0, d, device.fs.disk);
  }

  /** The device meets no error of its platform. */
  ghost predicate Untroubled(envs: nat -> Env) { forall n :: envs(n).openError.None? && envs(n).writeError.None? }

  /** All chunks of one file. */
  method SendChunks(device: UpdateSession, content: Content, chunkSize: nat, envs: nat -> Env, n0: nat) returns (ok: bool, n: nat)
    requires Good(device.fs.disk, device.Now()) && chunkSize > 0 && IsBytes(content) && Faithful(device.tools)
    requires device.currentFile.Some? && device.hashed == ""
    requires var d := device.fs.disk; d.Alive() ==> device.currentFile.value in d.files && d.files[device.currentFile.value] == ""
    modifies device, device.fs
    ensures Good(device.fs.disk, device.Now()) && Staging(old(device.fs.disk), device.fs.disk)
    ensures ok ==> Streaming(device.fs.disk, device.Now(), old(device.fs.disk), old(device.Now()), old(device.currentFile.value), content)
    ensures Untroubled(envs) ==> ok
    ensures ok ==> device.fs.disk.power + ChunkCount(|content|, chunkSize) >= old(device.fs.disk.power)
  {
    ghost var d0, v0, key := device.fs.disk, device.Now(), device.currentFile.value;
    n := n0;
    ghost var untroubled := Untroubled(envs);
    assert forall m | untroubled :: envs(m).writeError.None?;
    hide *;
    CurrentIsStaging(d0, v0);
    StreamStart(d0, v0, key);
    StreamStages(d0, v0, d0, v0, key, "");
    assert content[..0] == "";
    ChunkBounds(0, |content|, chunkSize);
    var i, off, count := 0, 0, ChunkCount(|content|, chunkSize);
    while i < count
      invariant 0 <= i <= count && off == Offset(i, |content|, chunkSize) && device.fs.disk.power + i >= d0.power
      invariant Streaming(device.fs.disk, device.Now(), d0, v0, key, content[..off])
      invariant Good(device.fs.disk, device.Now()) && Staging(d0, device.fs.disk)
    {
      ok, off := SendNext(device, content, chunkSize, i, off, envs(n), d0, v0, key);
      n := n + 1;
      if !ok { return; }
      i := i + 1;
    }
    ChunkBounds(i, |content|, chunkSize);
    assert content[..off] == content;
    ok := true;
  }

  lemma NextPiece(content: Content, off: nat, end: nat)
    requires off < end <= |content| && IsBytes(content)
    ensures content[off..end] != "" && IsBytes(content[off..end]) && content[..off] + content[off..end] == content[..end]
  {}

  lemma CurrentIsStaging(d: Disk, v: Vars)
    requires Good(d, v) && v.current.Some?
    ensures IsOta(v.current.value)
  {}

  lemma StreamStages(d: Disk, v: Vars, d0: Disk, v0: Vars, key: Path, sent: Content)
    requires Streaming(d, v, d0, v0, key, sent)
    ensures Staging(d0, d)
  {}

  lemma StreamStart(d: Disk, v: Vars, key: Path)
    requires v.current == Some(key) && v.hashed == "" && (d.Alive() ==> key in d.files && d.files[key] == "")
    ensures Streaming(d, v, d, v, key, "")
  {
    if d.Alive() { assert d.files[key := ""] == d.files; }
  }

  /** The variables once one more file has been received and closed. */
  function WithFile(v: Vars, t: Path): Vars {
    Vars(v.files + [Staged(t, Ota(t))], v.deletes, None, "", "")
  }

  lemma OpeningGood(d: Disk, v: Vars, target: Path, hash: string, env: Env)
    requires Good(d, v)
    ensures var t := Opening(d, v, target, hash, env); Good(t.disk, t.vars) && Staging(d, t.disk)
  {
    OpeningStages(d, v, target, hash, env);
  }

  /** FILE_START: accepted means that the staging file is open and empty. */
  method StartFile(device: UpdateSession, e: Entry, env: Env) returns (ok: bool)
    requires Good(device.fs.disk, device.Now()) && Sendable(device.tools, e) && Faithful(device.tools)
    modifies device, device.fs
    ensures Good(device.fs.disk, device.Now()) && Staging(old(device.fs.disk), device.fs.disk)
    ensures var t := TargetOf(e, device.cfg); var key := Locate(Ota(t)); var v := old(device.Now());
            ok ==> device.fs.disk == Written(old(device.fs.disk), key, "")
                   && device.Now() == Vars(v.files + [Staged(t, Ota(t))], v.deletes, Some(key), device.tools.hexHash(e.content), "")
    ensures env.openError.None? && !Blocked(old(device.fs.disk.files), Locate(Ota(TargetOf(e, device.cfg)))) ==> ok
    ensures ok ==> device.fs.disk.power + 1 >= old(device.fs.disk.power)
  {
    ghost var d, v := device.fs.disk, device.Now();
    var hash := device.tools.hexHash(e.content);
    FileStartPasses(device.tools, e);
    FileStartFields(e, hash);
    FileStartTurn(d, v, device.cfg, device.tools, e, hash, env);
    OpeningGood(d, v, TargetOf(e, device.cfg), hash, env);
    var reply, over := device.Receive(FileStartMessage(e, hash), env);
    ok := reply == "FILE_OK";
  }

  lemma FileEndGood(d: Disk, v: Vars, tools: Tools)
    requires Good(d, v)
    ensures var t := OnFileEnd(d, v, tools); Good(t.disk, t.vars) && Staging(d, t.disk)
  {
    FileEndStages(d, v, tools);
  }

  /** FILE_END: the device compares digests. */
  method EndFile(device: UpdateSession, env: Env) returns (ok: bool)
    requires Good(device.fs.disk, device.Now())
    modifies device, device.fs
    ensures Good(device.fs.disk, device.Now()) && Staging(old(device.fs.disk), device.fs.disk)
    ensures old(device.currentFile).Some? ==> (ok <==> device.tools.hexHash(old(device.hashed)) == old(device.currentHash))
    ensures ok ==> device.fs.disk == old(device.fs.disk) && device.Now() == old(device.Now()).(current := None, expected := "", hashed := "")
  {
    BareMessage(device.tools, "FILE_END");
    FileEndTurn(device.fs.disk, device.Now(), device.cfg, device.tools, env);
    FileEndGood(device.fs.disk, device.Now(), device.tools);
    var reply, over := device.Receive("FILE_END", env);
    ok := reply == "FILE_OK";
  }

  /** The flash steps that staging a file takes: one to open it and one for each chunk. */
  function FileCost(e: Entry, chunkSize: nat): nat
    requires chunkSize > 0
  {
    1 + ChunkCount(|e.content|, chunkSize)
  }

  /** One file of the manifest: accepted means that the device has staged exactly
      the host's bytes. */
  method SendFile(device: UpdateSession, e: Entry, chunkSize: nat, envs: nat -> Env, n0: nat) returns (ok: bool, n: nat)
    requires Good(device.fs.disk, device.Now()) && Sendable(device.tools, e) && Faithful(device.tools) && chunkSize > 0
    requires var o := Ota(TargetOf(e, device.cfg)); Locate(o) == o
    modifies device, device.fs
    ensures Good(device.fs.disk, device.Now()) && Staging(old(device.fs.disk), device.fs.disk)
    ensures ok ==> device.Now() == WithFile(old(device.Now()), TargetOf(e, device.cfg))
    ensures ok && device.fs.disk.Alive() ==> device.fs.disk.files == old(device.fs.disk.files)[Ota(TargetOf(e, device.cfg)) := e.content]
    ensures Untroubled(envs) && !Blocked(old(device.fs.disk.files), Ota(TargetOf(e, device.cfg))) ==> ok
    ensures ok ==> device.fs.disk.power + FileCost(e, chunkSize) >= old(device.fs.disk.power)
  {
    hide Good, Faithful, IsBytes, TargetOf, Tree, Locate, Blocked, ChunkCount;
    ghost var d0 := device.fs.disk;
    ok := StartFile(device, e, envs(n0));
    n := n0 + 1;
    if !ok { return; }
    ghost var d1 := device.fs.disk;
    ok, n := SendChunks(device, e.content, chunkSize, envs, n);
    StagingThen(d0, d1, device.fs.disk);
    if !ok { return; }
    ghost var d2 := device.fs.disk;
    ok := EndFile(device, envs(n));
    n := n + 1;
    StagingThen(d0, d2, device.fs.disk);
  }

  /* ---- the manifest ---- */

  /** The first `i` files are staged with the host's bytes. */
  ghost predicate StagedUpTo(d: Disk, cfg: Config, manifest: seq<Entry>, i: nat)
    requires i <= |manifest|
  {
    d.Alive() ==> forall j | 0 <= j < i ::
      var o := Ota(TargetOf(manifest[j], cfg)); o in d.files && d.files[o] == manifest[j].content
  }

  lemma StagedOneMore(d: Disk, e: Disk, cfg: Config, manifest: seq<Entry>, i: nat)
    requires i < |manifest| && Addressable(manifest, cfg) && StagedUpTo(d, cfg, manifest, i) && e.power <= d.power
    requires e.Alive() ==> e.files == d.files[Ota(TargetOf(manifest[i], cfg)) := manifest[i].content]
    ensures StagedUpTo(e, cfg, manifest, i + 1)
  {
    forall j | 0 <= j < i ensures Ota(TargetOf(manifest[j], cfg)) != Ota(TargetOf(manifest[i], cfg)) {
      OtherNames(TargetOf(manifest[j], cfg), TargetOf(manifest[i], cfg));
    }
  }

  function ManifestCost(manifest: seq<Entry>, chunkSize: nat): nat
    requires chunkSize > 0
  {
    if manifest == [] then 0
    else ManifestCost(manifest[..|manifest| - 1], chunkSize) + FileCost(manifest[|manifest| - 1], chunkSize)
  }

  lemma {:induction false} CostGrows(manifest: seq<Entry>, i: nat, chunkSize: nat)
    requires i <= |manifest| && chunkSize > 0
    ensures ManifestCost(manifest[..i], chunkSize) <= ManifestCost(manifest, chunkSize)
    ensures i < |manifest| ==> ManifestCost(manifest[..i + 1], chunkSize)
                               == ManifestCost(manifest[..i], chunkSize) + FileCost(manifest[i], chunkSize)
    decreases |manifest|
  {
    hide FileCost;
    if i == |manifest| {
      assert manifest[..i] == manifest;
    } else {
      var n := |manifest| - 1;
      CostGrows(manifest[..n], i, chunkSize);
      assert manifest[..n][..i] == manifest[..i] && manifest[..i + 1][..i] == manifest[..i];
    }
  }

  /** Neither name leads through the other. */
  predicate Clear(p: Path, q: Path) { !(Comps(p) < Comps(q)) && !(Comps(q) < Comps(p)) }

  /** Every staged name is clear of the files that are there, and of the others. */
  ghost predicate Placeable(files: Files, manifest: seq<Entry>, cfg: Config) {
    && (forall e | e in manifest :: !Blocked(files, Ota(TargetOf(e, cfg))))
    && (forall e, f | e in manifest && f in manifest :: Clear(Ota(TargetOf(e, cfg)), Ota(TargetOf(f, cfg))))
  }

  /** Nothing but staged files has been added. */
  ghost predicate Within(files: Files, d: Disk, manifest: seq<Entry>, cfg: Config) {
    d.Alive() ==> forall p | p in d.files :: p in files || exists e :: e in manifest && p == Ota(TargetOf(e, cfg))
  }

  lemma StillUnblocked(files: Files, d: Disk, manifest: seq<Entry>, cfg: Config, e: Entry)
    requires Placeable(files, manifest, cfg) && Within(files, d, manifest, cfg) && d.Alive() && e in manifest
    ensures !Blocked(d.files, Ota(TargetOf(e, cfg)))
  {
    hide Comps, TargetOf;
  }

  lemma WithinMore(files: Files, d: Disk, d': Disk, manifest: seq<Entry>, cfg: Config, e: Entry)
    requires Within(files, d, manifest, cfg) && d'.power <= d.power && e in manifest
    requires d'.Alive() ==> d'.files == d.files[Ota(TargetOf(e, cfg)) := e.content]
    ensures Within(files, d', manifest, cfg)
  {
    hide TargetOf;
  }

  method SendManifest(device: UpdateSession, manifest: seq<Entry>, chunkSize: nat, envs: nat -> Env, n0: nat) returns (ok: bool, n: nat)
    requires Good(device.fs.disk, device.Now()) && Faithful(device.tools) && chunkSize > 0
    requires Addressable(manifest, device.cfg) && forall e | e in manifest :: Sendable(device.tools, e)
    requires device.Now() == FRESH
    modifies device, device.fs
    ensures Good(device.fs.disk, device.Now()) && Staging(old(device.fs.disk), device.fs.disk)
    ensures ok ==> device.Now() == FRESH.(files := Pairs(manifest, device.cfg))
    ensures ok ==> StagedUpTo(device.fs.disk, device.cfg, manifest, |manifest|)
    ensures Untroubled(envs) && Placeable(old(device.fs.disk.files), manifest, device.cfg) ==>
              old(device.fs.disk.power) > ManifestCost(manifest, chunkSize) ==> ok
    ensures ok ==> device.fs.disk.power + ManifestCost(manifest, chunkSize) >= old(device.fs.disk.power)
  {
    hide Good, StagedUpTo, Placeable, Within, Blocked, Locate, Faithful, Sendable, TargetOf, Untroubled, FileCost;
    ghost var d0 := device.fs.disk;
    WithinStart(d0, manifest, device.cfg);
    n := n0;
    var i := 0;
    while i < |manifest|
      invariant 0 <= i <= |manifest|
      invariant Good(device.fs.disk, device.Now()) && Staging(d0, device.fs.disk)
      invariant device.Now() == FRESH.(files := Pairs(manifest[..i], device.cfg))
      invariant StagedUpTo(device.fs.disk, device.cfg, manifest, i) && Within(d0.files, device.fs.disk, manifest, device.cfg)
      invariant device.fs.disk.power + ManifestCost(manifest[..i], chunkSize) >= d0.power
    {
      ghost var d := device.fs.disk;
      assert manifest[i] in manifest;
      CostGrows(manifest, i, chunkSize);
      if Placeable(d0.files, manifest, device.cfg) && d.Alive() { StillUnblocked(d0.files, d, manifest, device.cfg, manifest[i]); }
      ok, n := SendFile(device, manifest[i], chunkSize, envs, n);
      StagingThen(d0, d, device.fs.disk);
      if !ok { return; }
      StagingPower(d, device.fs.disk);
      WithinMore(d0.files, d, device.fs.disk, manifest, device.cfg, manifest[i]);
      StagedOneMore(d, device.fs.disk, device.cfg, manifest, i);
      PairsStep(manifest, i, device.cfg);
      i := i + 1;
    }
    assert manifest[..i] == manifest;
    ok := true;
  }

  lemma WithinStart(d: Disk, manifest: seq<Entry>, cfg: Config)
    ensures Within(d.files, d, manifest, cfg) && StagedUpTo(d, cfg, manifest, 0)
  {}

  lemma StagingPower(d: Disk, e: Disk)
    requires Staging(d, e)
    ensures e.power <= d.power
  {}

  lemma PairsStep(manifest: seq<Entry>, i: nat, cfg: Config)
    requires i < |manifest|
    ensures var t := TargetOf(manifest[i], cfg);
            Pairs(manifest[..i + 1], cfg) == Pairs(manifest[..i], cfg) + [Staged(t, Ota(t))]
  {
    assert manifest[..i + 1] == manifest[..i] + [manifest[i]];
  }

  method SendDeletes(device: UpdateSession, deletes: seq<string>, envs: nat -> Env, n0: nat) returns (ok: bool, n: nat)
    requires Good(device.fs.disk, device.Now()) && device.deletePaths == []
    requires forall p | p in deletes :: Deletable(device.tools, p)
    modifies device, device.fs
    ensures device.fs.disk == old(device.fs.disk) && Good(device.fs.disk, device.Now())
    ensures ok && device.Now() == old(device.Now()).(deletes := Resolved(deletes, device.cfg))
  {
    n := n0;
    var i := 0;
    while i < |deletes|
      invariant 0 <= i <= |deletes|
      invariant device.fs.disk == old(device.fs.disk) && Good(device.fs.disk, device.Now())
      invariant device.Now() == old(device.Now()).(deletes := Resolved(deletes[..i], device.cfg))
    {
      assert deletes[i] in deletes;
      DeleteFields(device.tools, deletes[i]);
      DeleteTurn(device.fs.disk, device.Now(), device.cfg, device.tools, deletes[i], envs(n));
      var reply, over := device.Receive(DeleteMessage(deletes[i]), envs(n));
      n := n + 1;
      if reply != "DELETE_OK" { return false, n; }
      assert deletes[..i + 1] == deletes[..i] + [deletes[i]];
      i := i + 1;
    }
    assert deletes[..i] == deletes;
    ok := true;
  }
}
