/** The host's side of an update, composed with the device's session over a
    reliable in-order link. */
module Host {
  import opened Text
  import opened Disks
  import opened Paths
  import opened Restore
  import opened Session
  import opened Base64

  datatype Entry = Entry(path: string, content: Content)

  /* ---- the messages ---- */

  function UpdateStartMessage(count: nat, total: nat): string {
    "UPDATE_START" + [':'] + NatText(count) + [':'] + NatText(total)
  }

  function FileStartMessage(e: Entry, hash: string): string {
    "FILE_START" + [':'] + e.path + [':'] + NatText(|e.content|) + [':'] + hash
  }

  function DeleteMessage(path: string): string { "DELETE" + [':'] + path }

  /** What the host is given: paths that the line format carries, contents that
      are bytes, and library functions that keep their promises. */
  ghost predicate Sendable(tools: Tools, e: Entry) {
    && ':' !in e.path && IsBytes(e.content) && tools.validText(FileStartMessage(e, tools.hexHash(e.content)))
  }

  ghost predicate Deletable(tools: Tools, path: string) {
    && path != "" && !IsSpace(path[|path| - 1]) && tools.validText(DeleteMessage(path))
  }

  ghost predicate Faithful(tools: Tools) {
    && (forall x | IsBytes(x) :: tools.decode(Encode(x)) == Some(x))
    && (forall x :: tools.hexHash(x) != "" && Printable(tools.hexHash(x)))
  }

  /** Base64 as its standard defines it keeps the decoder's promise. */
  lemma StandardDecoderIsFaithful(hexHash: Content -> string, validText: string -> bool)
    requires forall x :: hexHash(x) != "" && Printable(hexHash(x))
    ensures Faithful(Tools((r: string) => Decode(r), hexHash, validText))
  {
    forall x | IsBytes(x) ensures Decode(Encode(x)) == Some(x) { RoundTrip(x); }
  }

  /* ---- what each message means to the device ---- */

  /** A message passes the device's trimming and its UTF-8 check. */
  ghost predicate Passes(tools: Tools, m: string) {
    m != "" && Strip(m) == m && (HighBit(m) ==> tools.validText(m))
  }

  lemma PlainPasses(tools: Tools, m: string)
    requires m != "" && !IsSpace(m[0]) && !IsSpace(m[|m| - 1]) && !HighBit(m)
    ensures Passes(tools, m)
  {
  }

  lemma NumeralHasNoColon(n: nat)
    ensures ':' !in NatText(n) && ParseInt(NatText(n)) == Some(n)
  {
    ParseIntText(n);
    assert NatText(n) == IntText(n);
  }

  lemma UpdateStartFields(count: nat, total: nat)
    ensures var m := UpdateStartMessage(count, total);
            SplitMax(m, ':', 2) == ["UPDATE_START", NatText(count), NatText(total)] && Command(m) == "UPDATE_START"
  {
    NumeralHasNoColon(count);
    var c := "UPDATE_START";
    ThreeSplit(c, NatText(count), NatText(total), ':');
  }

  lemma UpdateStartPasses(tools: Tools, count: nat, total: nat)
    ensures Passes(tools, UpdateStartMessage(count, total))
  {
    var m, b := UpdateStartMessage(count, total), NatText(total);
    assert m[|m| - 1] == b[|b| - 1] && m[0] == 'U';
    PlainPasses(tools, m);
  }

  lemma UpdateStartTurn(d: Disk, v: Vars, cfg: Config, tools: Tools, count: nat, total: nat, env: Env)
    ensures Served(d, v, cfg, tools, UpdateStartMessage(count, total), env)
            == Turn(Cleared(d, cfg), v.(deletes := []), if env.free * 2 < total * 3 then "SPACE_ERR" else "SPACE_OK")
  {
    UpdateStartFields(count, total);
    NumeralHasNoColon(count);
    NumeralHasNoColon(total);
  }

  lemma FileStartFields(e: Entry, hash: string)
    requires ':' !in e.path
    ensures var m := FileStartMessage(e, hash);
            SplitMax(m, ':', 3) == ["FILE_START", e.path, NatText(|e.content|), hash] && Command(m) == "FILE_START"
  {
    var c, size := "FILE_START", NatText(|e.content|);
    NumeralHasNoColon(|e.content|);
    hide NatText, SplitMax;
    FourSplit(c, e.path, size, hash, ':');
  }

  lemma FileStartPasses(tools: Tools, e: Entry)
    requires Sendable(tools, e) && Faithful(tools)
    ensures Passes(tools, FileStartMessage(e, tools.hexHash(e.content)))
  {
    var hash := tools.hexHash(e.content);
    var m := FileStartMessage(e, hash);
    assert hash != "" && Printable(hash);
    assert m[|m| - 1] == hash[|hash| - 1] && m[0] == 'F';
  }

  lemma FileStartTurn(d: Disk, v: Vars, cfg: Config, tools: Tools, e: Entry, hash: string, env: Env)
    requires ':' !in e.path
    ensures Served(d, v, cfg, tools, FileStartMessage(e, hash), env) == Opening(d, v, Resolve(e.path, cfg.micropython), hash, env)
  {
    FileStartFields(e, hash);
    NumeralHasNoColon(|e.content|);
  }

  lemma ChunkFields(i: nat, data: string)
    requires IsBytes(data)
    ensures var m := ChunkMessage(i, data); SplitMax(m, ':', 2) == ["CHUNK", NatText(i), Encode(data)] && Command(m) == "CHUNK"
  {
    var c := "CHUNK";
    NumeralHasNoColon(i);
    hide NatText, SplitMax, Encode;
    EncodedPrintable(data);
    ThreeSplit(c, NatText(i), Encode(data), ':');
  }

  lemma ChunkPasses(tools: Tools, i: nat, data: string)
    requires IsBytes(data) && data != ""
    ensures Passes(tools, ChunkMessage(i, data))
  {
    var m, b := ChunkMessage(i, data), Encode(data);
    EncodedPrintable(data);
    assert m[|m| - 1] == b[|b| - 1] && m[0] == 'C';
    PlainPasses(tools, m);
  }

  lemma ChunkTurn(d: Disk, v: Vars, cfg: Config, tools: Tools, i: nat, data: string, env: Env)
    requires IsBytes(data) && Faithful(tools) && v.current.Some?
    ensures var t := Served(d, v, cfg, tools, ChunkMessage(i, data), env);
            && (env.writeError == None ==>
                  t == Turn(Appended(d, v.current.value, data), v.(hashed := v.hashed + data), "CHUNK_ACK:" + NatText(i)))
            && (env.writeError != None ==> t.reply != "CHUNK_ACK:" + NatText(i))
  {
    ChunkFields(i, data);
    assert tools.decode(Encode(data)) == Some(data);
    if env.writeError.Some? { assert ("CHUNK_ERR:" + env.writeError.value)[6] == 'E' && ("CHUNK_ACK:" + NatText(i))[6] == 'A'; }
  }

  /** The messages without arguments. */
  lemma BareMessage(tools: Tools, m: string)
    requires m != "" && ':' !in m && !IsSpace(m[0]) && !IsSpace(m[|m| - 1]) && !HighBit(m)
    ensures Passes(tools, m) && Command(m) == m
  {
    SplitMaxWhole(m, ':', 1);
    PlainPasses(tools, m);
  }

  lemma FileEndTurn(d: Disk, v: Vars, cfg: Config, tools: Tools, env: Env)
    ensures Served(d, v, cfg, tools, "FILE_END", env) == OnFileEnd(d, v, tools)
  {
    BareMessage(tools, "FILE_END");
  }

  lemma DeleteFields(tools: Tools, path: string)
    requires Deletable(tools, path)
    ensures var m := DeleteMessage(path); Passes(tools, m) && SplitMax(m, ':', 1) == ["DELETE", path] && Command(m) == "DELETE"
  {
    var m, c := DeleteMessage(path), "DELETE";
    SplitMaxHead(c, ':', path, 1);
    assert m == c + [':'] + path;
    assert m[|m| - 1] == path[|path| - 1] && m[0] == 'D';
  }

  lemma DeleteTurn(d: Disk, v: Vars, cfg: Config, tools: Tools, path: string, env: Env)
    requires Deletable(tools, path)
    ensures Served(d, v, cfg, tools, DeleteMessage(path), env)
            == Turn(d, v.(deletes := v.deletes + [Resolve(path, cfg.micropython)]), "DELETE_OK")
  {
    DeleteFields(tools, path);
  }
}
