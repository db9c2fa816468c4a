/** Large responses: a generator's parts cut into numbered fragments, each sent
    reliably before the next is filled. */
module Fragments {
  import opened Text

  const MAX_FRAGMENT_DATA := 194
  const MAX_RESPONSE_SIZE := MAX_FRAGMENT_DATA * 255

  /** What goes out, and the calls of the application's heartbeat in between. */
  datatype Event =
    | Fragment(messageId: nat, number: nat, total: nat, data: string, requestId: nat)
    | Abort(messageId: nat, requestId: nat)
    | Reply(text: string)
    | Heartbeat

  /** The header of the fragments of one message. */
  datatype Message = Message(id: nat, total: nat, requestId: nat)

  /** How the link behaves: does the n-th reliable send get through, and did the peer
      open a new session while it failed? */
  datatype Peer = Peer(accepts: nat -> bool, resets: nat -> bool)

  function Joined(parts: seq<string>): string {
    if parts == [] then "" else Joined(parts[..|parts| - 1]) + parts[|parts| - 1]
  }

  /** Full fragments and one shorter, non-empty one at the end. */
  function Chunks(data: string): seq<string> {
    if data == "" then []
    else if |data| <= MAX_FRAGMENT_DATA then [data]
    else [data[..MAX_FRAGMENT_DATA]] + Chunks(data[MAX_FRAGMENT_DATA..])
  }

  /** The log of fragments that all got through. */
  function Delivered(m: Message, chunks: seq<string>, beats: bool): seq<Event> {
    if chunks == [] then [] else
    var n := |chunks| - 1;
    Delivered(m, chunks[..n], beats) + Taken(m, n, chunks[n], beats)
  }

  /** One fragment that gets through, and one that does not: then the peer is told,
      unless its session is a new one. */
  function Taken(m: Message, number: nat, data: string, beats: bool): seq<Event> {
    [Fragment(m.id, number, m.total, data, m.requestId)] + if beats then [Heartbeat] else []
  }

  function Refused(m: Message, number: nat, data: string, reset: bool): seq<Event> {
    [Fragment(m.id, number, m.total, data, m.requestId)]
    + if reset then [] else [Abort(m.id, m.requestId), Reply("ERROR:Fragment transfer failed")]
  }

  /** What send number `n` of the peer puts out. */
  function Outcome(m: Message, number: nat, data: string, peer: Peer, n: nat, beats: bool): seq<Event> {
    if peer.accepts(n) then Taken(m, number, data, beats) else Refused(m, number, data, peer.resets(n))
  }

  ghost predicate AllAccepted(peer: Peer, a: nat, b: nat) { forall j: nat | a <= j < b :: peer.accepts(j) }

  /** The number of sends, counted from attempt `a`, that get through among `n`. */
  function Accepted(peer: Peer, a: nat, n: nat): (k: nat)
    ensures k <= n && AllAccepted(peer, a, a + k) && (k < n ==> !peer.accepts(a + k))
    decreases n
  {
    if n == 0 || !peer.accepts(a) then 0 else 1 + Accepted(peer, a + 1, n - 1)
  }

  /** Everything the transfer of `chunks` puts out. */
  function Transfer(m: Message, chunks: seq<string>, peer: Peer, a: nat, beats: bool): seq<Event> {
    var k := Accepted(peer, a, |chunks|);
    Delivered(m, chunks[..k], beats)
    + if k == |chunks| then [] else Refused(m, k, chunks[k], peer.resets(a + k))
  }

  function Total(size: nat): nat { (size + MAX_FRAGMENT_DATA - 1) / MAX_FRAGMENT_DATA }

  /** The response as a reader of the contract sees it. */
  function Response(m: Message, plain: bool, size: nat, data: string, peer: Peer, a: nat, beats: bool): seq<Event> {
    if size > MAX_RESPONSE_SIZE then [Reply("ERROR:Response too large")]
    else if size <= MAX_FRAGMENT_DATA || plain then [Reply(data)]
    else Transfer(m, Chunks(data), peer, a, beats)
  }

  class Transport {
    const peer: Peer
    /** The transport cannot take fragments that are already cut. */
    const plain: bool
    var log: seq<Event>
    var attempts: nat
    var msgId: nat
    var lastRequestId: nat

    constructor (peer: Peer, plain: bool, msgId: nat)
      requires msgId < 256
      ensures this.peer == peer && this.plain == plain && log == [] && attempts == 0 && this.msgId == msgId
    {
      this.peer, this.plain, this.log, this.attempts, this.msgId, lastRequestId := peer, plain, [], 0, msgId, 0;
    }

    method Put(e: Event)
      modifies this`log
      ensures log == old(log) + [e]
    {
      log := log + [e];
    }

    /** One fragment, and on failure the end of the message. */
    method SendFragment(m: Message, number: nat, data: string, heartbeat: bool) returns (ok: bool)
      modifies this`log, this`attempts
      ensures ok == peer.accepts(old(attempts)) && attempts == old(attempts) + 1
      ensures log == old(log) + Outcome(m, number, data, peer, old(attempts), heartbeat)
    {
      ok := peer.accepts(attempts);
      var reset := peer.resets(attempts);
      attempts := attempts + 1;
      Put(Fragment(m.id, number, m.total, data, m.requestId));
      if !ok {
        if !reset {
          Put(Abort(m.id, m.requestId));
          Put(Reply("ERROR:Fragment transfer failed"));
        }
        return;
      }
      if heartbeat { Put(Heartbeat); }
    }

    /** Fills fragments from the parts of a response and sends each as it is full. */
    method SendResponse(totalSize: nat, parts: seq<string>, heartbeat: bool)
      requires msgId < 256
      modifies this`log, this`attempts, this`msgId
      ensures var m := Message(old(msgId), Total(totalSize), lastRequestId);
              log == old(log) + Response(m, plain, totalSize, Joined(parts), peer, old(attempts), heartbeat)
      ensures msgId < 256
      ensures msgId == if MAX_FRAGMENT_DATA < totalSize <= MAX_RESPONSE_SIZE && !plain then (old(msgId) + 1) % 256 else old(msgId)
    {
      if totalSize > MAX_RESPONSE_SIZE {
        Put(Reply("ERROR:Response too large"));
        return;
      }
      if totalSize <= MAX_FRAGMENT_DATA || plain {
        var response := Collect(parts);
        Put(Reply(response));
        return;
      }
      var m := Message(msgId, Total(totalSize), lastRequestId);
      msgId := (msgId + 1) % 256;
      SendParts(m, parts, heartbeat);
    }

    method SendParts(m: Message, parts: seq<string>, heartbeat: bool)
      modifies this`log, this`attempts
      ensures log == old(log) + Transfer(m, Chunks(Joined(parts)), peer, old(attempts), heartbeat)
    {
      var ok, fragment, number;
      ghost var sent, base, a := [], log, attempts;
      ok, fragment, number, sent := FillAll(m, parts, heartbeat);
      if !ok { return; }
      ghost var filled := log;
      if fragment != "" { ok := SendFragment(m, number, fragment, heartbeat); }
      Ended(m, base, filled, log, sent, fragment, Joined(parts), number, peer, a, heartbeat);
    }

    /** The outer loop: part after part, until a send fails. */
    method FillAll(m: Message, parts: seq<string>, heartbeat: bool)
      returns (ok: bool, fragment: string, number: nat, ghost sent: seq<string>)
      modifies this`log, this`attempts
      ensures ok ==> InFlight(m, sent, fragment, Joined(parts), number, old(log), old(attempts), heartbeat)
      ensures !ok ==> log == old(log) + Transfer(m, Chunks(Joined(parts)), peer, old(attempts), heartbeat)
    {
      hide Transfer, Chunks, Refused;
      ghost var a := attempts;
      ok, fragment, number, sent := true, "", 0, [];
      var i := 0;
      assert log + [] == log;
      while i < |parts|
        invariant i <= |parts| && InFlight(m, sent, fragment, Joined(parts[..i]), number, old(log), a, heartbeat)
      {
        ghost var offset;
        ok, fragment, number, offset, sent := SendPart(m, parts[i], fragment, number, heartbeat, sent, Joined(parts[..i]), old(log), a);
        if !ok {
          FailedAt(m, parts, i, offset, sent, fragment, number, peer, a, heartbeat);
          return;
        }
        assert parts[..i + 1][..i] == parts[..i];
        i := i + 1;
      }
      assert parts[..i] == parts;
    }

    /** `sent` has gone out as full fragments since `base` and attempt `a`; the rest of
        `data` waits in `fragment`. */
    ghost predicate InFlight(m: Message, sent: seq<string>, fragment: string, data: string, number: nat,
                             base: seq<Event>, a: nat, beats: bool)
      reads this
    {
      && Filling(sent, fragment, data, number)
      && attempts == a + number && AllAccepted(peer, a, attempts)
      && log == base + Delivered(m, sent, beats)
    }

    /** The inner loop: one part of the response. */
    method SendPart(m: Message, part: string, fragment0: string, number0: nat, heartbeat: bool,
                    ghost sent0: seq<string>, ghost before: string, ghost base: seq<Event>, ghost a: nat)
      returns (ok: bool, fragment: string, number: nat, ghost end: nat, ghost sent: seq<string>)
      requires InFlight(m, sent0, fragment0, before, number0, base, a, heartbeat)
      modifies this`log, this`attempts
      ensures ok ==> InFlight(m, sent, fragment, before + part, number, base, a, heartbeat)
      ensures !ok ==> Stopped(sent, fragment, number, a, peer) && end <= |part| && Joined(sent) + fragment == before + part[..end]
      ensures !ok ==> log == base + (Delivered(m, sent, heartbeat) + Refused(m, number, fragment, peer.resets(a + number)))
    {
      hide Delivered, Refused, Joined;
      ok, fragment, number, sent, end := true, fragment0, number0, sent0, 0;
      var offset := 0;
      ghost var data := before;
      assert before + part[..0] == before;
      while offset < |part|
        invariant offset <= |part| && data == before + part[..offset]
        invariant InFlight(m, sent, fragment, data, number, base, a, heartbeat)
      {
        fragment, offset := Fill(fragment, part, offset, sent, before, number);
        data := before + part[..offset];
        if |fragment| == MAX_FRAGMENT_DATA {
          ok := SendFull(m, fragment, number, heartbeat, sent, data, base, a);
          if !ok {
            end := offset;
            return;
          }
          sent, number, fragment := sent + [fragment], number + 1, "";
        }
      }
      assert part[..offset] == part;
    }

    /** A full fragment goes out. */
    method SendFull(m: Message, fragment: string, number: nat, heartbeat: bool,
                    ghost sent: seq<string>, ghost data: string, ghost base: seq<Event>, ghost a: nat) returns (ok: bool)
      requires |sent| == number && |fragment| == MAX_FRAGMENT_DATA && Joined(sent) + fragment == data
      requires (forall c | c in sent :: |c| == MAX_FRAGMENT_DATA) && AllAccepted(peer, a, attempts) && attempts == a + number
      requires log == base + Delivered(m, sent, heartbeat)
      modifies this`log, this`attempts
      ensures ok ==> InFlight(m, sent + [fragment], "", data, number + 1, base, a, heartbeat)
      ensures !ok ==> Stopped(sent, fragment, number, a, peer)
      ensures !ok ==> log == base + (Delivered(m, sent, heartbeat) + Refused(m, number, fragment, peer.resets(a + number)))
    {
      hide Delivered, Taken, Refused, Joined;
      ghost var gone := Delivered(m, sent, heartbeat);
      ok := SendFragment(m, number, fragment, heartbeat);
      if ok {
        RegroupLog(base, gone, Taken(m, number, fragment, heartbeat));
        DeliveredMore(m, sent, fragment, heartbeat);
        FillingFlushed(sent, fragment, data, number);
      } else {
        RegroupLog(base, gone, Refused(m, number, fragment, peer.resets(a + number)));
      }
    }
  }

  /** The last fragment taken was full and was refused. */
  ghost predicate Stopped(sent: seq<string>, fragment: string, number: nat, a: nat, peer: Peer) {
    && |sent| == number && |fragment| == MAX_FRAGMENT_DATA && (forall c | c in sent :: |c| == MAX_FRAGMENT_DATA)
    && AllAccepted(peer, a, a + number) && !peer.accepts(a + number)
  }

  lemma RegroupLog(a: seq<Event>, b: seq<Event>, c: seq<Event>)
    ensures a + b + c == a + (b + c)
  {}

  lemma Complete(m: Message, chunks: seq<string>, peer: Peer, a: nat, beats: bool)
    requires AllAccepted(peer, a, a + |chunks|)
    ensures Transfer(m, chunks, peer, a, beats) == Delivered(m, chunks, beats)
  {
    assert chunks[..|chunks|] == chunks;
    var log := Delivered(m, chunks, beats);
    assert log + [] == log;
  }

  /** Tops a fragment up from a part. */
  method Fill(fragment0: string, part: string, offset0: nat, ghost sent: seq<string>, ghost before: string, ghost number: nat)
    returns (fragment: string, offset: nat)
    requires offset0 < |part| && Filling(sent, fragment0, before + part[..offset0], number)
    ensures offset0 < offset <= |part| && |fragment| <= MAX_FRAGMENT_DATA
    ensures Joined(sent) + fragment == before + part[..offset]
  {
    offset := offset0 + (MAX_FRAGMENT_DATA - |fragment0|);
    if offset > |part| { offset := |part|; }
    FillingGrows(sent, fragment0, before, part, offset0, offset, number);
    fragment := fragment0 + part[offset0..offset];
  }

  method Collect(parts: seq<string>) returns (whole: string)
    ensures whole == Joined(parts)
  {
    whole := "";
    var i := 0;
    while i < |parts|
      invariant i <= |parts| && whole == Joined(parts[..i])
    {
      assert parts[..i + 1][..i] == parts[..i];
      whole := whole + parts[i];
      i := i + 1;
    }
    assert parts[..i] == parts;
  }

  /** While filling: full fragments have gone out, the rest waits in `fragment`. */
  ghost predicate Filling(sent: seq<string>, fragment: string, data: string, number: nat) {
    && |sent| == number && |fragment| < MAX_FRAGMENT_DATA
    && (forall c | c in sent :: |c| == MAX_FRAGMENT_DATA)
    && Joined(sent) + fragment == data
  }

  /** Full pieces in front are chunks of their own. */
  lemma {:induction false} ChunksOfFull(sent: seq<string>, rest: string)
    requires forall c | c in sent :: |c| == MAX_FRAGMENT_DATA
    ensures Chunks(Joined(sent) + rest) == sent + Chunks(rest)
  {
    if sent == [] {
      assert "" + rest == rest;
    } else {
      var n := |sent| - 1;
      var c := sent[n];
      assert c in sent;
      Regroup(Joined(sent[..n]), c, rest);
      ChunksOfFull(sent[..n], c + rest);
      FirstChunk(c, rest);
      assert sent[..n] + [c] == sent;
    }
  }

  lemma FirstChunk(c: string, rest: string)
    requires |c| == MAX_FRAGMENT_DATA
    ensures Chunks(c + rest) == [c] + Chunks(rest)
  {
    if rest == "" {
      assert c + rest == c;
    } else {
      assert (c + rest)[..|c|] == c && (c + rest)[|c|..] == rest;
    }
  }

  lemma Regroup(a: string, b: string, c: string)
    ensures (a + b) + c == a + (b + c)
  {}

  lemma {:induction false} JoinedPrefix(parts: seq<string>, i: nat) returns (more: string)
    requires i <= |parts|
    ensures Joined(parts) == Joined(parts[..i]) + more
    decreases |parts|
  {
    if i == |parts| {
      more := "";
      assert parts[..i] == parts;
    } else {
      var n := |parts| - 1;
      var early := JoinedPrefix(parts[..n], i);
      assert parts[..n][..i] == parts[..i];
      more := early + parts[n];
    }
  }

  lemma FillingGrows(sent: seq<string>, fragment: string, before: string, part: string, offset: nat, end: nat, number: nat)
    requires offset <= end <= |part| && Filling(sent, fragment, before + part[..offset], number)
    ensures Joined(sent) + (fragment + part[offset..end]) == before + part[..end]
  {
    Regroup(Joined(sent), fragment, part[offset..end]);
    Regroup(before, part[..offset], part[offset..end]);
    assert part[..offset] + part[offset..end] == part[..end];
  }

  lemma FillingFlushed(sent: seq<string>, fragment: string, data: string, number: nat)
    requires |sent| == number && |fragment| == MAX_FRAGMENT_DATA && Joined(sent) + fragment == data
    requires forall c | c in sent :: |c| == MAX_FRAGMENT_DATA
    ensures Filling(sent + [fragment], "", data, number + 1)
  {
    assert (sent + [fragment])[..number] == sent;
    assert data + "" == data;
  }

  lemma DeliveredMore(m: Message, sent: seq<string>, fragment: string, beats: bool)
    ensures Delivered(m, sent + [fragment], beats)
            == Delivered(m, sent, beats) + Taken(m, |sent|, fragment, beats)
  {
    assert (sent + [fragment])[..|sent|] == sent;
  }

  lemma FillingDone(sent: seq<string>, fragment: string, data: string, number: nat)
    requires Filling(sent, fragment, data, number)
    ensures Chunks(data) == if fragment == "" then sent else sent + [fragment]
  {
    ChunksOfFull(sent, fragment);
  }

  /** The log of a transfer that stopped at a full fragment. */
  lemma FailedAt(m: Message, parts: seq<string>, i: nat, offset: nat, sent: seq<string>, fragment: string, number: nat,
                 peer: Peer, a: nat, beats: bool)
    requires i < |parts| && offset <= |parts[i]|
    requires Stopped(sent, fragment, number, a, peer) && Joined(sent) + fragment == Joined(parts[..i]) + parts[i][..offset]
    ensures Transfer(m, Chunks(Joined(parts)), peer, a, beats)
            == Delivered(m, sent, beats) + Refused(m, number, fragment, peer.resets(a + number))
  {
    var rest := RestAfter(parts, i, offset, sent, fragment);
    ChunksOfFull(sent, fragment + rest);
    FirstChunk(fragment, rest);
    TransferStops(m, sent + ([fragment] + Chunks(rest)), number, peer, a, beats);
  }

  /** The log of a transfer whose send number `k` failed. */
  lemma TransferStops(m: Message, chunks: seq<string>, k: nat, peer: Peer, a: nat, beats: bool)
    requires k < |chunks| && AllAccepted(peer, a, a + k) && !peer.accepts(a + k)
    ensures Transfer(m, chunks, peer, a, beats)
            == Delivered(m, chunks[..k], beats) + Refused(m, k, chunks[k], peer.resets(a + k))
  {
  }

  /** The transfer whose last, shorter fragment is `fragment`. */
  lemma LastFragment(m: Message, sent: seq<string>, fragment: string, peer: Peer, a: nat, beats: bool)
    requires AllAccepted(peer, a, a + |sent|)
    ensures Transfer(m, sent + [fragment], peer, a, beats)
            == Delivered(m, sent, beats) + Outcome(m, |sent|, fragment, peer, a + |sent|, beats)
  {
    if peer.accepts(a + |sent|) {
      Complete(m, sent + [fragment], peer, a, beats);
      DeliveredMore(m, sent, fragment, beats);
    } else {
      TransferStops(m, sent + [fragment], |sent|, peer, a, beats);
    }
  }

  /** The log after everything has been filled and the rest sent. */
  lemma Ended(m: Message, base: seq<Event>, filled: seq<Event>, log: seq<Event>, sent: seq<string>, fragment: string,
              data: string, number: nat, peer: Peer, a: nat, beats: bool)
    requires Filling(sent, fragment, data, number) && AllAccepted(peer, a, a + number)
    requires filled == base + Delivered(m, sent, beats)
    requires fragment == "" ==> log == filled
    requires fragment != "" ==> log == filled + Outcome(m, number, fragment, peer, a + number, beats)
    ensures log == base + Transfer(m, Chunks(data), peer, a, beats)
  {
    hide Transfer, Delivered, Chunks, Outcome;
    FillingDone(sent, fragment, data, number);
    if fragment == "" {
      Complete(m, sent, peer, a, beats);
    } else {
      LastFragment(m, sent, fragment, peer, a, beats);
      RegroupLog(base, Delivered(m, sent, beats), Outcome(m, number, fragment, peer, a + number, beats));
    }
  }

  lemma RestAfter(parts: seq<string>, i: nat, offset: nat, sent: seq<string>, fragment: string) returns (rest: string)
    requires i < |parts| && offset <= |parts[i]| && Joined(sent) + fragment == Joined(parts[..i]) + parts[i][..offset]
    ensures Joined(parts) == Joined(sent) + (fragment + rest)
  {
    var more := JoinedPrefix(parts, i + 1);
    assert parts[..i + 1][..i] == parts[..i];
    var before, part := Joined(parts[..i]), parts[i];
    rest := part[offset..] + more;
    Regroup(before, part, more);
    assert part == part[..offset] + part[offset..];
    Regroup(part[..offset], part[offset..], more);
    Regroup(before, part[..offset], rest);
    Regroup(Joined(sent), fragment, rest);
  }

  /* ---- what a receiver gets ---- */

  function Data(log: seq<Event>): string {
    if log == [] then ""
    else Data(log[..|log| - 1]) + (if log[|log| - 1].Fragment? then log[|log| - 1].data else "")
  }

  function Fragmented(log: seq<Event>): seq<Event> {
    if log == [] then []
    else Fragmented(log[..|log| - 1]) + if log[|log| - 1].Fragment? then [log[|log| - 1]] else []
  }

  function Beats(log: seq<Event>): nat {
    if log == [] then 0 else Beats(log[..|log| - 1]) + if log[|log| - 1].Heartbeat? then 1 else 0
  }

  lemma {:induction false} ChunkSizes(data: string)
    ensures |Chunks(data)| == Total(|data|)
    ensures forall i | 0 <= i < |Chunks(data)| :: 0 < |Chunks(data)[i]| <= MAX_FRAGMENT_DATA
    ensures forall i | 0 <= i < |Chunks(data)| - 1 :: |Chunks(data)[i]| == MAX_FRAGMENT_DATA
    decreases |data|
  {
    if |data| > MAX_FRAGMENT_DATA {
      ChunkSizes(data[MAX_FRAGMENT_DATA..]);
      assert Total(|data|) == 1 + Total(|data| - MAX_FRAGMENT_DATA);
    }
  }

  lemma {:induction false} ChunksJoin(data: string)
    ensures Joined(Chunks(data)) == data
    decreases |data|
  {
    if data == "" {
    } else if |data| <= MAX_FRAGMENT_DATA {
      JoinedFront(data, []);
    } else {
      ChunksJoin(data[MAX_FRAGMENT_DATA..]);
      JoinedFront(data[..MAX_FRAGMENT_DATA], Chunks(data[MAX_FRAGMENT_DATA..]));
    }
  }

  lemma {:induction false} JoinedFront(c: string, parts: seq<string>)
    ensures Joined([c] + parts) == c + Joined(parts)
  {
    var n := |parts|;
    if n == 0 {
      assert ([c] + parts)[..0] == [];
    } else {
      JoinedFront(c, parts[..n - 1]);
      assert ([c] + parts)[..n] == [c] + parts[..n - 1];
      Regroup(c, Joined(parts[..n - 1]), parts[n - 1]);
    }
  }

  lemma {:induction false} DeliveredReads(m: Message, chunks: seq<string>, beats: bool)
    ensures var log := Delivered(m, chunks, beats);
            && Data(log) == Joined(chunks) && Beats(log) == (if beats then |chunks| else 0)
            && Fragmented(log) == seq(|chunks|, i requires 0 <= i < |chunks| => Fragment(m.id, i, m.total, chunks[i], m.requestId))
  {
    hide Data, Fragmented, Beats, Taken, Joined;
    NothingReads();
    if chunks != [] {
      var n := |chunks| - 1;
      var early := Delivered(m, chunks[..n], beats);
      DeliveredReads(m, chunks[..n], beats);
      TakenReads(early, m, n, chunks[n], beats);
    }
  }

  lemma NothingReads()
    ensures Data([]) == Joined([]) && Beats([]) == 0 && Fragmented([]) == []
    ensures forall parts: seq<string> | parts != [] :: Joined(parts) == Joined(parts[..|parts| - 1]) + parts[|parts| - 1]
  {}

  lemma TakenReads(log: seq<Event>, m: Message, n: nat, data: string, beats: bool)
    ensures var more := log + Taken(m, n, data, beats);
            && Data(more) == Data(log) + data && Beats(more) == Beats(log) + (if beats then 1 else 0)
            && Fragmented(more) == Fragmented(log) + [Fragment(m.id, n, m.total, data, m.requestId)]
  {
    var f := Fragment(m.id, n, m.total, data, m.requestId);
    var one := log + [f];
    assert one[..|log|] == log;
    if beats {
      var two := one + [Heartbeat];
      assert two[..|one|] == one;
      RegroupLog(log, [f], [Heartbeat]);
      assert Data(two) == Data(one) + "";
    } else {
      RegroupLog(log, [f], []);
      assert one + [] == one;
    }
  }

  /** A response of the announced size that gets through: the data of its fragments
      is the concatenation of the parts, they are numbered from 0, each announces
      their exact number, all but the last are full, every header value fits its
      byte, and there is one heartbeat for each of them. */
  lemma FragmentsAreTheResponse(m: Message, parts: seq<string>, peer: Peer, a: nat, beats: bool)
    requires var size := |Joined(parts)|;
             m.total == Total(size) && size <= MAX_RESPONSE_SIZE && Accepted(peer, a, m.total) == m.total
    ensures var log := Transfer(m, Chunks(Joined(parts)), peer, a, beats);
            var sent := Fragmented(log);
            && Data(log) == Joined(parts) && |sent| == m.total <= 255
            && Beats(log) == (if beats then |sent| else 0)
            && (forall i | 0 <= i < |sent| :: sent[i].Fragment? && sent[i].number == i < 256 && sent[i].total == |sent| && 0 < |sent[i].data| < 256)
            && (forall i | 0 <= i < |sent| - 1 :: |sent[i].data| == MAX_FRAGMENT_DATA)
  {
    var data := Joined(parts);
    ChunkSizes(data);
    ChunksJoin(data);
    Complete(m, Chunks(data), peer, a, beats);
    DeliveredNumbers(m, Chunks(data), beats);
  }

  lemma DeliveredNumbers(m: Message, chunks: seq<string>, beats: bool)
    ensures var log := Delivered(m, chunks, beats);
            var sent := Fragmented(log);
            && Data(log) == Joined(chunks) && Beats(log) == (if beats then |chunks| else 0) && |sent| == |chunks|
            && forall i | 0 <= i < |sent| :: sent[i].Fragment? && sent[i].number == i && sent[i].total == m.total && sent[i].data == chunks[i]
  {
    DeliveredReads(m, chunks, beats);
  }

  lemma ReadsMore(log: seq<Event>, e: Event)
    ensures var more := log + [e];
            && Data(more) == Data(log) + (if e.Fragment? then e.data else "")
            && Fragmented(more) == Fragmented(log) + (if e.Fragment? then [e] else [])
            && Beats(more) == Beats(log) + if e.Heartbeat? then 1 else 0
  {
    assert (log + [e])[..|log|] == log;
  }

  lemma RefusedReads(log: seq<Event>, m: Message, n: nat, data: string, reset: bool)
    ensures var more := log + Refused(m, n, data, reset);
            && Data(more) == Data(log) + data && Beats(more) == Beats(log)
            && Fragmented(more) == Fragmented(log) + [Fragment(m.id, n, m.total, data, m.requestId)]
            && |more| > |log| && more[|log|] == Fragment(m.id, n, m.total, data, m.requestId)
            && more[|log| + 1..] == if reset then [] else [Abort(m.id, m.requestId), Reply("ERROR:Fragment transfer failed")]
  {
    hide Data, Fragmented, Beats;
    var f, abort, reply := Fragment(m.id, n, m.total, data, m.requestId), Abort(m.id, m.requestId), Reply("ERROR:Fragment transfer failed");
    ReadsMore(log, f);
    if !reset {
      ReadsMore(log + [f], abort);
      ReadsMore(log + [f] + [abort], reply);
      assert log + Refused(m, n, data, reset) == log + [f] + [abort] + [reply];
      assert Data(log) + data + "" + "" == Data(log) + data;
    } else {
      assert log + Refused(m, n, data, reset) == log + [f];
    }
  }

  lemma {:induction false} DeliveredLength(m: Message, chunks: seq<string>, beats: bool)
    ensures |Delivered(m, chunks, beats)| == if beats then 2 * |chunks| else |chunks|
  {
    if chunks != [] { DeliveredLength(m, chunks[..|chunks| - 1], beats); }
  }

  /** A failed send ends the message. With `k` sends accepted and the next refused the
      fragments 0 to `k` have gone out, once each and in order, and their data is a
      beginning of the response; behind the last of them there is the notice alone, or
      nothing if the peer has begun a new session. */
  lemma FailureEndsTheMessage(m: Message, data: string, peer: Peer, a: nat, k: nat, beats: bool)
    requires k < Total(|data|) && (forall j: nat | a <= j < a + k :: peer.accepts(j)) && !peer.accepts(a + k)
    ensures var log := Transfer(m, Chunks(data), peer, a, beats);
            var sent := Fragmented(log);
            var last := if beats then 2 * k else k;
            && |sent| == k + 1
            && |Chunks(data)| > k && (forall i | 0 <= i <= k :: sent[i] == Fragment(m.id, i, m.total, Chunks(data)[i], m.requestId))
            && last < |log| && log[last] == sent[k]
            && log[last + 1..] == (if peer.resets(a + k) then [] else [Abort(m.id, m.requestId), Reply("ERROR:Fragment transfer failed")])
            && Data(log) <= data && Beats(log) == if beats then k else 0
  {
    hide Transfer, Chunks, Refused, Delivered, Data, Fragmented, Beats, Joined, Total, Accepted;
    var chunks := Chunks(data);
    ChunkSizes(data);
    ChunksJoin(data);
    assert AllAccepted(peer, a, a + k);
    DeliveredReads(m, chunks[..k], beats);
    DeliveredLength(m, chunks[..k], beats);
    TransferStops(m, chunks, k, peer, a, beats);
    RefusedReads(Delivered(m, chunks[..k], beats), m, k, chunks[k], peer.resets(a + k));
    BeginningOf(chunks, k);
  }

  /* ---- the whole response ---- */

  /** What the host makes of a log: the one reply, or the data once the last fragment
      has come. */
  function Assembled(log: seq<Event>): Option<string> {
    var sent := Fragmented(log);
    if sent == [] then if |log| == 1 && log[0].Reply? then Some(log[0].text) else None
    else if sent[|sent| - 1].Fragment? && sent[|sent| - 1].number + 1 == sent[|sent| - 1].total then Some(Data(log))
    else None
  }

  lemma OneReply(text: string)
    ensures Fragmented([Reply(text)]) == [] && Data([Reply(text)]) == ""
  {
    assert [Reply(text)][..0] == [];
  }

  /** A response of the announced size arrives whole, as one reply if it fits one frame
      or the transport cuts replies itself and in fragments otherwise, over a link that
      takes them; a larger one is refused with one reply, and no fragment goes out. */
  lemma ResponseArrives(m: Message, plain: bool, parts: seq<string>, peer: Peer, a: nat, beats: bool)
    requires m.total == Total(|Joined(parts)|) && forall j: nat | a <= j < a + m.total :: peer.accepts(j)
    ensures var size := |Joined(parts)|;
            var log := Response(m, plain, size, Joined(parts), peer, a, beats);
            && Assembled(log) == Some(if size > MAX_RESPONSE_SIZE then "ERROR:Response too large" else Joined(parts))
            && (Fragmented(log) == [] <==> size > MAX_RESPONSE_SIZE || size <= MAX_FRAGMENT_DATA || plain)
  {
    var size := |Joined(parts)|;
    OneReply("ERROR:Response too large");
    OneReply(Joined(parts));
    if MAX_FRAGMENT_DATA < size <= MAX_RESPONSE_SIZE && !plain {
      AllAreAccepted(peer, a, m.total);
      FragmentsAreTheResponse(m, parts, peer, a, beats);
    }
  }

  lemma {:induction false} AllAreAccepted(peer: Peer, a: nat, n: nat)
    requires forall j: nat | a <= j < a + n :: peer.accepts(j)
    ensures Accepted(peer, a, n) == n
    decreases n
  {
    if n > 0 { AllAreAccepted(peer, a + 1, n - 1); }
  }

  lemma BeginningOf(chunks: seq<string>, k: nat)
    requires k < |chunks|
    ensures Joined(chunks[..k]) + chunks[k] <= Joined(chunks)
  {
    var more := JoinedPrefix(chunks, k + 1);
    assert chunks[..k + 1][..k] == chunks[..k];
  }
}
