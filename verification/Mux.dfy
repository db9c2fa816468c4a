/** The two ends of a shared serial line: the device's poll-based multiplexer and
    the host's serial adapter. */
module Mux {
  import opened Text
  import opened Frames
  import opened Ports

  /** The device's view of channel 0, a port for URST to read from. */
  class VirtualPort {
    const maxRxBytes: nat
    var rx: Bytes
    var droppedBytes: nat

    ghost predicate Valid() reads this { |rx| <= maxRxBytes }

    ghost function Now(): Port reads this { Port(rx, droppedBytes) }

    constructor (max: nat)
      ensures Valid() && rx == [] && droppedBytes == 0 && maxRxBytes == max
    {
      maxRxBytes, rx, droppedBytes := max, [], 0;
    }

    method Feed(payload: Bytes)
      requires Valid()
      modifies this
      ensures Valid() && Now() == Fed(old(Now()), payload, maxRxBytes)
    {
      var data := payload;
      var overflow := |rx| + |data| - maxRxBytes;
      if overflow > 0 {
        var dropped := if overflow < |rx| then overflow else |rx|;
        rx := rx[dropped..];
        droppedBytes := droppedBytes + dropped;
      }
      if |data| > maxRxBytes {
        droppedBytes := droppedBytes + |data| - maxRxBytes;
        data := data[|data| - maxRxBytes..];
      }
      rx := rx + data;
    }

    /** `read(nbytes)` once the line has been serviced. */
    method Take(nbytes: Option<nat>) returns (out: Option<Bytes>)
      requires Valid()
      modifies this
      ensures Valid() && droppedBytes == old(droppedBytes)
      ensures old(rx) == [] ==> out == None && rx == []
      ensures old(rx) != [] ==>
                out == Some(Taken(old(rx), if nbytes.Some? then nbytes.value else |old(rx)|)) && out.value + rx == old(rx)
    {
      if rx == [] { return None; }
      if nbytes.None? || nbytes.value >= |rx| {
        out, rx := Some(rx), [];
      } else {
        out, rx := Some(rx[..nbytes.value]), rx[nbytes.value..];
      }
    }

    /** Is a whole URST frame, delimited on both sides, in the buffer? */
    method FrameReady() returns (ready: bool)
      ensures ready <==> exists i, j :: 0 <= i < j < |rx| && rx[i] == 0 && rx[j] == 0
    {
      var first := Find(rx);
      if first == |rx| { return false; }
      var later := rx[first + 1..];
      var second := Find(later);
      ready := second < |later|;
      if ready {
        assert rx[first] == 0 && rx[first + 1 + second] == 0;
      } else {
        assert forall i | 0 <= i < first :: rx[..first][i] == rx[i];
        assert forall j | first < j < |rx| :: rx[j] == later[j - first - 1];
      }
    }
  }

  class SerialMux {
    const link: Link
    const otaPort: VirtualPort
    var rxBuffer: Bytes
    var appRx: Option<Bytes>
    var appDropped: nat
    var outerFramesDropped: nat

    ghost function Box(): Mailbox reads this { Mailbox(appRx, appDropped) }

    constructor (link: Link)
      ensures this.link == link && fresh(otaPort) && otaPort.Valid() && otaPort.maxRxBytes == OTA_BUFFER_BYTES
      ensures rxBuffer == [] && Box() == Mailbox(None, 0) && outerFramesDropped == 0 && otaPort.Now() == Port([], 0)
    {
      this.link := link;
      otaPort := new VirtualPort(OTA_BUFFER_BYTES);
      rxBuffer, appRx, appDropped, outerFramesDropped := [], None, 0, 0;
    }

    /** Hand a decoded frame to its channel. */
    method Route(channel: Byte, payload: Bytes)
      requires otaPort.Valid()
      modifies this`appRx, this`appDropped, otaPort
      ensures otaPort.Valid()
      ensures otaPort.Now() == if channel == link.ota then Fed(old(otaPort.Now()), payload, otaPort.maxRxBytes) else old(otaPort.Now())
      ensures Box() == if channel != link.ota && channel == link.app then old(Box()).Put(payload) else old(Box())
    {
      if channel == link.ota {
        otaPort.Feed(payload);
      } else if channel == link.app {
        if appRx.Some? { appDropped := appDropped + 1; }
        appRx := Some(payload);
      }
    }

    /** One delimited piece from the line. */
    method Accept(frame: Bytes)
      requires otaPort.Valid()
      modifies this`appRx, this`appDropped, this`outerFramesDropped, otaPort
      ensures otaPort.Valid()
      ensures var p := Piece(link, frame);
              && outerFramesDropped == old(outerFramesDropped) + p.dropped
              && otaPort.Now() == Fed(old(otaPort.Now()), OtaBytes(link, p.frames), otaPort.maxRxBytes)
              && Box() == Posted(link, old(Box()), p.frames)
    {
      NoneRouted(link, otaPort.Now(), otaPort.maxRxBytes);
      if frame == [] { return; }
      if |frame| > MAX_OUTER_FRAME_BYTES {
        outerFramesDropped := outerFramesDropped + 1;
        return;
      }
      var decoded := link.decode(frame);
      if decoded.None? || decoded.value == [] {
        outerFramesDropped := outerFramesDropped + 1;
        return;
      }
      OneRouted(link, Box(), decoded.value[0], decoded.value[1..]);
      Route(decoded.value[0], decoded.value[1..]);
    }

    /** Pump the line: `chunk` is what the UART had waiting. Every whole frame goes
        to its channel, and the port ends up with the last bytes of channel 0. */
    method Service(chunk: Bytes)
      requires otaPort.Valid()
      modifies this, otaPort
      ensures otaPort.Valid()
      ensures var p := Pumped(link, old(rxBuffer) + chunk);
              && rxBuffer == p.rest && outerFramesDropped == old(outerFramesDropped) + p.dropped
              && otaPort.Now() == Fed(old(otaPort.Now()), OtaBytes(link, p.frames), otaPort.maxRxBytes)
              && Box() == Posted(link, old(Box()), p.frames)
    {
      rxBuffer := rxBuffer + chunk;
      ghost var whole := Parse(link, rxBuffer);
      ghost var done := Parsed([], 0, []);
      NoneRouted(link, otaPort.Now(), otaPort.maxRxBytes);
      var idx := Find(rxBuffer);
      while idx < |rxBuffer|
        invariant otaPort.Valid() && idx == Find(rxBuffer)
        invariant whole == done.Then(Parse(link, rxBuffer))
        invariant outerFramesDropped == old(outerFramesDropped) + done.dropped
        invariant otaPort.Now() == Fed(old(otaPort.Now()), OtaBytes(link, done.frames), otaPort.maxRxBytes)
        invariant Box() == Posted(link, old(Box()), done.frames)
        decreases |rxBuffer|
      {
        var frame := rxBuffer[..idx];
        ghost var p, more := Piece(link, frame), Parse(link, rxBuffer[idx + 1..]);
        rxBuffer := rxBuffer[idx + 1..];
        Accept(frame);
        ThenThen(done, p, more);
        FedTwice(old(otaPort.Now()), OtaBytes(link, done.frames), OtaBytes(link, p.frames), otaPort.maxRxBytes);
        OtaBytesSplit(link, done.frames, p.frames);
        PostedSplit(link, old(Box()), done.frames, p.frames);
        done := done.Then(p);
        idx := Find(rxBuffer);
      }
      assert whole == done.Then(Parsed([], 0, rxBuffer));
      assert done.frames + [] == done.frames;
      if |rxBuffer| > MAX_OUTER_FRAME_BYTES {
        rxBuffer := [];
        outerFramesDropped := outerFramesDropped + 1;
      }
    }

    /** What either channel puts on the line for one write. */
    method Write(channel: Byte, payload: Bytes) returns (wire: Bytes)
      ensures wire == Framed(link, Frame(channel, payload))
    {
      var unframed := [channel];
      unframed := unframed + payload;
      wire := link.encode(unframed) + [0];
    }

    /** The newest application payload, once. */
    method PollApp() returns (payload: Option<Bytes>)
      modifies this`appRx
      ensures payload == old(appRx) && appRx == None
    {
      payload, appRx := appRx, None;
    }
  }

  lemma NoneRouted(link: Link, p: Port, max: nat)
    requires |p.rx| <= max
    ensures Fed(p, OtaBytes(link, []), max) == p
  {
    NothingAdded(p.rx);
  }

  lemma OneRouted(link: Link, box: Mailbox, channel: Byte, payload: Bytes)
    ensures OtaBytes(link, [Frame(channel, payload)]) == if channel == link.ota then payload else []
    ensures Posted(link, box, [Frame(channel, payload)])
            == if channel != link.ota && channel == link.app then box.Put(payload) else box
  {
    var one := [Frame(channel, payload)];
    assert one[1..] == [];
    NothingAdded(payload);
  }

  lemma FedTwice(p: Port, a: Bytes, b: Bytes, max: nat)
    requires |p.rx| <= max
    ensures Fed(Fed(p, a, max), b, max) == Fed(p, a + b, max)
  {
    LastOfLast(p.rx + a, b, max);
    Regroup(p.rx, a, b);
  }

  class ChannelCodec {
    const link: Link
    var buf: Bytes
    var framesDropped: nat

    constructor (link: Link)
      ensures this.link == link && buf == [] && framesDropped == 0
    {
      this.link, buf, framesDropped := link, [], 0;
    }

    method Encode(channel: Byte, payload: Bytes) returns (wire: Bytes)
      ensures wire == Framed(link, Frame(channel, payload))
    {
      wire := link.encode([channel] + payload) + [0];
    }

    method Feed(data: Bytes)
      modifies this`buf
      ensures buf == old(buf) + data
    {
      buf := buf + data;
    }

    /** All complete frames in the buffer, which they leave. */
    method TakeFrames() returns (out: seq<Frame>)
      modifies this
      ensures var p := Pumped(link, old(buf));
              out == p.frames && buf == p.rest && framesDropped == old(framesDropped) + p.dropped
    {
      ghost var whole := Parse(link, buf);
      ghost var done := Parsed([], 0, []);
      out := [];
      var idx := Find(buf);
      while idx < |buf|
        invariant idx == Find(buf)
        invariant whole == done.Then(Parse(link, buf))
        invariant out == done.frames && framesDropped == old(framesDropped) + done.dropped
        decreases |buf|
      {
        var frame := buf[..idx];
        ghost var p, more := Piece(link, frame), Parse(link, buf[idx + 1..]);
        ThenThen(done, p, more);
        buf := buf[idx + 1..];
        if frame != [] {
          if |frame| > MAX_OUTER_FRAME_BYTES {
            framesDropped := framesDropped + 1;
          } else {
            var decoded := link.decode(frame);
            if decoded.None? || decoded.value == [] {
              framesDropped := framesDropped + 1;
            } else if decoded.value[0] == link.ota || decoded.value[0] == link.app {
              out := out + [Frame(decoded.value[0], decoded.value[1..])];
            }
          }
        }
        done := done.Then(p);
        idx := Find(buf);
      }
      assert whole == done.Then(Parsed([], 0, buf));
      assert done.frames + [] == done.frames;
      if |buf| > MAX_OUTER_FRAME_BYTES {
        buf := [];
        framesDropped := framesDropped + 1;
      }
    }

    method Reset()
      modifies this`buf
      ensures buf == []
    {
      buf := [];
    }
  }

  class ChannelSerial {
    const codec: ChannelCodec
    var decoded: Bytes

    constructor (codec: ChannelCodec)
      ensures this.codec == codec && decoded == []
    {
      this.codec, decoded := codec, [];
    }

    /** Take what the raw port had waiting; only channel 0 is kept. */
    method Pump(chunk: Bytes)
      modifies this, codec
      ensures var p := Pumped(codec.link, old(codec.buf) + chunk);
              && codec.buf == p.rest && codec.framesDropped == old(codec.framesDropped) + p.dropped
              && decoded == Last(old(decoded) + OtaBytes(codec.link, p.frames), OTA_BUFFER_BYTES)
    {
      hide Parse, Piece, Posted;
      codec.Feed(chunk);
      var frames := codec.TakeFrames();
      var i := 0;
      assert frames[..0] == [];
      NothingAdded(decoded);
      while i < |frames|
        invariant i <= |frames|
        invariant decoded == old(decoded) + OtaBytes(codec.link, frames[..i])
        modifies this
      {
        ghost var f := frames[i];
        OneRouted(codec.link, Mailbox(None, 0), f.channel, f.payload);
        OtaBytesSplit(codec.link, frames[..i], [f]);
        assert frames[..i + 1] == frames[..i] + [f];
        Regroup(old(decoded), OtaBytes(codec.link, frames[..i]), OtaBytes(codec.link, [f]));
        NothingAdded(decoded);
        if frames[i].channel == codec.link.ota { decoded := decoded + frames[i].payload; }
        i := i + 1;
      }
      assert frames[..i] == frames;
      if |decoded| > OTA_BUFFER_BYTES { decoded := decoded[|decoded| - OTA_BUFFER_BYTES..]; }
    }

    method Read(chunk: Bytes, n: nat) returns (out: Bytes)
      modifies this, codec
      ensures var p := Pumped(codec.link, old(codec.buf) + chunk);
              && codec.buf == p.rest && codec.framesDropped == old(codec.framesDropped) + p.dropped
              && out == Taken(Last(old(decoded) + OtaBytes(codec.link, p.frames), OTA_BUFFER_BYTES), n)
              && out + decoded == Last(old(decoded) + OtaBytes(codec.link, p.frames), OTA_BUFFER_BYTES)
    {
      Pump(chunk);
      NothingAdded(decoded);
      if decoded == [] { return []; }
      if n >= |decoded| {
        out, decoded := decoded, [];
      } else {
        out, decoded := decoded[..n], decoded[n..];
      }
    }

    method ResetInputBuffer()
      modifies this, codec
      ensures codec.buf == [] && decoded == []
    {
      codec.Reset();
      decoded := [];
    }
  }

  /* ---- both ends as a byte stream ---- */

  /** A port that is serviced with each chunk in turn and read after each of them. */
  function Sequence(link: Link, buf: Bytes, chunks: seq<Bytes>, takes: seq<nat>): seq<Access>
    requires |takes| == |chunks|
    decreases |chunks|
  {
    if chunks == [] then [] else
    var p := Pumped(link, buf + chunks[0]);
    [Access.Feed(OtaBytes(link, p.frames)), Access.Read(takes[0])] + Sequence(link, p.rest, chunks[1..], takes[1..])
  }

  lemma {:induction false} SequenceBytes(link: Link, buf: Bytes, chunks: seq<Bytes>, takes: seq<nat>)
    requires |takes| == |chunks|
    ensures FedBytes(Sequence(link, buf, chunks, takes)) == OtaBytes(link, Received(link, buf, chunks).frames)
    decreases |chunks|
  {
    if chunks != [] {
      var p := Pumped(link, buf + chunks[0]);
      var s, more := Sequence(link, buf, chunks, takes), Sequence(link, p.rest, chunks[1..], takes[1..]);
      SequenceBytes(link, p.rest, chunks[1..], takes[1..]);
      OtaBytesSplit(link, p.frames, Received(link, p.rest, chunks[1..]).frames);
      assert s[1..][1..] == more && s[1..][0] == Access.Read(takes[0]);
      NothingAdded(FedBytes(more));
    }
  }

  /** What one port makes of the reads that hold noise and of those that follow. */
  lemma NoiseThenFrames(link: Link, buf: Bytes, chunks: seq<Bytes>, noise: Bytes, frames: seq<Frame>)
    requires link.Lawful() && forall f | f in frames :: Fits(link, f)
    requires noise != [] ==> noise[|noise| - 1] == 0
    requires noise == [] ==> buf == []
    requires Joined(chunks) == noise + Sent(link, frames)
    ensures OtaBytes(link, Received(link, buf, chunks).frames)
            == OtaBytes(link, Received(link, buf, Clipped(chunks, |noise|)).frames) + OtaBytes(link, frames)
  {
    EveryFrameOnce(link, buf, chunks, noise, frames);
    OtaBytesSplit(link, Received(link, buf, Clipped(chunks, |noise|)).frames, frames);
  }

  /** The host reads the device's bytes: whatever was on the line before the last
      delimiter and however the stream is cut, the bytes of channel 0 come out
      complete and in order, behind what the noise was taken for, as long as the
      buffer never overflows; and none is ever unaccounted for. */
  lemma ByteStream(link: Link, buf: Bytes, chunks: seq<Bytes>, takes: seq<nat>, noise: Bytes, frames: seq<Frame>)
    requires link.Lawful() && forall f | f in frames :: Fits(link, f)
    requires noise != [] ==> noise[|noise| - 1] == 0
    requires noise == [] ==> buf == []
    requires |takes| == |chunks| && Joined(chunks) == noise + Sent(link, frames)
    ensures var (port, out) := Accessed(Port([], 0), Sequence(link, buf, chunks, takes), OTA_BUFFER_BYTES);
            var before := OtaBytes(link, Received(link, buf, Clipped(chunks, |noise|)).frames);
            && |out| + |port.rx| + port.dropped == |before| + |OtaBytes(link, frames)|
            && (port.dropped == 0 ==> out + port.rx == before + OtaBytes(link, frames))
  {
    NoiseThenFrames(link, buf, chunks, noise, frames);
    SequenceBytes(link, buf, chunks, takes);
    NothingLost(Port([], 0), Sequence(link, buf, chunks, takes), OTA_BUFFER_BYTES);
    NothingAdded(FedBytes(Sequence(link, buf, chunks, takes)));
  }
}
