/** Bounded receive buffers behind the deframer: the port that URST reads from and
    the newest-wins mailbox of the application channel. */
module Ports {
  import opened Text
  import opened Frames

  /** The last `n` bytes. */
  function Last(s: Bytes, n: nat): (r: Bytes)
    ensures |r| <= n
  {
    if |s| <= n then s else s[|s| - n..]
  }

  /** Trimming on the way makes no difference to trimming at the end. */
  lemma LastOfLast(a: Bytes, b: Bytes, n: nat)
    ensures Last(Last(a, n) + b, n) == Last(a + b, n)
  {
    if |a| > n {
      var k := |a| - n;
      DropOfSum(a, b, k);
    }
  }

  lemma DropOfSum(a: Bytes, b: Bytes, k: nat)
    requires k <= |a|
    ensures (a + b)[k..] == a[k..] + b
  {}

  function OtaBytes(link: Link, frames: seq<Frame>): Bytes {
    if frames == [] then []
    else (if frames[0].channel == link.ota then frames[0].payload else []) + OtaBytes(link, frames[1..])
  }

  lemma {:induction false} OtaBytesSplit(link: Link, a: seq<Frame>, b: seq<Frame>)
    ensures OtaBytes(link, a + b) == OtaBytes(link, a) + OtaBytes(link, b)
  {
    if a == [] {
      assert a + b == b;
    } else {
      assert (a + b)[1..] == a[1..] + b;
      OtaBytesSplit(link, a[1..], b);
    }
  }

  /* ---- the application mailbox ---- */

  datatype Mailbox = Mailbox(pending: Option<Bytes>, dropped: nat) {
    function Put(payload: Bytes): Mailbox {
      Mailbox(Some(payload), dropped + if pending.Some? then 1 else 0)
    }
  }

  function Posted(link: Link, box: Mailbox, frames: seq<Frame>): Mailbox
    decreases |frames|
  {
    if frames == [] then box else
    var f := frames[0];
    Posted(link, if f.channel != link.ota && f.channel == link.app then box.Put(f.payload) else box, frames[1..])
  }

  lemma {:induction false} PostedSplit(link: Link, box: Mailbox, a: seq<Frame>, b: seq<Frame>)
    ensures Posted(link, box, a + b) == Posted(link, Posted(link, box, a), b)
    decreases |a|
  {
    if a == [] {
      assert a + b == b;
    } else {
      var f := a[0];
      assert (a + b)[1..] == a[1..] + b;
      PostedSplit(link, if f.channel != link.ota && f.channel == link.app then box.Put(f.payload) else box, a[1..], b);
    }
  }

  function AppPayloads(link: Link, frames: seq<Frame>): seq<Bytes> {
    if frames == [] then []
    else (if frames[0].channel != link.ota && frames[0].channel == link.app then [frames[0].payload] else []) + AppPayloads(link, frames[1..])
  }

  /** The newest payload stays, every older one counts as dropped. */
  lemma {:induction false} NewestWins(link: Link, box: Mailbox, frames: seq<Frame>)
    ensures var sent, after := AppPayloads(link, frames), Posted(link, box, frames);
            && after.pending == (if sent == [] then box.pending else Some(sent[|sent| - 1]))
            && after.dropped + (if after.pending.Some? then 1 else 0)
               == box.dropped + (if box.pending.Some? then 1 else 0) + |sent|
    decreases |frames|
  {
    if frames != [] {
      var f := frames[0];
      NewestWins(link, if f.channel != link.ota && f.channel == link.app then box.Put(f.payload) else box, frames[1..]);
    }
  }

  /** What the application does with its mailbox. */
  datatype Use = Arrive(frames: seq<Frame>) | Poll

  /** Payloads routed, payloads handed to the application, and the mailbox. */
  datatype Tally = Tally(routed: nat, returned: nat, box: Mailbox)

  function Used(link: Link, t: Tally, uses: seq<Use>): Tally
    decreases |uses|
  {
    if uses == [] then t else
    match uses[0]
    case Arrive(frames) =>
      Used(link, Tally(t.routed + |AppPayloads(link, frames)|, t.returned, Posted(link, t.box, frames)), uses[1..])
    case Poll =>
      Used(link, Tally(t.routed, t.returned + (if t.box.pending.Some? then 1 else 0), t.box.(pending := None)), uses[1..])
  }

  /** No application payload is unaccounted for. */
  lemma {:induction false} AppConserved(link: Link, t: Tally, uses: seq<Use>)
    requires t.routed == t.returned + t.box.dropped + if t.box.pending.Some? then 1 else 0
    ensures var e := Used(link, t, uses);
            e.routed == e.returned + e.box.dropped + if e.box.pending.Some? then 1 else 0
    decreases |uses|
  {
    if uses != [] {
      match uses[0] {
        case Arrive(frames) =>
          NewestWins(link, t.box, frames);
          AppConserved(link, Tally(t.routed + |AppPayloads(link, frames)|, t.returned, Posted(link, t.box, frames)), uses[1..]);
        case Poll =>
          AppConserved(link, Tally(t.routed, t.returned + (if t.box.pending.Some? then 1 else 0), t.box.(pending := None)), uses[1..]);
      }
    }
  }

  /* ---- the port over a run ---- */

  /** Feeding a payload and reading up to `n` bytes. */
  datatype Access = Feed(payload: Bytes) | Read(n: nat)

  datatype Port = Port(rx: Bytes, dropped: nat)

  function Fed(p: Port, payload: Bytes, max: nat): Port {
    var rx := Last(p.rx + payload, max);
    Port(rx, p.dropped + |p.rx| + |payload| - |rx|)
  }

  function Taken(rx: Bytes, n: nat): Bytes { if n >= |rx| then rx else rx[..n] }

  /** One access, and the bytes it returns. */
  function PortStep(p: Port, a: Access, max: nat): (Port, Bytes) {
    match a
    case Feed(payload) => (Fed(p, payload, max), [])
    case Read(n) => var out := Taken(p.rx, n); (p.(rx := p.rx[|out|..]), out)
  }

  /** The port after a run, and all the bytes that were read from it. */
  function Accessed(p: Port, accesses: seq<Access>, max: nat): (Port, Bytes)
    decreases |accesses|
  {
    if accesses == [] then (p, []) else
    var (q, out) := PortStep(p, accesses[0], max);
    var (e, more) := Accessed(q, accesses[1..], max);
    (e, out + more)
  }

  function Payload(a: Access): Bytes { match a case Feed(payload) => payload case Read(_) => [] }

  function FedBytes(accesses: seq<Access>): Bytes {
    if accesses == [] then []
    else Payload(accesses[0]) + FedBytes(accesses[1..])
  }

  /** A stream that forgets nothing: `all` has come in, the bytes before `pos` are
      read or skipped. */
  datatype Stream = Stream(all: Bytes, pos: nat, skipped: nat)

  ghost predicate Holds(p: Port, s: Stream, max: nat) {
    && s.pos <= |s.all|
    && p.rx == Last(s.all[s.pos..], max)
    && p.dropped == s.skipped + |s.all| - s.pos - |p.rx|
  }

  /** A read begins where at most `max` unread bytes are left. */
  function StreamStep(s: Stream, a: Access, max: nat): (r: (Stream, Bytes))
    requires s.pos <= |s.all|
    ensures r.0.pos <= |r.0.all|
  {
    match a
    case Feed(payload) => (s.(all := s.all + payload), [])
    case Read(n) =>
      var start := if |s.all| - s.pos > max then |s.all| - max else s.pos;
      var stop := if start + n > |s.all| then |s.all| else start + n;
      (Stream(s.all, stop, s.skipped + start - s.pos), s.all[start..stop])
  }

  function Streamed(s: Stream, accesses: seq<Access>, max: nat): (Stream, Bytes)
    requires s.pos <= |s.all|
    decreases |accesses|
  {
    if accesses == [] then (s, []) else
    var (t, out) := StreamStep(s, accesses[0], max);
    var (e, more) := Streamed(t, accesses[1..], max);
    (e, out + more)
  }

  lemma ReadHolds(p: Port, s: Stream, n: nat, max: nat)
    requires Holds(p, s, max)
    ensures var (q, out) := PortStep(p, Access.Read(n), max);
            var (t, read) := StreamStep(s, Access.Read(n), max);
            out == read && Holds(q, t, max)
  {
    var start := if |s.all| - s.pos > max then |s.all| - max else s.pos;
    var stop := if start + n > |s.all| then |s.all| else start + n;
    assert p.rx == s.all[start..];
  }

  lemma StepHolds(p: Port, s: Stream, a: Access, max: nat)
    requires Holds(p, s, max)
    ensures var (q, out) := PortStep(p, a, max);
            var (t, read) := StreamStep(s, a, max);
            out == read && Holds(q, t, max) && t.all == s.all + Payload(a)
  {
    match a {
      case Feed(payload) =>
        DropOfSum(s.all, payload, s.pos);
        LastOfLast(s.all[s.pos..], payload, max);
      case Read(n) =>
        ReadHolds(p, s, n, max);
        NothingAdded(s.all);
    }
  }

  /** The bounded port is that stream: it holds the last `max` unread bytes at every
      moment, returns the same bytes, and counts exactly the ones it skipped. */
  lemma {:induction false} PortIsStream(p: Port, s: Stream, accesses: seq<Access>, max: nat)
    requires Holds(p, s, max)
    ensures var (e, out) := Accessed(p, accesses, max);
            var (t, read) := Streamed(s, accesses, max);
            out == read && Holds(e, t, max) && t.all == s.all + FedBytes(accesses)
    decreases |accesses|
  {
    if accesses == [] {
      NothingAdded(s.all);
    } else {
      StepHolds(p, s, accesses[0], max);
      PortIsStream(PortStep(p, accesses[0], max).0, StreamStep(s, accesses[0], max).0, accesses[1..], max);
      Regroup(s.all, Payload(accesses[0]), FedBytes(accesses[1..]));
    }
  }

  /** While nothing is dropped the port passes on every byte in order. */
  lemma {:induction false} NothingLost(p: Port, accesses: seq<Access>, max: nat)
    requires |p.rx| <= max
    ensures var (e, out) := Accessed(p, accesses, max);
            && |p.rx| + |FedBytes(accesses)| == |out| + |e.rx| + (e.dropped - p.dropped)
            && e.dropped >= p.dropped && |e.rx| <= max
            && (e.dropped == p.dropped ==> out + e.rx == p.rx + FedBytes(accesses))
    decreases |accesses|
  {
    if accesses == [] {
      NothingAdded(p.rx);
    } else {
      var rest := FedBytes(accesses[1..]);
      var (q, out) := PortStep(p, accesses[0], max);
      NothingLost(q, accesses[1..], max);
      NothingLostStep(p, accesses[0], max);
      var (e, more) := Accessed(q, accesses[1..], max);
      Regroup(out, more, e.rx);
      Regroup(out, q.rx, rest);
      Regroup(p.rx, Payload(accesses[0]), rest);
    }
  }

  lemma NothingLostStep(p: Port, a: Access, max: nat)
    requires |p.rx| <= max
    ensures var (q, out) := PortStep(p, a, max);
            && |p.rx| + |Payload(a)| == |out| + |q.rx| + (q.dropped - p.dropped)
            && q.dropped >= p.dropped && |q.rx| <= max
            && (q.dropped == p.dropped ==> out + q.rx == p.rx + Payload(a))
  {
    NothingAdded(PortStep(p, a, max).0.rx);
    NothingAdded(p.rx);
  }
}
