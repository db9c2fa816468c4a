/** Command counters: the host that issues them and the device that refuses what it
    has seen, across restarts of both. */
module Counters {
  import opened Text
  import opened Auth

  /** A small file; None while it does not exist. */
  class StateFile {
    var text: Option<string>

    constructor (text: Option<string>)
      ensures this.text == text
    {
      this.text := text;
    }
  }

  /** Host and device read a stored counter alike: 0 unless it is a number of 32 bits. */
  function Loaded(text: Option<string>): (n: nat)
    ensures n <= U32_MAX
  {
    if text.None? then 0 else
    var value := ParseInt(text.value);
    if value.None? || value.value < 0 || value.value > U32_MAX then 0 else value.value
  }

  /** That number is read off any of its spellings; anything else reads as 0. */
  lemma LoadedIff(text: Option<string>, n: nat)
    ensures n > 0 ==> (Loaded(text) == n <==> text.Some? && Spells(text.value, n) && n <= U32_MAX)
    ensures Loaded(text) == 0 <==> text.None? || forall m | 0 < m <= U32_MAX :: !Spells(text.value, m)
  {
    hide ParseInt, Spells;
    if text.Some? {
      ParseIntIff(text.value, n);
      forall m ensures ParseInt(text.value) == Some(m) <==> Spells(text.value, m) { ParseIntIff(text.value, m); }
      if Loaded(text) > 0 { assert Spells(text.value, Loaded(text)); }
    }
  }

  /** Above the last counter and not below the clock. */
  function Next(last: nat, clock: int): (n: nat)
    ensures n > last && n >= clock && (n == last + 1 || n == clock)
  {
    if clock > last + 1 then clock else last + 1
  }

  /** A counter asked for: the last one remembered, the file, and the counter, if one is
      issued. One that could not be put on file is not issued, and not used again. */
  function Issued(last: nat, file: Option<string>, clock: int, persists: bool): (nat, Option<string>, Option<nat>) {
    var n := Next(last, clock);
    if n > U32_MAX then (last, file, None)
    else if !persists then (n, file, None)
    else (n, Some(NatText(n)), Some(n))
  }

  /** An issued counter is on file, above every counter asked for before and not below the
      clock; none is issued beyond 32 bits, and asking uses the counter up. */
  lemma IssuedIsNew(last: nat, file: Option<string>, clock: int, persists: bool)
    ensures var (later, text, counter) := Issued(last, file, clock, persists);
            && (counter.Some? ==>
                  last < counter.value <= U32_MAX && counter.value >= clock && later == counter.value
                  && text.Some? && ParseInt(text.value) == Some(counter.value as int))
            && (counter.None? ==> text == file)
            && (counter.Some? <==> persists && clock <= U32_MAX && last < U32_MAX)
            && (clock <= U32_MAX && last < U32_MAX ==> later > last) && (clock > U32_MAX || last >= U32_MAX ==> later == last)
  {
    ParseIntText(Next(last, clock));
  }

  /* ---- the host ---- */

  class CommandSigner {
    const crypto: Crypto
    const key: Bytes
    const blocks: Blocks
    const store: StateFile
    var last: nat

    ghost predicate Valid() { Derived(blocks, crypto.sha, key) }

    constructor (crypto: Crypto, key: Bytes, store: StateFile)
      ensures Valid() && this.crypto == crypto && this.key == key && this.store == store && last == Loaded(store.text)
    {
      var b := DeriveKeyBlocks(crypto, key);
      this.crypto, this.key, this.store, this.blocks, this.last := crypto, key, store, b, Loaded(store.text);
    }

    /** `persists` tells whether the file could be replaced; if not, nothing is issued. */
    method NextCounter(clock: int, persists: bool) returns (counter: Option<nat>)
      modifies this, store
      ensures (last, store.text, counter) == Issued(old(last), old(store.text), clock, persists)
    {
      var candidate := last + 1;
      if clock > candidate { candidate := clock; }
      if candidate > U32_MAX { return None; }
      last := candidate;
      if !persists { return None; }
      store.text := Some(NatText(last));
      counter := Some(last);
    }

    /** Every packet carries a counter that was on file before it left. */
    method Wrap(command: Bytes, clock: int, persists: bool) returns (packet: Option<Bytes>)
      requires Valid()
      modifies this, store
      ensures var (later, file, counter) := Issued(old(last), old(store.text), clock, persists);
              && last == later && store.text == file && (packet.Some? <==> counter.Some?)
              && (packet.Some? ==> packet.value == Envelope(crypto, key, counter.value, command))
    {
      var counter := NextCounter(clock, persists);
      if counter.None? { return None; }
      var mac := Tag(crypto, blocks, SignedBytes(crypto, counter.value, command), key);
      packet := Some(crypto.utf8("AUTH:") + crypto.utf8(IntText(counter.value)) + crypto.utf8(":")
                     + crypto.utf8(Hexlify(mac)) + crypto.utf8(":") + command);
    }
  }

  /* ---- the device ---- */

  /** The highest counter accepted: the guard's, or before there is one the floor. */
  function Current(guard: Option<int>, floor: Option<string>): int {
    if guard.Some? then guard.value else Loaded(floor)
  }

  /** What becomes of a write to the floor file: it cannot be opened and stays as it
      was, the write fails after `k` characters, or it is complete. */
  datatype FloorWrite = Unopened | Torn(k: nat) | Complete

  /** The counter state of one uptime of the device. */
  class AuthGate {
    const crypto: Crypto
    const configured: string
    const floor: StateFile
    /** Not derived yet, no usable key, or the key blocks. */
    var blocks: Option<Option<Blocks>>
    var lastSeen: Option<int>

    ghost predicate Valid() reads this {
      blocks.Some? ==>
        var key := KeyFromHex(configured);
        && blocks.value.Some? == key.Some?
        && (key.Some? ==> Derived(blocks.value.value, crypto.sha, key.value))
    }

    constructor (crypto: Crypto, configured: string, floor: StateFile)
      ensures Valid() && this.crypto == crypto && this.configured == configured && this.floor == floor && lastSeen == None
    {
      this.crypto, this.configured, this.floor, blocks, lastSeen := crypto, configured, floor, None, None;
    }

    method KeyBlocks() returns (b: Option<Blocks>)
      requires Valid()
      modifies this`blocks
      ensures Valid() && blocks == Some(b)
    {
      if blocks.Some? { return blocks.value; }
      var key := KeyFromHex(configured);
      if key.None? {
        b := None;
      } else {
        var derived := DeriveKeyBlocks(crypto, key.value);
        b := Some(derived);
      }
      blocks := Some(b);
    }

    /** New counters pass and advance the guard; a refused one leaves it alone. */
    method Pass(counter: int) returns (isNew: bool)
      modifies this`lastSeen
      ensures var last := Current(old(lastSeen), floor.text);
              isNew == (counter > last) && lastSeen == Some(if isNew then counter else last)
    {
      if lastSeen.None? { lastSeen := Some(Loaded(floor.text)); }
      isNew := counter > lastSeen.value;
      if isNew { lastSeen := Some(counter); }
    }

    /** The verdict on a packet. Nothing but a verified packet reaches the guard. */
    method Authenticate(text: string) returns (verdict: Verdict)
      requires Valid()
      modifies this`blocks, this`lastSeen
      ensures Valid()
      ensures verdict == Judged(crypto, KeyFromHex(configured), Current(old(lastSeen), floor.text), text)
      ensures Current(lastSeen, floor.text)
              == if verdict.Accept? then Open(text).counter else Current(old(lastSeen), floor.text)
      ensures verdict.Accept? ==> lastSeen == Some(Open(text).counter)
      ensures crypto.Lawful() ==> (verdict.Accept? <==> Genuine(crypto, KeyFromHex(configured), Current(old(lastSeen), floor.text), text))
    {
      hide Genuine, KeyFromHex, Mac, SignedBytes, Loaded, ParseInt, Unhexlify, SplitMax;
      if crypto.Lawful() { AcceptsGenuine(crypto, KeyFromHex(configured), Current(lastSeen, floor.text), text); }
      var b := KeyBlocks();
      if b.None? { return Refuse("ERROR:Unauthenticated"); }
      var fields := SplitMax(text, ':', 3);
      if |fields| != 4 || fields[0] != "AUTH" || fields[3] == "" { return Refuse("ERROR:Unauthenticated"); }
      var counter, mac := ParseInt(fields[1]), Unhexlify(fields[2]);
      if counter.None? || mac.None? { return Refuse("ERROR:Unauthenticated"); }
      var inner := fields[3];
      var ok := Verify(crypto, b.value, SignedBytes(crypto, counter.value, crypto.utf8(inner)), mac.value, KeyFromHex(configured).value);
      if !ok { return Refuse("ERROR:Unauthenticated"); }
      var isNew := Pass(counter.value);
      if !isNew { return Refuse("ERROR:Replayed"); }
      verdict := Accept(inner);
    }

    /** Before a commanded reset, whatever becomes of the write. */
    method PersistFloor(write: FloorWrite)
      requires lastSeen.Some? ==> lastSeen.value >= 0
      modifies floor
      ensures floor.text == Floored(lastSeen, old(floor.text), write)
    {
      if lastSeen.None? { return; }
      match write {
        case Unopened =>
        case Torn(k) => floor.text := Some(Truncated(IntText(lastSeen.value), k));
        case Complete => floor.text := Some(IntText(lastSeen.value));
      }
    }
  }

  function Truncated(s: string, k: nat): string { if k < |s| then s[..k] else s }

  function Floored(guard: Option<int>, floor: Option<string>, write: FloorWrite): Option<string> {
    if guard.None? then floor else
    match write
    case Unopened => floor
    case Torn(k) => Some(Truncated(IntText(guard.value), k))
    case Complete => Some(IntText(guard.value))
  }

  /** After a write that went through, the floor reads as the guard's counter; after one
      that broke off it holds a beginning of that numeral and reads as no more; one that
      could not be opened, or a device without a guard, leaves the file alone. */
  lemma FloorAfterWrite(guard: Option<int>, floor: Option<string>, write: FloorWrite)
    requires guard.Some? ==> 0 <= guard.value <= U32_MAX
    ensures var f := Floored(guard, floor, write);
            if guard.None? || write.Unopened? then f == floor
            else f.Some? && f.value <= IntText(guard.value) && Loaded(f) <= guard.value
                 && (write.Complete? ==> Loaded(f) == guard.value) && (write.Torn? && write.k <= |IntText(guard.value)| ==> |f.value| == write.k)
  {
    if guard.Some? {
      LoadedText(guard.value);
      if write.Torn? { TruncatedLower(guard.value, write.k); }
    }
  }

  /* ---- runs of both ---- */

  /** The link delivers in order and may lose packets; packets already taken from it
      may come again. `accepted` is what the device took since it last forgot. */
  datatype System = System(
    file: Option<string>, last: nat, sent: seq<nat>, queue: seq<nat>,
    floor: Option<string>, guard: Option<int>, accepted: seq<int>, missed: nat)

  datatype Event =
    | Restart
    | Sign(clock: int, persists: bool)
    | Deliver
    | Lose
    | Again(i: nat)
    | CommandedReset(write: FloorWrite)
    | PowerLoss

  function Offered(s: System, counter: nat): System {
    var last := Current(s.guard, s.floor);
    if counter > last then s.(guard := Some(counter), accepted := s.accepted + [counter])
    else s.(guard := Some(last))
  }

  /** An offered counter is accepted exactly when the gate lets its packet through. */
  lemma OfferedIsAuthenticated(crypto: Crypto, key: Bytes, s: System, n: nat, command: string)
    requires crypto.Lawful() && command != "" && !IsSpace(command[|command| - 1])
    ensures var packet := crypto.text(Envelope(crypto, key, n, crypto.utf8(command)));
            && packet.Some?
            && (Judged(crypto, Some(key), Current(s.guard, s.floor), Strip(packet.value)) == Accept(command)
                <==> Offered(s, n).accepted == s.accepted + [n])
  {
    WrapThenAuthenticate(crypto, key, n, Current(s.guard, s.floor), command);
    assert s.accepted + [n] != s.accepted by { assert |s.accepted + [n]| > |s.accepted|; }
  }

  function Step(s: System, e: Event): System {
    match e
    case Restart => s.(last := Loaded(s.file))
    case Sign(clock, persists) =>
      var (last, file, counter) := Issued(s.last, s.file, clock, persists);
      var asked := s.(last := last, file := file);
      if counter.None? then asked else asked.(sent := s.sent + [counter.value], queue := s.queue + [counter.value])
    case Deliver =>
      if s.queue == [] then s else
      var t := Offered(s, s.queue[0]).(queue := s.queue[1..]);
      t.(missed := s.missed + if s.queue[0] > Current(s.guard, s.floor) then 0 else 1)
    case Lose => if s.queue == [] then s else s.(queue := s.queue[1..])
    case Again(i) => if i < |s.sent| - |s.queue| then Offered(s, s.sent[i]) else s
    case CommandedReset(write) =>
      s.(floor := Floored(s.guard, s.floor, write), guard := None, accepted := if write.Complete? then s.accepted else [])
    case PowerLoss => s.(guard := None, accepted := [])
  }

  function Run(s: System, events: seq<Event>): System
    decreases |events|
  {
    if events == [] then s else Run(Step(s, events[0]), events[1..])
  }

  ghost predicate Increasing(s: seq<int>) { forall i, j | 0 <= i < j < |s| :: s[i] < s[j] }

  /** What every step keeps. */
  ghost predicate Orderly(s: System) {
    && Increasing(s.sent) && Increasing(s.accepted)
    && (forall n | n in s.sent :: n <= Loaded(s.file)) && Loaded(s.file) <= s.last <= U32_MAX
    && |s.queue| <= |s.sent| && s.queue == s.sent[|s.sent| - |s.queue|..]
    && 0 <= Current(s.guard, s.floor) <= Loaded(s.file) && Loaded(s.floor) <= Loaded(s.file)
    && (forall n | n in s.queue :: Current(s.guard, s.floor) < n && Loaded(s.floor) < n)
    && (forall n | n in s.accepted :: n <= Current(s.guard, s.floor))
  }

  lemma LoadedText(n: nat)
    requires n <= U32_MAX
    ensures Loaded(Some(NatText(n))) == n
  {
    ParseIntText(n);
  }

  lemma {:induction false} PrefixValue(s: string, k: nat)
    requires AllDigits(s) && k <= |s|
    ensures NatValue(s[..k]) <= NatValue(s)
    decreases |s|
  {
    if k < |s| {
      var t := s[..|s| - 1];
      PrefixValue(t, k);
      assert t[..k] == s[..k];
    } else {
      assert s[..k] == s;
    }
  }

  lemma PlainNumeral(s: string)
    requires AllDigits(s)
    ensures ParseInt(s) == if s == "" then None else Some(NatValue(s) as int)
  {
    assert Strip(s) == s;
  }

  /** A truncated floor reads as a smaller number. */
  lemma TruncatedLower(n: nat, k: nat)
    requires n <= U32_MAX
    ensures Loaded(Some(Truncated(NatText(n), k))) <= n
  {
    LoadedText(n);
    var s, t := NatText(n), Truncated(NatText(n), k);
    if k < |s| {
      PrefixValue(s, k);
      NatTextValue(n);
      PlainNumeral(t);
    }
  }

  lemma Grows(s: seq<int>, n: int)
    requires Increasing(s) && forall m | m in s :: m < n
    ensures Increasing(s + [n])
  {
    var a := s + [n];
    forall i, j | 0 <= i < j < |a| ensures a[i] < a[j] { assert a[i] in s; }
  }

  lemma SignKeeps(s: System, clock: int)
    requires Orderly(s) && Next(s.last, clock) <= U32_MAX
    ensures var t := Step(s, Sign(clock, true)); Orderly(t) && t.missed == s.missed && |t.sent| == |s.sent| + 1
  {
    hide Loaded, NatText;
    var n := Next(s.last, clock);
    LoadedText(n);
    Grows(s.sent, n);
    var t := Step(s, Sign(clock, true));
    assert t.queue == t.sent[|t.sent| - |t.queue|..];
    forall m | m in t.sent ensures m <= Loaded(t.file) { assert m in s.sent || m == n; }
    forall m | m in t.queue ensures Current(t.guard, t.floor) < m && Loaded(t.floor) < m { assert m in s.queue || m == n; }
  }

  /** A counter from the past or the head of the link is offered. */
  lemma OfferedKeeps(s: System, i: nat)
    requires Orderly(s) && i < |s.sent| - |s.queue|
    ensures Orderly(Offered(s, s.sent[i]))
  {
    var t := Offered(s, s.sent[i]);
    assert s.sent[i] in s.sent;
    forall m | m in t.queue ensures Current(t.guard, t.floor) < m && Loaded(t.floor) < m {
      var j :| 0 <= j < |s.queue| && s.queue[j] == m;
      assert s.sent[|s.sent| - |s.queue| + j] == m;
    }
    forall m | m in t.accepted ensures m <= Current(t.guard, t.floor) { assert m in s.accepted || m == s.sent[i]; }
    if s.sent[i] > Current(s.guard, s.floor) { Grows(s.accepted, s.sent[i]); }
  }

  lemma PoppedKeeps(s: System)
    requires Orderly(s) && s.queue != []
    ensures Orderly(s.(queue := s.queue[1..]))
  {
    assert s.queue[1..] == s.sent[|s.sent| - (|s.queue| - 1)..];
    assert forall m | m in s.queue[1..] :: m in s.queue;
  }

  lemma DeliverKeeps(s: System)
    requires Orderly(s) && s.queue != []
    ensures Orderly(Step(s, Deliver)) && Step(s, Deliver).missed == s.missed
  {
    var p := s.(queue := s.queue[1..]);
    PoppedKeeps(s);
    assert s.queue[0] in s.queue && s.queue[0] == s.sent[|s.sent| - |s.queue|];
    OfferedKeeps(p, |s.sent| - |s.queue|);
  }

  lemma ResetKeeps(s: System, write: FloorWrite)
    requires Orderly(s)
    ensures Orderly(Step(s, CommandedReset(write)))
  {
    hide Loaded, NatText, Truncated;
    if s.guard.Some? {
      LoadedText(s.guard.value);
      if write.Torn? { TruncatedLower(s.guard.value, write.k); }
    }
  }

  lemma StepKeeps(s: System, e: Event)
    requires Orderly(s)
    ensures Orderly(Step(s, e)) && Step(s, e).missed == s.missed
  {
    match e {
      case Restart =>
      case Sign(clock, persists) => if Next(s.last, clock) <= U32_MAX && persists { SignKeeps(s, clock); }
      case Deliver => if s.queue != [] { DeliverKeeps(s); }
      case Lose => if s.queue != [] { PoppedKeeps(s); }
      case Again(i) => if i < |s.sent| - |s.queue| { OfferedKeeps(s, i); }
      case CommandedReset(write) => ResetKeeps(s, write);
      case PowerLoss =>
    }
  }

  /** Over any run: the counters put on the wire strictly increase, no delivered one is
      refused, and none is accepted twice, neither within an uptime nor across a
      commanded reset whose floor was written. */
  lemma {:induction false} RunKeepsOrder(s: System, events: seq<Event>)
    requires Orderly(s)
    ensures var t := Run(s, events); Orderly(t) && Increasing(t.sent) && Increasing(t.accepted) && t.missed == s.missed
    decreases |events|
  {
    if events != [] {
      StepKeeps(s, events[0]);
      RunKeepsOrder(Step(s, events[0]), events[1..]);
    }
  }

  /** Host and device at the start, with whatever their files hold. */
  function Started(file: Option<string>, floor: Option<string>): System {
    System(file, Loaded(file), [], [], floor, None, [], 0)
  }

  /** From a start no genuine counter is ever refused exactly when the device's floor is
      not above the host's file; otherwise the next counter may fall below it. */
  lemma NoneMissedIff(file: Option<string>, floor: Option<string>)
    ensures (forall events :: Run(Started(file, floor), events).missed == 0) <==> Loaded(floor) <= Loaded(file)
  {
    hide Run, Loaded;
    var s := Started(file, floor);
    if Loaded(floor) <= Loaded(file) {
      forall events ensures Run(s, events).missed == 0 { RunKeepsOrder(s, events); }
    } else {
      LowStartMisses(file, floor);
    }
  }

  lemma LowStartMisses(file: Option<string>, floor: Option<string>)
    requires Loaded(file) < Loaded(floor)
    ensures Run(Started(file, floor), [Sign(0, true), Deliver]).missed == 1
  {
    var s, sign := Started(file, floor), Sign(0, true);
    var t := Step(s, sign);
    assert [sign, Deliver][1..] == [Deliver];
    assert Run(t, [Deliver]) == Run(Step(t, Deliver), []) == Step(t, Deliver);
  }

  /** Where the guard has forgotten, it is the next new counter that closes the past:
      until then exactly the counters above the floor would pass. */
  lemma RepeatAfterPowerLoss(s: System, i: nat)
    requires Orderly(s) && i < |s.sent| - |s.queue|
    ensures var t := Step(s, PowerLoss);
            (Step(t, Again(i)).accepted != [] <==> s.sent[i] > Loaded(s.floor))
    ensures s.queue != [] ==>
              var u := Step(Step(s, PowerLoss), Deliver);
              u.accepted == [s.queue[0]] && Step(u, Again(i)).accepted == u.accepted
  {
    if s.queue != [] {
      assert s.queue[0] in s.queue && s.queue[0] == s.sent[|s.sent| - |s.queue|];
    }
  }
}
