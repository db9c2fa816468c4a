/** Authenticated commands: the MAC both ends compute, and the envelope
    AUTH:<counter>:<hex-mac>:<command> that carries it. */
module Auth {
  import opened Text

  type Bytes = seq<bv8>

  const MAC_BYTES := 8
  const BLOCK_SIZE := 64
  const IPAD: bv8 := 0x36
  const OPAD: bv8 := 0x5C
  const U32_MAX := 0xFFFFFFFF

  /** Domain separation for channel 0; it ends in a zero byte. */
  const CH0_DOMAIN: string := "otampy-ch0" + [0 as char]

  /** SHA-256 and UTF-8, taken from elsewhere. */
  datatype Crypto = Crypto(sha: Bytes -> Bytes, utf8: string -> Bytes, text: Bytes -> Option<string>) {
    ghost predicate Lawful() {
      && (forall x :: |sha(x)| == 32)
      && (forall s :: text(utf8(s)) == Some(s))
      && (forall a, b :: utf8(a + b) == utf8(a) + utf8(b))
    }
  }

  /* ---- the MAC ---- */

  function Xored(s: Bytes, pad: bv8): Bytes { seq(|s|, i requires 0 <= i < |s| => s[i] ^ pad) }

  function Zeros(n: nat): Bytes { seq(n, _ => 0) }

  /** HMAC as section 2 of RFC 2104 defines it for a hash with 64-byte blocks. */
  function Hmac(sha: Bytes -> Bytes, key: Bytes, text: Bytes): Bytes {
    var short := if |key| > BLOCK_SIZE then sha(key) else key;
    var k := short + Zeros(if |short| < BLOCK_SIZE then BLOCK_SIZE - |short| else 0);
    sha(Xored(k, OPAD) + sha(Xored(k, IPAD) + text))
  }

  /** The leftmost bytes, section 5 of RFC 2104. */
  function Mac(sha: Bytes -> Bytes, key: Bytes, text: Bytes): (mac: Bytes)
    ensures |mac| <= MAC_BYTES
  {
    var h := Hmac(sha, key, text);
    if |h| < MAC_BYTES then h else h[..MAC_BYTES]
  }

  datatype Blocks = Blocks(ipad: Bytes, opad: Bytes)

  ghost predicate Derived(blocks: Blocks, sha: Bytes -> Bytes, key: Bytes) {
    forall text :: sha(blocks.opad + sha(blocks.ipad + text)) == Hmac(sha, key, text)
  }

  method XorLoop(k: Bytes, pad: bv8) returns (block: Bytes)
    ensures block == Xored(k, pad)
  {
    block := [];
    for i := 0 to |k|
      invariant |block| == i && forall j :: 0 <= j < i ==> block[j] == k[j] ^ pad
    {
      block := block + [k[i] ^ pad];
    }
  }

  method DeriveKeyBlocks(crypto: Crypto, key: Bytes) returns (blocks: Blocks)
    ensures Derived(blocks, crypto.sha, key)
  {
    var k := key;
    if |k| > BLOCK_SIZE { k := crypto.sha(k); }
    k := k + Zeros(if |k| < BLOCK_SIZE then BLOCK_SIZE - |k| else 0);
    var ipad := XorLoop(k, IPAD);
    var opad := XorLoop(k, OPAD);
    blocks := Blocks(ipad, opad);
  }

  /** Two hashes fed in pieces. */
  method Tag(crypto: Crypto, blocks: Blocks, payload: Bytes, ghost key: Bytes) returns (tag: Bytes)
    requires Derived(blocks, crypto.sha, key)
    ensures tag == Mac(crypto.sha, key, payload)
  {
    var inner := blocks.ipad;
    inner := inner + payload;
    var outer := blocks.opad;
    outer := outer + crypto.sha(inner);
    tag := crypto.sha(outer);
    if |tag| >= MAC_BYTES { tag := tag[..MAC_BYTES]; }
  }

  /** The loop looks at every byte, and accepts exactly the right tag. */
  method Verify(crypto: Crypto, blocks: Blocks, payload: Bytes, expected: Bytes, ghost key: Bytes) returns (ok: bool)
    requires Derived(blocks, crypto.sha, key)
    ensures ok <==> expected == Mac(crypto.sha, key, payload)
  {
    var actual := Tag(crypto, blocks, payload, key);
    if |actual| != |expected| { return false; }
    var acc: bv8 := 0;
    var i := 0;
    while i < |actual|
      invariant i <= |actual|
      invariant acc == 0 <==> forall j :: 0 <= j < i ==> actual[j] == expected[j]
    {
      acc := acc | (actual[i] ^ expected[i]);
      i := i + 1;
    }
    ok := acc == 0;
  }

  /* ---- hexadecimal ---- */

  function HexDigit(n: bv8): (c: char)
    requires n < 16
    ensures HexValue(c) == Some(n) && c != ':'
  {
    if n == 0 then '0' else if n == 1 then '1' else if n == 2 then '2' else if n == 3 then '3'
    else if n == 4 then '4' else if n == 5 then '5' else if n == 6 then '6' else if n == 7 then '7'
    else if n == 8 then '8' else if n == 9 then '9' else if n == 10 then 'a' else if n == 11 then 'b'
    else if n == 12 then 'c' else if n == 13 then 'd' else if n == 14 then 'e' else 'f'
  }

  function HexValue(c: char): (r: Option<bv8>)
    ensures r.Some? ==> r.value < 16
  {
    match c
    case '0' => Some(0) case '1' => Some(1) case '2' => Some(2) case '3' => Some(3)
    case '4' => Some(4) case '5' => Some(5) case '6' => Some(6) case '7' => Some(7)
    case '8' => Some(8) case '9' => Some(9)
    case 'a' => Some(10) case 'b' => Some(11) case 'c' => Some(12) case 'd' => Some(13) case 'e' => Some(14) case 'f' => Some(15)
    case 'A' => Some(10) case 'B' => Some(11) case 'C' => Some(12) case 'D' => Some(13) case 'E' => Some(14) case 'F' => Some(15)
    case _ => None
  }

  function Hexlify(s: Bytes): (h: string)
    ensures ':' !in h
  {
    if s == [] then "" else
    [HexDigit(s[0] >> 4), HexDigit(s[0] & 15)] + Hexlify(s[1..])
  }

  function Unhexlify(h: string): Option<Bytes> {
    if h == "" then Some([])
    else if |h| < 2 then None
    else match (HexValue(h[0]), HexValue(h[1]), Unhexlify(h[2..]))
      case (Some(a), Some(b), Some(rest)) => Some([(a << 4) | b] + rest)
      case _ => None
  }

  lemma {:induction false} HexRoundTrip(s: Bytes)
    ensures Unhexlify(Hexlify(s)) == Some(s)
  {
    if s != [] {
      HexRoundTrip(s[1..]);
      var h := Hexlify(s);
      assert h[2..] == Hexlify(s[1..]);
      assert [s[0]] + s[1..] == s;
    }
  }

  function LowerCase(c: char): char { if 'A' <= c <= 'F' then (c as int + 32) as char else c }

  function Lower(h: string): (r: string)
    ensures |r| == |h|
  {
    seq(|h|, i requires 0 <= i < |h| => LowerCase(h[i]))
  }

  lemma HexValueIff(c: char, v: bv8)
    requires v < 16
    ensures HexValue(c) == Some(v) <==> LowerCase(c) == HexDigit(v)
  {}

  lemma ByteHalves(b: bv8, x: bv8, y: bv8)
    requires x < 16 && y < 16
    ensures b >> 4 < 16 && b & 15 < 16
    ensures b == (x << 4) | y <==> b >> 4 == x && b & 15 == y
  {}

  /** `unhexlify` takes exactly the digits of the bytes, in either case. */
  lemma {:induction false} UnhexlifyIff(h: string, s: Bytes)
    ensures Unhexlify(h) == Some(s) <==> Lower(h) == Hexlify(s)
    decreases |h|
  {
    hide HexDigit, HexValue, LowerCase;
    if |h| < 2 {
      assert |Lower(h)| == |h|;
    } else if s != [] {
      UnhexlifyIff(h[2..], s[1..]);
      var a, b := s[0] >> 4, s[0] & 15;
      ByteHalves(s[0], 0, 0);
      HexPair(h, s);
      HexValueIff(h[0], a);
      HexValueIff(h[1], b);
      if HexValue(h[0]).Some? && HexValue(h[1]).Some? { ByteHalves(s[0], HexValue(h[0]).value, HexValue(h[1]).value); }
      if Unhexlify(h) == Some(s) {
        assert Unhexlify(h).value[1..] == Unhexlify(h[2..]).value;
      } else if Lower(h) == Hexlify(s) {
        assert [s[0]] + s[1..] == s;
      }
    }
  }

  lemma HexPair(h: string, s: Bytes)
    requires |h| >= 2 && s != [] && s[0] >> 4 < 16 && s[0] & 15 < 16
    ensures Lower(h) == Hexlify(s)
            <==> LowerCase(h[0]) == HexDigit(s[0] >> 4) && LowerCase(h[1]) == HexDigit(s[0] & 15) && Lower(h[2..]) == Hexlify(s[1..])
  {
    var l, x := Lower(h), Hexlify(s);
    assert l == [LowerCase(h[0]), LowerCase(h[1])] + Lower(h[2..]);
    assert x == [HexDigit(s[0] >> 4), HexDigit(s[0] & 15)] + Hexlify(s[1..]);
    if l == x { assert l[2..] == x[2..]; }
  }

  lemma {:induction false} HexLength(s: Bytes)
    ensures |Hexlify(s)| == 2 * |s|
  {
    if s != [] { HexLength(s[1..]); }
  }

  /** A key as it is configured: 64 hexadecimal digits. */
  function KeyFromHex(configured: string): Option<Bytes> {
    var t := Strip(configured);
    if |t| != 64 then None else Unhexlify(t)
  }

  /** A usable key is 32 bytes in hexadecimal, blanks around it allowed. */
  lemma KeyIff(configured: string, key: Bytes)
    ensures KeyFromHex(configured) == Some(key) <==> |key| == 32 && Lower(Strip(configured)) == Hexlify(key)
  {
    hide Unhexlify, Hexlify, Lower;
    var t := Strip(configured);
    UnhexlifyIff(t, key);
    HexLength(key);
    assert |Lower(t)| == |t|;
  }

  /* ---- what is signed ---- */

  function SignedText(counter: int, command: string): string {
    CH0_DOMAIN + IntText(counter) + ":" + command
  }

  function SignedBytes(crypto: Crypto, counter: int, command: Bytes): Bytes {
    crypto.utf8(CH0_DOMAIN) + crypto.utf8(IntText(counter)) + crypto.utf8(":") + command
  }

  lemma NoColon(counter: int)
    ensures ':' !in IntText(counter)
  {
    var s := IntText(counter);
    forall i | 0 <= i < |s| ensures s[i] != ':' {
      if i > 0 { assert s[1..][i - 1] == s[i]; }
    }
  }

  /** The bytes under the MAC determine counter and command. */
  lemma SigningIsUnambiguous(crypto: Crypto, n: int, command: string, m: int, other: string)
    requires crypto.Lawful()
    requires SignedBytes(crypto, n, crypto.utf8(command)) == SignedBytes(crypto, m, crypto.utf8(other))
    ensures n == m && command == other
  {
    var s, t := SignedText(n, command), SignedText(m, other);
    assert Some(s) == Some(t);
    SignedFields(n, command);
    SignedFields(m, other);
    ParseIntText(n);
    ParseIntText(m);
  }

  lemma SignedFields(counter: int, command: string)
    ensures SignedText(counter, command)[|CH0_DOMAIN|..] == IntText(counter) + [':'] + command
    ensures SplitMax(IntText(counter) + [':'] + command, ':', 1) == [IntText(counter), command]
  {
    var tail := IntText(counter) + [':'] + command;
    assert SignedText(counter, command) == CH0_DOMAIN + tail;
    NoColon(counter);
    SplitMaxHead(IntText(counter), ':', command, 1);
  }

  /* ---- the envelope ---- */

  function EnvelopeText(counter: int, mac: Bytes, command: string): string {
    "AUTH" + [':'] + (IntText(counter) + [':'] + (Hexlify(mac) + [':'] + command))
  }

  /** What the host sends for a command's bytes. */
  function Envelope(crypto: Crypto, key: Bytes, counter: int, command: Bytes): Bytes {
    crypto.utf8("AUTH:") + crypto.utf8(IntText(counter)) + crypto.utf8(":")
    + crypto.utf8(Hexlify(Mac(crypto.sha, key, SignedBytes(crypto, counter, command)))) + crypto.utf8(":") + command
  }

  lemma Utf8Joins(crypto: Crypto, a: string, b: string)
    requires crypto.Lawful()
    ensures crypto.utf8(a + b) == crypto.utf8(a) + crypto.utf8(b)
  {}

  lemma EnvelopeIsText(crypto: Crypto, key: Bytes, counter: int, command: string)
    requires crypto.Lawful()
    ensures var mac := Mac(crypto.sha, key, SignedBytes(crypto, counter, crypto.utf8(command)));
            Envelope(crypto, key, counter, crypto.utf8(command)) == crypto.utf8(EnvelopeText(counter, mac, command))
  {
    var mac := Mac(crypto.sha, key, SignedBytes(crypto, counter, crypto.utf8(command)));
    hide IntText, Hexlify, Mac;
    var c, h := IntText(counter), Hexlify(mac);
    Utf8Joins(crypto, "AUTH:", c);
    Utf8Joins(crypto, "AUTH:" + c, ":");
    Utf8Joins(crypto, "AUTH:" + c + ":", h);
    Utf8Joins(crypto, "AUTH:" + c + ":" + h, ":");
    Utf8Joins(crypto, "AUTH:" + c + ":" + h + ":", command);
    assert "AUTH:" + c + ":" + h + ":" + command == EnvelopeText(counter, mac, command);
  }

  /** What the device finds in a packet. */
  datatype Opened = Rejected | Opened(counter: int, mac: Bytes, command: string)

  function Open(text: string): Opened {
    var fields := SplitMax(text, ':', 3);
    if |fields| != 4 || fields[0] != "AUTH" || fields[3] == "" then Rejected
    else match (ParseInt(fields[1]), Unhexlify(fields[2]))
      case (Some(counter), Some(mac)) => Opened(counter, mac, fields[3])
      case _ => Rejected
  }

  lemma EnvelopeFields(counter: int, mac: Bytes, command: string)
    ensures SplitMax(EnvelopeText(counter, mac, command), ':', 3) == ["AUTH", IntText(counter), Hexlify(mac), command]
  {
    NoColon(counter);
    var rest := Hexlify(mac) + [':'] + command;
    SplitMaxHead("AUTH", ':', IntText(counter) + [':'] + rest, 3);
    SplitMaxHead(IntText(counter), ':', rest, 2);
    SplitMaxHead(Hexlify(mac), ':', command, 1);
  }

  /** Sealed and opened again: the fields come back, whatever colons the command has. */
  lemma OpensAgain(counter: int, mac: Bytes, command: string)
    requires command != ""
    ensures Open(EnvelopeText(counter, mac, command)) == Opened(counter, mac, command)
  {
    EnvelopeFields(counter, mac, command);
    ParseIntText(counter);
    HexRoundTrip(mac);
  }

  /** Nothing at its ends is stripped from an envelope whose command has no blank at its end. */
  lemma EnvelopeTrims(counter: int, mac: Bytes, command: string)
    requires command != "" && !IsSpace(command[|command| - 1])
    ensures Strip(EnvelopeText(counter, mac, command)) == EnvelopeText(counter, mac, command)
  {
    var t := EnvelopeText(counter, mac, command);
    assert t[0] == 'A' && t[|t| - 1] == command[|command| - 1];
  }

  /* ---- the gate ---- */

  datatype Verdict = Accept(command: string) | Refuse(reply: string)

  /** What the gate decides about a packet: `last` is the highest counter accepted. */
  function Judged(crypto: Crypto, key: Option<Bytes>, last: int, text: string): Verdict {
    var o := Open(text);
    if key.None? || o.Rejected? then Refuse("ERROR:Unauthenticated")
    else if o.mac != Mac(crypto.sha, key.value, SignedBytes(crypto, o.counter, crypto.utf8(o.command))) then Refuse("ERROR:Unauthenticated")
    else if o.counter > last then Accept(o.command)
    else Refuse("ERROR:Replayed")
  }

  /** `authenticate` gives back exactly the command that `wrap` was given, for every
      command without a blank at its end, if and only if its counter is a new one. */
  lemma WrapThenAuthenticate(crypto: Crypto, key: Bytes, counter: int, last: int, command: string)
    requires crypto.Lawful() && command != "" && !IsSpace(command[|command| - 1])
    ensures var packet := crypto.text(Envelope(crypto, key, counter, crypto.utf8(command)));
            && packet.Some?
            && Open(Strip(packet.value)).Opened? && Open(Strip(packet.value)).counter == counter
            && Judged(crypto, Some(key), last, Strip(packet.value))
               == if counter > last then Accept(command) else Refuse("ERROR:Replayed")
  {
    var mac := Mac(crypto.sha, key, SignedBytes(crypto, counter, crypto.utf8(command)));
    EnvelopeIsText(crypto, key, counter, command);
    EnvelopeTrims(counter, mac, command);
    OpensAgain(counter, mac, command);
  }

  /** Four fields, the first AUTH; the third is the tag of the second and the fourth
      under the key: the first eight bytes of their HMAC. */
  ghost predicate SealedAs(crypto: Crypto, key: Bytes, text: string, counter: int, command: string, n: string, h: string) {
    && text == Glued(["AUTH", n, h, command], ':') && ':' !in n && ':' !in h && command != ""
    && ParseInt(n) == Some(counter)
    && var tag := Hmac(crypto.sha, key, SignedBytes(crypto, counter, crypto.utf8(command)));
       |tag| == 32 && Unhexlify(h) == Some(tag[..8])
  }

  ghost predicate Sealed(crypto: Crypto, key: Bytes, text: string, counter: int, command: string) {
    exists n, h :: SealedAs(crypto, key, text, counter, command, n, h)
  }

  /** A sealed packet that is new to a device which has accepted counters up to `last`. */
  ghost predicate Genuine(crypto: Crypto, key: Option<Bytes>, last: int, text: string) {
    key.Some? && exists counter, command :: counter > last && Sealed(crypto, key.value, text, counter, command)
  }

  lemma OpenedAs(text: string)
    requires Open(text).Opened?
    ensures var o := Open(text); var f := SplitMax(text, ':', 3);
            && |f| == 4 && text == Glued(["AUTH", f[1], f[2], o.command], ':') && ':' !in f[1] && ':' !in f[2] && o.command != ""
            && ParseInt(f[1]) == Some(o.counter) && Unhexlify(f[2]) == Some(o.mac)
  {
    hide ParseInt, Unhexlify, Glued, SplitMax;
    var f := SplitMax(text, ':', 3);
    SplitMaxJoins(text, ':', 3);
    assert f == ["AUTH", f[1], f[2], f[3]];
  }

  lemma SealedOpens(crypto: Crypto, key: Bytes, text: string, counter: int, command: string, n: string, h: string)
    requires SealedAs(crypto, key, text, counter, command, n, h)
    ensures var o := Open(text); o.Opened? && o.counter == counter && o.command == command && Some(o.mac) == Unhexlify(h)
  {
    hide ParseInt, Unhexlify, Hmac, SignedBytes;
    var rest := h + [':'] + command;
    assert Glued([h, command], ':') == rest && Glued([n, h, command], ':') == n + [':'] + rest;
    assert text == "AUTH" + [':'] + (n + [':'] + rest);
    SplitMaxHead("AUTH", ':', n + [':'] + rest, 3);
    SplitMaxHead(n, ':', rest, 2);
    SplitMaxHead(h, ':', command, 1);
  }

  /** The gate accepts exactly the sealed packets with a new counter, answers a replay
      exactly to the sealed ones with an old counter, and knows nothing of the others. */
  lemma GateIsExact(crypto: Crypto, key: Option<Bytes>, last: int, text: string, command: string)
    requires crypto.Lawful()
    ensures Judged(crypto, key, last, text) == Accept(command)
            <==> key.Some? && exists n :: n > last && Sealed(crypto, key.value, text, n, command)
    ensures Judged(crypto, key, last, text) == Refuse("ERROR:Replayed")
            <==> key.Some? && exists n, c :: n <= last && Sealed(crypto, key.value, text, n, c)
    ensures Judged(crypto, key, last, text) == Refuse("ERROR:Unauthenticated")
            <==> key.None? || forall n, c :: !Sealed(crypto, key.value, text, n, c)
  {
    hide ParseInt, Unhexlify, Hmac, SignedBytes, Glued, SplitMax, Open;
    var o := Open(text);
    if key.Some? && o.Opened? { OpenedSealed(crypto, key.value, text); }
    forall n, c | key.Some? && Sealed(crypto, key.value, text, n, c)
      ensures o.Opened? && o.counter == n && o.command == c && Mine(crypto, key.value, o)
    {
      var x, h :| SealedAs(crypto, key.value, text, n, c, x, h);
      SealedOpens(crypto, key.value, text, n, c, x, h);
    }
  }

  /** The tag in an opened packet is the one of its counter and command. */
  predicate Mine(crypto: Crypto, key: Bytes, o: Opened)
    requires o.Opened?
  {
    o.mac == Mac(crypto.sha, key, SignedBytes(crypto, o.counter, crypto.utf8(o.command)))
  }

  lemma OpenedSealed(crypto: Crypto, key: Bytes, text: string)
    requires crypto.Lawful() && Open(text).Opened?
    ensures var o := Open(text); Mine(crypto, key, o) <==> Sealed(crypto, key, text, o.counter, o.command)
  {
    hide ParseInt, Unhexlify, SignedBytes, Glued, SplitMax, Open;
    var o, f := Open(text), SplitMax(text, ':', 3);
    OpenedAs(text);
    if Mine(crypto, key, o) { assert SealedAs(crypto, key, text, o.counter, o.command, f[1], f[2]); }
    if Sealed(crypto, key, text, o.counter, o.command) {
      var n, h :| SealedAs(crypto, key, text, o.counter, o.command, n, h);
      SealedOpens(crypto, key, text, o.counter, o.command, n, h);
    }
  }

  lemma AcceptsGenuine(crypto: Crypto, key: Option<Bytes>, last: int, text: string)
    requires crypto.Lawful()
    ensures Judged(crypto, key, last, text).Accept? <==> Genuine(crypto, key, last, text)
  {
    hide Judged, Sealed;
    var v := Judged(crypto, key, last, text);
    if v.Accept? { GateIsExact(crypto, key, last, text, v.command); }
    if Genuine(crypto, key, last, text) {
      var n, command :| n > last && Sealed(crypto, key.value, text, n, command);
      GateIsExact(crypto, key, last, text, command);
    }
  }
}
