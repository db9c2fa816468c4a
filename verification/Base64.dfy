/** Base64 with padding, section 4 of RFC 4648: what the host's `b2a_base64` sends
    and what a decoder has to give back. */
module Base64 {
  import opened Text

  predicate IsBytes(s: string) { forall i :: 0 <= i < |s| ==> s[i] as int < 256 }

  function Symbol(n: nat): (c: char)
    requires n < 64
    ensures c as int < 128 && !IsSpace(c) && c != ':' && c != '=' && Sextet(c) == Some(n)
  {
    if n < 26 then ('A' as int + n) as char
    else if n < 52 then ('a' as int + n - 26) as char
    else if n < 62 then ('0' as int + n - 52) as char
    else if n == 62 then '+' else '/'
  }

  function Sextet(c: char): (r: Option<nat>)
    ensures r.Some? ==> r.value < 64
  {
    if 'A' <= c <= 'Z' then Some(c as int - 'A' as int)
    else if 'a' <= c <= 'z' then Some(c as int - 'a' as int + 26)
    else if '0' <= c <= '9' then Some(c as int - '0' as int + 52)
    else if c == '+' then Some(62)
    else if c == '/' then Some(63) else None
  }

  predicate Printable(s: string) { forall i :: 0 <= i < |s| ==> s[i] as int < 128 && !IsSpace(s[i]) && s[i] != ':' }

  /** Three bytes as four sextets. */
  function Cut(a: nat, b: nat, c: nat): (nat, nat, nat, nat) {
    (a / 4, a % 4 * 16 + b / 16, b % 16 * 4 + c / 64, c % 64)
  }

  function Glue(p: nat, q: nat, u: nat, v: nat): (nat, nat, nat) {
    (p * 4 + q / 16, q % 16 * 16 + u / 4, u % 4 * 64 + v)
  }

  lemma GlueCut(a: nat, b: nat, c: nat)
    requires a < 256 && b < 256 && c < 256
    ensures var (p, q, u, v) := Cut(a, b, c);
            p < 64 && q < 64 && u < 64 && v < 64 && Glue(p, q, u, v) == (a, b, c)
  {
    assert (a % 4 * 16 + b / 16) / 16 == a % 4 && (a % 4 * 16 + b / 16) % 16 == b / 16;
    assert (b % 16 * 4 + c / 64) / 4 == b % 16 && (b % 16 * 4 + c / 64) % 4 == c / 64;
  }

  /** One group: missing bytes count as zero and their symbols become "=". */
  function Group(s: string): (r: string)
    requires IsBytes(s) && 1 <= |s| <= 3
    ensures |r| == 4 && Printable(r)
  {
    var a, b, c := s[0] as nat, if |s| > 1 then s[1] as nat else 0, if |s| > 2 then s[2] as nat else 0;
    GlueCut(a, b, c);
    var (p, q, u, v) := Cut(a, b, c);
    [Symbol(p), Symbol(q), if |s| > 1 then Symbol(u) else '=', if |s| > 2 then Symbol(v) else '=']
  }

  function Encode(s: string): (r: string)
    requires IsBytes(s)
  {
    if s == "" then "" else if |s| <= 3 then Group(s) else Group(s[..3]) + Encode(s[3..])
  }

  /** Four symbols for every three bytes begun. */
  lemma {:induction false} EncodedLength(s: string) returns (groups: nat)
    requires IsBytes(s)
    ensures |Encode(s)| == 4 * groups && |s| <= 3 * groups < |s| + 3
    decreases |s|
  {
    if s == "" {
      groups := 0;
    } else if |s| <= 3 {
      groups := 1;
    } else {
      var rest := EncodedLength(s[3..]);
      groups := rest + 1;
    }
  }

  lemma {:induction false} EncodedPrintable(s: string)
    requires IsBytes(s)
    ensures Printable(Encode(s))
    decreases |s|
  {
    hide Group, IsSpace;
    if |s| > 3 { EncodedPrintable(s[3..]); }
  }

  function DecodeGroup(r: string): Option<string>
    requires |r| == 4
  {
    var (p, q, u, v) := (Sextet(r[0]), Sextet(r[1]), Sextet(r[2]), Sextet(r[3]));
    if p.None? || q.None? || (u.None? && r[2] != '=') || (v.None? && r[3] != '=') || (u.None? && v.Some?) then None else
    var (a, b, c) := Glue(p.value, q.value, if u.Some? then u.value else 0, if v.Some? then v.value else 0);
    Some([a as char] + (if u.Some? then [b as char] else []) + (if v.Some? then [c as char] else []))
  }

  function Decode(r: string): Option<string> {
    if r == "" then Some("")
    else if |r| < 4 then None
    else match (DecodeGroup(r[..4]), Decode(r[4..]))
      case (Some(x), Some(y)) => Some(x + y)
      case _ => None
  }

  lemma GroupRoundTrip(s: string)
    requires IsBytes(s) && 1 <= |s| <= 3
    ensures DecodeGroup(Group(s)) == Some(s)
  {
    var a, b, c := s[0] as nat, if |s| > 1 then s[1] as nat else 0, if |s| > 2 then s[2] as nat else 0;
    GlueCut(a, b, c);
    var (p, q, u, v) := Cut(a, b, c);
    assert Sextet('=') == None;
    if |s| == 1 {
      assert s == [a as char] + [] + [];
      assert b == 0 && c == 0 && u == 0 && v == 0;
    } else if |s| == 2 {
      assert c == 0 && v == 0;
      assert s == [a as char] + [b as char] + [];
    } else {
      assert s == [a as char] + [b as char] + [c as char];
    }
  }

  /** Decoding an encoding gives the bytes back. */
  lemma {:induction false} RoundTrip(s: string)
    requires IsBytes(s)
    ensures Decode(Encode(s)) == Some(s)
    decreases |s|
  {
    var r := Encode(s);
    if s == "" {
    } else if |s| <= 3 {
      GroupRoundTrip(s);
      assert r[..4] == r && r[4..] == "" && s + "" == s;
    } else {
      GroupRoundTrip(s[..3]);
      RoundTrip(s[3..]);
      assert r[..4] == Group(s[..3]) && r[4..] == Encode(s[3..]);
      assert s[..3] + s[3..] == s;
    }
  }

  /* ---- CHUNK:<sequence>:<base64> ---- */

  const MAX_CHUNK_BYTES := 132
  const FRAME_DATA_BYTES := 194

  function ChunkMessage(i: nat, data: string): string
    requires IsBytes(data)
  {
    "CHUNK" + [':'] + NatText(i) + [':'] + Encode(data)
  }

  /** At the largest chunk size, a sequence number of up to ten digits still
      leaves the message inside one transport frame. */
  lemma ChunkFitsOneFrame(i: nat, data: string)
    requires IsBytes(data) && |data| <= MAX_CHUNK_BYTES && i < Pow10(10)
    ensures |ChunkMessage(i, data)| <= FRAME_DATA_BYTES
  {
    hide Encode, NatText, Pow10, IsBytes;
    NatTextLength(i, 10);
    var groups := EncodedLength(data);
  }
}
