/** Python's text operations, as the modelled code uses them: `split`, `strip`,
    `endswith`, `str(int)` and `int(str)`. Characters stand for bytes wherever the
    source works on ASCII protocol packets. */
module Text {
  datatype Option<+T> = None | Some(value: T)

  /** `s.split(sep)`: always at least one field. */
  function Split(s: string, sep: char): (r: seq<string>)
    ensures |r| >= 1
  {
    if s == "" then [""]
    else if s[0] == sep then [""] + Split(s[1..], sep)
    else var rest := Split(s[1..], sep); [[s[0]] + rest[0]] + rest[1..]
  }

  /** `s.split(sep, max)`: at most `max` cuts, the last field keeps the rest. */
  function SplitMax(s: string, sep: char, max: nat): (r: seq<string>)
    ensures 1 <= |r| <= max + 1
  {
    if max == 0 || s == "" then [s]
    else if s[0] == sep then [""] + SplitMax(s[1..], sep, max - 1)
    else var rest := SplitMax(s[1..], sep, max); [[s[0]] + rest[0]] + rest[1..]
  }

  lemma {:induction false} SplitHead(a: string, sep: char, rest: string)
    requires sep !in a
    ensures Split(a + [sep] + rest, sep) == [a] + Split(rest, sep)
  {
    var s := a + [sep] + rest;
    if a == "" {
      assert s[1..] == rest;
    } else {
      assert s[0] == a[0] && s[1..] == a[1..] + [sep] + rest;
      SplitHead(a[1..], sep, rest);
      assert [a[0]] + a[1..] == a;
    }
  }

  lemma {:induction false} SplitMaxHead(a: string, sep: char, rest: string, max: nat)
    requires sep !in a && max > 0
    ensures SplitMax(a + [sep] + rest, sep, max) == [a] + SplitMax(rest, sep, max - 1)
  {
    var s := a + [sep] + rest;
    if a == "" {
      assert s[1..] == rest;
    } else {
      assert s[0] == a[0] && s[1..] == a[1..] + [sep] + rest;
      SplitMaxHead(a[1..], sep, rest, max);
      assert [a[0]] + a[1..] == a;
    }
  }

  lemma {:induction false} SplitMaxWhole(a: string, sep: char, max: nat)
    requires sep !in a
    ensures SplitMax(a, sep, max) == [a]
  {
    if max > 0 && a != "" {
      SplitMaxWhole(a[1..], sep, max);
      assert [a[0]] + a[1..] == a;
    }
  }

  lemma {:induction false} SplitWhole(s: string, sep: char)
    requires sep !in s
    ensures Split(s, sep) == [s]
  {
    if s != "" {
      SplitWhole(s[1..], sep);
      assert [s[0]] + s[1..] == s;
    }
  }

  /** The last field: the whole text, or what is behind a separator. */
  lemma {:induction false} LastField(s: string, sep: char) returns (a: string)
    ensures var r := Split(s, sep);
            var b := r[|r| - 1];
            sep !in b && (|r| == 1 ==> s == b) && (|r| > 1 ==> s == a + [sep] + b)
  {
    if s == "" {
      a := "";
    } else {
      a := LastField(s[1..], sep);
      var rest := Split(s[1..], sep);
      if s[0] == sep && |rest| == 1 {
        a := "";
        assert s == a + [sep] + rest[0];
      } else {
        a := [s[0]] + a;
        assert |rest| > 1 ==> s == a + [sep] + rest[|rest| - 1];
        assert |rest| == 1 ==> s == [s[0]] + rest[0];
      }
    }
  }

  /** There is only one way to cut a text at its last separator. */
  lemma LastCutUnique(a: string, b: string, x: string, y: string, sep: char)
    requires a + [sep] + b == x + [sep] + y && sep !in b && sep !in y
    ensures b == y
  {
    var s := a + [sep] + b;
    assert s == x + [sep] + y;
    LongerHoldsIt(a, b, x, y, sep);
    LongerHoldsIt(x, y, a, b, sep);
    assert b == s[|s| - |b|..] && y == s[|s| - |y|..];
  }

  lemma LongerHoldsIt(a: string, b: string, x: string, y: string, sep: char)
    requires a + [sep] + b == x + [sep] + y
    ensures |b| > |y| ==> sep in b
  {
    var s := x + [sep] + y;
    if |b| > |y| { assert s[|x|] == sep && s == a + [sep] + b && b[|x| - |a| - 1] == s[|x|]; }
  }

  lemma {:induction false} SplitPieces(s: string, sep: char)
    ensures forall p | p in Split(s, sep) :: sep !in p
  {
    if s != "" { SplitPieces(s[1..], sep); }
  }

  /** Messages of three and of four fields. */
  lemma ThreeSplit(a: string, b: string, c: string, sep: char)
    requires sep !in a && sep !in b
    ensures var m := a + [sep] + b + [sep] + c; SplitMax(m, sep, 2) == [a, b, c] && SplitMax(m, sep, 1)[0] == a
  {
    var tail := b + [sep] + c;
    assert a + [sep] + b + [sep] + c == a + [sep] + tail;
    SplitMaxHead(a, sep, tail, 2);
    SplitMaxHead(a, sep, tail, 1);
    SplitMaxHead(b, sep, c, 1);
  }

  lemma FourSplit(a: string, b: string, c: string, d: string, sep: char)
    requires sep !in a && sep !in b && sep !in c
    ensures var m := a + [sep] + b + [sep] + c + [sep] + d; SplitMax(m, sep, 3) == [a, b, c, d] && SplitMax(m, sep, 1)[0] == a
  {
    var tail := b + [sep] + c + [sep] + d;
    assert a + [sep] + b + [sep] + c + [sep] + d == a + [sep] + tail;
    SplitMaxHead(a, sep, tail, 3);
    SplitMaxHead(a, sep, tail, 1);
    assert tail == b + [sep] + (c + [sep] + d);
    SplitMaxHead(b, sep, c + [sep] + d, 2);
    SplitMaxHead(c, sep, d, 1);
  }

  /** `sep.join(fields)` */
  function Glued(fields: seq<string>, sep: char): string {
    if fields == [] then "" else if |fields| == 1 then fields[0] else fields[0] + [sep] + Glued(fields[1..], sep)
  }

  lemma GluedLonger(c: char, fields: seq<string>, sep: char)
    requires fields != []
    ensures Glued([[c] + fields[0]] + fields[1..], sep) == [c] + Glued(fields, sep)
  {
    if |fields| > 1 {
      assert [c] + fields[0] + [sep] + Glued(fields[1..], sep) == [c] + (fields[0] + [sep] + Glued(fields[1..], sep));
    }
  }

  lemma GluedAgain(fields: seq<string>, sep: char)
    requires fields != []
    ensures Glued([""] + fields, sep) == [sep] + Glued(fields, sep) && Glued(fields[..1], sep) == fields[0]
  {
    assert "" + [sep] + Glued(fields, sep) == [sep] + Glued(fields, sep);
  }

  /** The fields joined again give the text; only the last may hold a separator, and
      only after all the cuts. */
  lemma {:induction false} SplitMaxJoins(s: string, sep: char, max: nat)
    ensures var r := SplitMax(s, sep, max);
            && Glued(r, sep) == s
            && (forall i | 0 <= i < |r| - 1 :: sep !in r[i]) && (|r| <= max ==> sep !in r[|r| - 1])
  {
    hide Glued;
    GluedAgain([s], sep);
    assert [s][..1] == [s];
    if max > 0 && s != "" {
      if s[0] == sep {
        SplitMaxJoins(s[1..], sep, max - 1);
        GluedAgain(SplitMax(s[1..], sep, max - 1), sep);
        assert [sep] + s[1..] == s;
      } else {
        SplitMaxJoins(s[1..], sep, max);
        GluedLonger(s[0], SplitMax(s[1..], sep, max), sep);
        assert [s[0]] + s[1..] == s;
      }
    }
  }

  /** The last field is `name` exactly when the text is, or ends in it behind a separator. */
  lemma LastFieldIs(s: string, sep: char, name: string)
    requires sep !in name
    ensures var r := Split(s, sep); r[|r| - 1] == name <==> s == name || EndsWith(s, [sep] + name)
  {
    hide Split;
    var a := LastField(s, sep);
    var r := Split(s, sep);
    var b := r[|r| - 1];
    if EndsWith(s, [sep] + name) {
      var x := s[..|s| - |name| - 1];
      assert s == x + [sep] + name && s[|x|] == sep;
      LastCutUnique(a, b, x, name, sep);
    }
    if b == name && |r| > 1 {
      assert s == a + ([sep] + name) && s[|s| - |name| - 1..] == [sep] + name;
    }
  }

  predicate EndsWith(s: string, suffix: string) {
    |s| >= |suffix| && s[|s| - |suffix|..] == suffix
  }

  predicate IsSpace(c: char) { c in " \t\n\r" || c as int == 11 || c as int == 12 }

  function StripLeft(s: string): (r: string)
    ensures r == "" || !IsSpace(r[0])
    ensures |r| <= |s|
  {
    if s != "" && IsSpace(s[0]) then StripLeft(s[1..]) else s
  }

  function StripRight(s: string): (r: string)
    ensures r == "" || !IsSpace(r[|r| - 1])
    ensures r <= s
  {
    if s != "" && IsSpace(s[|s| - 1]) then StripRight(s[..|s| - 1]) else s
  }

  /** `s.strip()` */
  function Strip(s: string): (r: string)
    ensures r == "" || (!IsSpace(r[0]) && !IsSpace(r[|r| - 1]))
  {
    StripRight(StripLeft(s))
  }

  predicate Blank(s: string) { forall c | c in s :: IsSpace(c) }

  /** What is stripped is blank. */
  lemma {:induction false} StripIs(s: string) returns (a: string, b: string)
    ensures s == a + Strip(s) + b && Blank(a) && Blank(b)
    decreases |s|
  {
    if s != "" && IsSpace(s[0]) {
      a, b := StripIs(s[1..]);
      a := [s[0]] + a;
    } else {
      a := "";
      b := StripRightIs(s);
    }
  }

  lemma {:induction false} StripRightIs(s: string) returns (b: string)
    ensures s == StripRight(s) + b && Blank(b)
    decreases |s|
  {
    if s != "" && IsSpace(s[|s| - 1]) {
      b := StripRightIs(s[..|s| - 1]);
      b := b + [s[|s| - 1]];
    } else {
      b := "";
    }
  }

  /** No blank at either end, so `strip()` leaves the text alone. */
  predicate Trim(s: string) {
    s == "" || (!IsSpace(s[0]) && !IsSpace(s[|s| - 1]))
  }

  /* ---- decimal numerals ---- */

  predicate IsDigit(c: char) { '0' <= c <= '9' }

  predicate AllDigits(s: string) { forall i :: 0 <= i < |s| ==> IsDigit(s[i]) }

  function Digit(n: nat): (c: char)
    requires n < 10
    ensures IsDigit(c) && DigitValue(c) == n
  {
    ('0' as int + n) as char
  }

  function DigitValue(c: char): (n: nat)
    requires IsDigit(c)
    ensures n < 10
  {
    c as int - '0' as int
  }

  function NatText(n: nat): (s: string)
    ensures s != "" && AllDigits(s)
  {
    if n < 10 then [Digit(n)] else NatText(n / 10) + [Digit(n % 10)]
  }

  /** `str(n)` */
  function IntText(n: int): (s: string)
    ensures s != "" && (IsDigit(s[0]) || s[0] == '-') && AllDigits(s[1..])
  {
    if n < 0 then "-" + NatText(-n) else NatText(n)
  }

  function NatValue(s: string): nat
    requires AllDigits(s)
  {
    if s == "" then 0
    else 10 * NatValue(s[..|s| - 1]) + DigitValue(s[|s| - 1])
  }

  /** `int(s)`: blanks around the numeral and one sign are allowed, anything else raises. */
  function ParseInt(s: string): Option<int> {
    var t := Strip(s);
    var signed := t != "" && (t[0] == '-' || t[0] == '+');
    var body := if signed then t[1..] else t;
    if body == "" || !AllDigits(body) then None
    else if signed && t[0] == '-' then Some(-(NatValue(body) as int))
    else Some(NatValue(body))
  }

  lemma {:induction false} NatTextValue(n: nat)
    ensures NatValue(NatText(n)) == n
  {
    if n >= 10 {
      NatTextValue(n / 10);
      var s := NatText(n);
      assert s[..|s| - 1] == NatText(n / 10) && s[|s| - 1] == Digit(n % 10);
    }
  }

  lemma DigitsAreText(s: string)
    requires AllDigits(s)
    ensures forall i | 0 <= i < |s| :: !IsSpace(s[i]) && s[i] != '-' && s[i] != '+'
  {}

  lemma PlainParses(s: string)
    requires s != "" && AllDigits(s)
    ensures ParseInt(s) == Some(NatValue(s) as int)
  {
    DigitsAreText(s);
    assert Strip(s) == s;
  }

  lemma SignedParses(s: string)
    requires s != "" && AllDigits(s)
    ensures ParseInt("-" + s) == Some(-(NatValue(s) as int))
  {
    DigitsAreText(s);
    var t := "-" + s;
    assert t[|t| - 1] == s[|s| - 1];
    assert Strip(t) == t && t[1..] == s;
  }

  /** `int(str(n)) == n` for every integer. */
  lemma ParseIntText(n: int)
    ensures ParseInt(IntText(n)) == Some(n)
  {
    hide ParseInt, NatText, NatValue;
    if n < 0 {
      NatTextValue(-n);
      SignedParses(NatText(-n));
    } else {
      NatTextValue(n);
      PlainParses(NatText(n));
    }
  }

  function Naughts(k: nat): string { seq(k, _ => '0') }

  lemma NatTextMore(v: nat, d: nat)
    requires v > 0 && d < 10
    ensures NatText(10 * v + d) == NatText(v) + [Digit(d)]
  {
    assert (10 * v + d) / 10 == v && (10 * v + d) % 10 == d;
  }

  lemma DigitOf(c: char)
    requires IsDigit(c)
    ensures Digit(DigitValue(c)) == c && NatText(DigitValue(c)) == [c]
  {}

  lemma LastDigit(s: string)
    requires s != "" && AllDigits(s)
    ensures var n := |s| - 1; IsDigit(s[n]) && AllDigits(s[..n]) && s == s[..n] + [s[n]]
  {}

  lemma LastValue(s: string)
    requires s != "" && AllDigits(s)
    ensures var n := |s| - 1; IsDigit(s[n]) && AllDigits(s[..n]) && NatValue(s) == 10 * NatValue(s[..n]) + DigitValue(s[n])
  {}

  lemma OneMoreNaught(k: nat)
    ensures Naughts(k) + NatText(0) == Naughts(k + 1)
  {}

  /** A run of digits is the numeral of its value after some zeros. */
  lemma {:induction false} DigitsSpell(s: string) returns (k: nat)
    requires s != "" && AllDigits(s)
    ensures s == Naughts(k) + NatText(NatValue(s))
    decreases |s|
  {
    hide *;
    LastDigit(s);
    LastValue(s);
    var n := |s| - 1;
    DigitOf(s[n]);
    var d := DigitValue(s[n]);
    if n == 0 {
      k := 0;
      NoDigits(s[..n]);
    } else {
      k := DigitsSpell(s[..n]);
      var v := NatValue(s[..n]);
      if v == 0 {
        OneMoreNaught(k);
        k := k + 1;
      } else {
        NatTextMore(v, d);
        assert Naughts(k) + NatText(v) + [Digit(d)] == Naughts(k) + (NatText(v) + [Digit(d)]);
      }
    }
  }

  lemma NoDigits(s: string)
    requires s == ""
    ensures NatValue(s) == 0 && Naughts(0) == ""
  {}

  function Signed(sign: string, m: int): int { if sign == "-" then -m else m }

  /** The spellings of an integer: blanks around it, a sign, and zeros in front. */
  predicate Spelled(s: string, n: int, a: string, sign: string, k: nat, m: nat, b: string) {
    s == a + (sign + (Naughts(k) + NatText(m))) + b && Blank(a) && Blank(b) && sign in ["", "+", "-"] && n == Signed(sign, m)
  }

  ghost predicate Spells(s: string, n: int) { exists a, sign, k: nat, m: nat, b :: Spelled(s, n, a, sign, k, m, b) }

  /** `int(s)` is `n` exactly for these. */
  lemma ParseIntIff(s: string, n: int)
    ensures ParseInt(s) == Some(n) <==> Spells(s, n)
  {
    hide ParseInt, NatText, Blank, Naughts, Signed;
    if ParseInt(s) == Some(n) { ParsedSpells(s, n); }
    if Spells(s, n) {
      var a, sign, k: nat, m: nat, b :| Spelled(s, n, a, sign, k, m, b);
      NaughtsValue(k, m);
      SpelledParses(a, sign, Naughts(k) + NatText(m), b);
    }
  }

  lemma SpelledParses(a: string, sign: string, body: string, b: string)
    requires Blank(a) && Blank(b) && sign in ["", "+", "-"] && body != "" && AllDigits(body)
    ensures ParseInt(a + (sign + body) + b) == Some(Signed(sign, NatValue(body)))
  {
    hide Strip, NatValue, Blank;
    var t := sign + body;
    DigitsAreText(body);
    assert t[|t| - 1] == body[|body| - 1];
    assert sign != "" ==> t[0] == sign[0] && t[1..] == body;
    assert sign == "" ==> t == body;
    StripBetween(a, t, b);
  }

  lemma ParsedSpells(s: string, n: int)
    requires ParseInt(s) == Some(n)
    ensures Spells(s, n)
  {
    hide Strip, NatText, NatValue, Blank, Naughts;
    var a, b := StripIs(s);
    var t := Strip(s);
    var signed := t != "" && (t[0] == '-' || t[0] == '+');
    var sign, body := if !signed then "" else if t[0] == '-' then "-" else "+", if signed then t[1..] else t;
    var k := DigitsSpell(body);
    var m := NatValue(body);
    assert t == sign + body && body == Naughts(k) + NatText(m);
    assert n == Signed(sign, m);
    assert Spelled(s, n, a, sign, k, m, b);
  }

  lemma {:induction false} NaughtsValue(k: nat, n: nat)
    ensures var s := Naughts(k) + NatText(n); AllDigits(s) && NatValue(s) == n
    decreases n, k
  {
    var s := Naughts(k) + NatText(n);
    var i := |s| - 1;
    if n >= 10 {
      NaughtsValue(k, n / 10);
      assert s[..i] == Naughts(k) + NatText(n / 10) && s[i] == Digit(n % 10);
    } else if k > 0 {
      NaughtsValue(k - 1, 0);
      assert s[..i] == Naughts(k - 1) + NatText(0) && s[i] == Digit(n);
    } else {
      assert s == [Digit(n)] && s[..i] == "";
    }
  }

  lemma {:induction false} StripBetween(a: string, t: string, b: string)
    requires Blank(a) && Blank(b) && t != "" && !IsSpace(t[0]) && !IsSpace(t[|t| - 1])
    ensures Strip(a + t + b) == t
    decreases |a|
  {
    if a == "" {
      assert a + t + b == t + b && StripLeft(t + b) == t + b;
      StripRightBetween(t, b);
    } else {
      assert (a + t + b)[1..] == a[1..] + t + b && a[0] in a;
      StripBetween(a[1..], t, b);
    }
  }

  lemma {:induction false} StripRightBetween(t: string, b: string)
    requires Blank(b) && t != "" && !IsSpace(t[|t| - 1])
    ensures StripRight(t + b) == t
    decreases |b|
  {
    var n := |b|;
    if n == 0 {
      assert t + b == t;
    } else {
      assert (t + b)[..|t + b| - 1] == t + b[..n - 1] && (t + b)[|t + b| - 1] == b[n - 1] && b[n - 1] in b;
      StripRightBetween(t, b[..n - 1]);
    }
  }

  /** A decimal numeral of at most `k` digits. */
  lemma {:induction false} NatTextLength(n: nat, k: nat)
    requires k > 0 && n < Pow10(k)
    ensures |NatText(n)| <= k
  {
    if n >= 10 {
      assert k > 1;
      NatTextLength(n / 10, k - 1);
    }
  }

  function Pow10(k: nat): (p: nat)
    ensures p > 0
  {
    if k == 0 then 1 else 10 * Pow10(k - 1)
  }

  /* ---- packets ---- */

  predicate HighBit(packet: string) { exists i :: 0 <= i < |packet| && packet[i] as int >= 128 }
}
