/** Path spelling: how the operating system reads a path, and `_canonical`. */
module Paths {
  import opened Text
  import opened Disks
  import opened Names

  /** A directory entry's name. */
  predicate IsName(n: string) { n != "" && n != "." && '/' !in n }

  predicate AllNames(cs: seq<string>) { forall c | c in cs :: IsName(c) }

  function Significant(pieces: seq<string>): seq<string> {
    if pieces == [] then []
    else (if pieces[0] == "" || pieces[0] == "." then [] else [pieces[0]]) + Significant(pieces[1..])
  }

  /** The names a path leads through; empty pieces and "." lead nowhere. */
  function Comps(path: string): seq<string> { Significant(Split(path, '/')) }

  /** The absolute spelling of a list of names. */
  function Spell(cs: seq<string>): string {
    if cs == [] then "" else "/" + cs[0] + Spell(cs[1..])
  }

  /** The file a path denotes, under its absolute spelling. */
  function Locate(path: string): string { Spell(Comps(path)) }

  lemma SplitMore(c: char, s: string)
    requires c != '/'
    ensures var b := Split(s, '/'); Split([c] + s, '/') == [[c] + b[0]] + b[1..]
  {
    assert ([c] + s)[1..] == s;
  }

  lemma SplitSlash(s: string)
    ensures Split("/" + s, '/') == [""] + Split(s, '/')
  {
    assert ("/" + s)[1..] == s;
  }

  lemma OneLess(c: string, s: string)
    requires c != ""
    ensures c + s == [c[0]] + (c[1..] + s) && [c[0]] + c[1..] == c && c[0] in c
  {}

  lemma {:induction false} SplitNames(c: string, rest: seq<string>)
    requires '/' !in c && AllNames(rest)
    ensures Split(c + Spell(rest), '/') == [c] + rest
    decreases |rest|, |c|
  {
    if c != "" {
      hide Split, Spell, AllNames;
      OneLess(c, Spell(rest));
      SplitNames(c[1..], rest);
      SplitMore(c[0], c[1..] + Spell(rest));
      assert ([c[1..]] + rest)[1..] == rest;
    } else if rest != [] {
      assert IsName(rest[0]) && AllNames(rest[1..]);
      hide Split, Spell, AllNames;
      SpellHead(rest);
      SplitNames(rest[0], rest[1..]);
      SplitSlash(rest[0] + Spell(rest[1..]));
      assert [rest[0]] + rest[1..] == rest;
      assert "" + Spell(rest) == Spell(rest);
    } else {
      assert c + Spell(rest) == "";
    }
  }

  lemma {:induction false} SignificantNames(cs: seq<string>)
    requires AllNames(cs)
    ensures Significant(cs) == cs
  {
    if cs != [] {
      assert IsName(cs[0]);
      SignificantNames(cs[1..]);
    }
  }

  /** `"" + "/a/b"`, `"." + "/a/b"` and the like all lead through a, b. */
  lemma CompsOfSpelling(head: string, cs: seq<string>)
    requires AllNames(cs) && (head == "" || head == ".")
    ensures Comps(head + Spell(cs)) == cs
  {
    SplitNames(head, cs);
    SignificantNames(cs);
    assert ([head] + cs)[1..] == cs;
  }

  lemma CompsAfterSlash(path: string)
    ensures Comps("/" + path) == Comps(path)
  {
    assert ("/" + path)[1..] == path;
    assert Split("/" + path, '/')[1..] == Split(path, '/');
  }

  lemma {:induction false} SpellAppend(cs: seq<string>, n: string)
    ensures Spell(cs + [n]) == Spell(cs) + "/" + n
  {
    if cs == [] {
      assert cs + [n] == [n];
      assert Spell([n]) == "/" + n + Spell([]);
    } else {
      assert (cs + [n])[1..] == cs[1..] + [n];
      SpellAppend(cs[1..], n);
    }
  }

  /* ---- _resolve_path and _canonical ---- */

  function Resolve(path: string, micropython: bool): string {
    if !micropython || (path != "" && path[0] == '/') then path else "/" + path
  }

  /** `path.replace("/./", "/")`: left to right, no match overlaps another. */
  function ReplaceDot(s: string): string {
    if |s| >= 3 && s[0] == '/' && s[1] == '.' && s[2] == '/' then "/" + ReplaceDot(s[3..])
    else if s == "" then ""
    else [s[0]] + ReplaceDot(s[1..])
  }

  function Canonical(path: string): string {
    var p := ReplaceDot(path);
    var q := if |p| >= 2 && p[0] == '.' && p[1] == '/' then p[1..] else p;
    if q != "" && q[0] == '/' then q else "/" + q
  }

  /** A name is never the piece "." in front of a slash. */
  lemma NoDotPiece(n: string, tail: string)
    requires IsName(n)
    ensures var s := n + tail; |s| >= 2 && s[0] == '.' ==> s[1] != '/' || |n| < 2
    ensures |n| < 2 ==> n[0] != '.'
  {
    if |n| >= 2 { assert n[1] in n; }
  }

  lemma PlainHead(a: char, tail: string)
    requires a != '/'
    ensures ReplaceDot([a] + tail) == [a] + ReplaceDot(tail)
  {
    assert ([a] + tail)[1..] == tail;
  }

  lemma SlashHead(tail: string)
    requires |tail| < 2 || tail[0] != '.' || tail[1] != '/'
    ensures ReplaceDot("/" + tail) == "/" + ReplaceDot(tail)
  {
    var s := "/" + tail;
    assert s[1..] == tail;
    assert |tail| >= 2 ==> s[1] == tail[0] && s[2] == tail[1];
  }

  lemma {:induction false} NothingToReplace(c: string, rest: seq<string>)
    requires '/' !in c && AllNames(rest)
    ensures ReplaceDot(c + Spell(rest)) == c + Spell(rest)
    decreases |rest|, |c|
  {
    hide ReplaceDot;
    if c != "" {
      NothingToReplace(c[1..], rest);
      PlainHead(c[0], c[1..] + Spell(rest));
      assert c + Spell(rest) == [c[0]] + (c[1..] + Spell(rest));
    } else if rest != [] {
      var n, tail := rest[0], Spell(rest[1..]);
      assert IsName(n);
      NoDotPiece(n, tail);
      NothingToReplace(n, rest[1..]);
      SlashHead(n + tail);
      assert c + Spell(rest) == "/" + (n + tail);
    } else {
      NothingReplaced();
    }
  }

  lemma NothingReplaced()
    ensures ReplaceDot("") == ""
  {}

  /** The spellings that the journal, the directory walk and the host use for
      one file. */
  datatype Spelling = Absolute | Dotted | AbsoluteDotted | Bare

  function SpellAs(sp: Spelling, cs: seq<string>): string
    requires cs != []
  {
    match sp
    case Absolute => Spell(cs)
    case Dotted => "." + Spell(cs)
    case AbsoluteDotted => "/." + Spell(cs)
    case Bare => cs[0] + Spell(cs[1..])
  }

  lemma CanonicalAbsolute(cs: seq<string>)
    requires AllNames(cs) && cs != []
    ensures Canonical(Spell(cs)) == Spell(cs)
  {
    NothingToReplace("", cs);
    assert "" + Spell(cs) == Spell(cs);
  }

  lemma CanonicalDotted(cs: seq<string>)
    requires AllNames(cs) && cs != []
    ensures Canonical("." + Spell(cs)) == Spell(cs)
  {
    NothingToReplace(".", cs);
    assert ("." + Spell(cs))[1..] == Spell(cs);
  }

  lemma RootedStays(x: string)
    requires ReplaceDot(x) == x
    ensures Canonical("/./" + x) == "/" + x
  {
  }

  lemma SpellHead(cs: seq<string>)
    requires cs != []
    ensures Spell(cs) == "/" + (cs[0] + Spell(cs[1..]))
  {
    var n, tail := cs[0], Spell(cs[1..]);
    assert "/" + n + tail == "/" + (n + tail);
  }

  lemma DotInFront(x: string)
    ensures "/." + ("/" + x) == "/./" + x
  {}

  lemma CanonicalAbsoluteDotted(cs: seq<string>)
    requires AllNames(cs) && cs != []
    ensures Canonical("/." + Spell(cs)) == Spell(cs)
  {
    assert IsName(cs[0]) && AllNames(cs[1..]);
    hide *;
    var x := cs[0] + Spell(cs[1..]);
    NothingToReplace(cs[0], cs[1..]);
    RootedStays(x);
    SpellHead(cs);
    DotInFront(x);
  }

  lemma CanonicalBare(cs: seq<string>)
    requires AllNames(cs) && cs != []
    ensures Canonical(cs[0] + Spell(cs[1..])) == Spell(cs)
  {
    assert IsName(cs[0]) && cs[0] != "" && AllNames(cs[1..]);
    hide *;
    NothingToReplace(cs[0], cs[1..]);
    SpellHead(cs);
  }

  /** All of them have the same canonical form: the absolute spelling. */
  lemma CanonicalSpellings(sp: Spelling, cs: seq<string>)
    requires AllNames(cs) && cs != []
    ensures Canonical(SpellAs(sp, cs)) == Spell(cs)
  {
    hide Canonical, Spell, AllNames;
    match sp
    case Absolute => CanonicalAbsolute(cs);
    case Dotted => CanonicalDotted(cs);
    case AbsoluteDotted => CanonicalAbsoluteDotted(cs);
    case Bare => CanonicalBare(cs);
  }

  lemma DoubleDotLocated()
    ensures Locate("/././m.bck") == "/m.bck"
  {
    assert Spell([]) == "" && Spell(["m.bck"]) == "/m.bck";
    CompsOfSpelling(".", ["m.bck"]);
    var rest := "." + Spell(["m.bck"]);
    SplitHead(".", '/', rest);
    var s := "." + ['/'] + rest;
    assert ([ "." ] + Split(rest, '/'))[1..] == Split(rest, '/');
    assert Comps(s) == Comps(rest);
    CompsAfterSlash(s);
    assert "/" + s == "/././m.bck";
  }

  /** One more "/./" than `_canonical` sees: it is the same file, but not the
      same canonical form. */
  lemma CanonicalIsNotNormal()
    ensures Canonical("/././m.bck") != Locate("/././m.bck")
  {
    DoubleDotLocated();
  }

  /* ---- where a staged file lands ---- */

  lemma {:induction false} PiecesAreNames(path: string)
    ensures AllNames(Comps(path))
  {
    SplitPieces(path, '/');
    SignificantAreNames(Split(path, '/'));
  }

  lemma {:induction false} SignificantAreNames(pieces: seq<string>)
    requires forall p | p in pieces :: '/' !in p
    ensures AllNames(Significant(pieces))
  {
    if pieces != [] {
      assert pieces[0] in pieces;
      SignificantAreNames(pieces[1..]);
    }
  }

  function LastOf(pieces: seq<string>): string
    requires pieces != []
  {
    pieces[|pieces| - 1]
  }

  /** The last piece keeps the text's suffix. */
  lemma {:induction false} SplitSuffix(s: string, suffix: string, sep: char)
    requires sep !in suffix
    ensures EndsWith(LastOf(Split(s + suffix, sep)), suffix)
  {
    var t := s + suffix;
    if s == "" {
      SplitWhole(suffix, sep);
      assert t == suffix;
    } else {
      assert t[0] == s[0] && t[1..] == s[1..] + suffix;
      hide Split, EndsWith, LastOf;
      SplitSuffix(s[1..], suffix, sep);
    }
  }

  lemma {:induction false} SignificantLast(pieces: seq<string>, last: string)
    requires last != "" && last != "."
    ensures Significant(pieces + [last]) == Significant(pieces) + [last]
  {
    if pieces == [] {
      assert pieces + [last] == [last];
    } else {
      assert (pieces + [last])[1..] == pieces[1..] + [last];
      SignificantLast(pieces[1..], last);
    }
  }

  /** However its target is spelled, a staged file lands on a `.ota` name. */
  lemma StagedLandsOnOta(target: Path)
    ensures IsOta(Locate(Ota(target))) && Comps(Ota(target)) != []
  {
    var b := Split(Ota(target), '/');
    var init, last := b[..|b| - 1], LastOf(b);
    assert b == init + [last];
    SplitSuffix(target, OTA, '/');
    assert Ota(target) == target + OTA;
    SignificantLast(init, last);
    SpelledSuffix(Significant(init), last);
  }

  lemma SpelledSuffix(cs: seq<string>, last: string)
    requires IsOta(last)
    ensures IsOta(Spell(cs + [last]))
  {
    SpellAppend(cs, last);
    var p := Spell(cs + [last]);
    assert p[|p| - 4..] == last[|last| - 4..];
  }

  /** Locating is idempotent. */
  lemma LocateAgain(path: string)
    ensures Comps(Locate(path)) == Comps(path) && Locate(Locate(path)) == Locate(path)
  {
    PiecesAreNames(path);
    CompsOfSpelling("", Comps(path));
    assert "" + Locate(path) == Locate(path);
  }

  /** A path from the host becomes absolute on MicroPython, where there is no working
      directory to rely on, and stays as it is elsewhere; it names the same file. */
  lemma ResolveMeans(path: string, micropython: bool)
    ensures var r := Resolve(path, micropython);
            && Locate(r) == Locate(path) && Resolve(r, micropython) == r
            && (if micropython then r != "" && r[0] == '/' && (r == path || r == "/" + path) else r == path)
  {
    CompsAfterSlash(path);
    hide Comps, Spell;
  }
}
