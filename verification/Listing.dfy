/** Directory listings: what the device announces and sends for LS, and what the
    host reads out of it. */
module Listing {
  import opened Text
  import Fragments

  datatype Entry = Entry(name: string, isDir: bool)

  function Item(e: Entry): string { e.name + if e.isDir then "/" else "" }

  /** The listing behind its prefix. */
  function Body(entries: seq<Entry>): string {
    if entries == [] then ""
    else if |entries| == 1 then Item(entries[0])
    else Item(entries[0]) + [','] + Body(entries[1..])
  }

  const PREFIX := "LS_OK:"

  /** The parts that the generator yields, one after another. */
  method DirectoryParts(entries: seq<Entry>) returns (parts: seq<string>)
    ensures Fragments.Joined(parts) == PREFIX + Body(entries)
  {
    hide Item, Fragments.Joined;
    parts := [PREFIX];
    Yielded([], PREFIX);
    var i := 0;
    while i < |entries|
      invariant i <= |entries| && Fragments.Joined(parts) == PREFIX + Body(entries[..i])
    {
      BodyGrows(entries[..i], entries[i]);
      assert entries[..i + 1] == entries[..i] + [entries[i]];
      var item, body := Item(entries[i]), Body(entries[..i]);
      if i > 0 {
        Yielded(parts, ",");
        parts := parts + [","];
        Fragments.Regroup(PREFIX, body, ",");
        Fragments.Regroup(PREFIX, body + ",", item);
      } else {
        Fragments.Regroup(PREFIX, body, item);
      }
      Yielded(parts, item);
      parts := parts + [item];
      i := i + 1;
    }
    assert entries[..i] == entries;
  }

  lemma Yielded(parts: seq<string>, part: string)
    ensures Fragments.Joined(parts + [part]) == Fragments.Joined(parts) + part
    ensures Fragments.Joined([]) == "" && [] + [part] == [part] && "" + part == part
  {
    assert (parts + [part])[..|parts|] == parts;
  }

  lemma {:induction false} BodyGrows(entries: seq<Entry>, e: Entry)
    ensures Body(entries + [e]) == if entries == [] then Item(e) else Body(entries) + "," + Item(e)
  {
    if |entries| > 0 {
      BodyGrows(entries[1..], e);
      assert (entries + [e])[1..] == entries[1..] + [e];
    }
  }

  /** The size announced before anything is sent is the size of what is sent. */
  method DirectorySize(entries: seq<Entry>) returns (total: nat)
    ensures total == |PREFIX + Body(entries)|
  {
    total := |PREFIX|;
    var i := 0;
    while i < |entries|
      invariant i <= |entries| && total == |PREFIX| + |Body(entries[..i])|
    {
      BodyGrows(entries[..i], entries[i]);
      assert entries[..i + 1] == entries[..i] + [entries[i]];
      total := total + |Item(entries[i])|;
      if i > 0 { total := total + 1; }
      i := i + 1;
    }
    assert entries[..i] == entries;
  }

  /* ---- CAT ---- */

  /** A file in pieces; the announced size is an upper bound if the file has shrunk. */
  method FileParts(content: string, size: nat) returns (parts: seq<string>)
    ensures Fragments.Joined(parts) == "CAT_OK:" + content[..if size < |content| then size else |content|]
  {
    parts := ["CAT_OK:"];
    assert ["CAT_OK:"][..0] == [];
    var pos, remaining := 0, size;
    while remaining > 0
      invariant remaining >= 0 && pos <= |content| && pos + remaining == size
      invariant Fragments.Joined(parts) == "CAT_OK:" + content[..pos]
    {
      var n := if remaining < Fragments.MAX_FRAGMENT_DATA then remaining else Fragments.MAX_FRAGMENT_DATA;
      var stop := if pos + n < |content| then pos + n else |content|;
      var chunk := content[pos..stop];
      if chunk == "" {
        assert pos == |content| <= size;
        return;
      }
      Yielded(parts, chunk);
      Fragments.Regroup("CAT_OK:", content[..pos], chunk);
      assert content[..pos] + chunk == content[..stop];
      parts := parts + [chunk];
      pos, remaining := stop, remaining - |chunk|;
    }
  }

  /* ---- the host's reader ---- */

  function RStripSlash(s: string): (r: string)
    ensures r == "" || r[|r| - 1] != '/'
    ensures r <= s
  {
    if s != "" && s[|s| - 1] == '/' then RStripSlash(s[..|s| - 1]) else s
  }

  function ReadItem(piece: string): seq<Entry> {
    var item := Strip(piece);
    if item == "" then [] else [Entry(RStripSlash(item), EndsWith(item, "/"))]
  }

  function ReadItems(pieces: seq<string>): seq<Entry> {
    if pieces == [] then [] else ReadItem(pieces[0]) + ReadItems(pieces[1..])
  }

  function Read(body: string): seq<Entry> { ReadItems(Split(body, ',')) }

  method RemoteEntries(body: string) returns (entries: seq<Entry>)
    ensures entries == Read(body)
  {
    var pieces := Split(body, ',');
    entries := [];
    var i := 0;
    while i < |pieces|
      invariant i <= |pieces| && entries + ReadItems(pieces[i..]) == ReadItems(pieces)
    {
      hide RStripSlash, Strip, EndsWith, ReadItems;
      var item := Strip(pieces[i]);
      ItemsFrom(pieces[i], pieces[i + 1..]);
      assert pieces[i..] == [pieces[i]] + pieces[i + 1..];
      RegroupEntries(entries, ReadItem(pieces[i]), ReadItems(pieces[i + 1..]));
      if item != "" { entries := entries + [Entry(RStripSlash(item), EndsWith(item, "/"))]; }
      i := i + 1;
    }
    assert entries + [] == entries;
  }

  lemma RegroupEntries(a: seq<Entry>, b: seq<Entry>, c: seq<Entry>)
    ensures a + b + c == a + (b + c) && a + [] == a
  {}

  /** An entry whose line in the listing can be read back. */
  predicate Legible(e: Entry) {
    Item(e) != "" && Trim(Item(e)) && ',' !in e.name && !EndsWith(e.name, "/")
  }

  /** A directory's line: the slash is the one that was added. */
  lemma DirectoryItem(name: string)
    requires !EndsWith(name, "/")
    ensures RStripSlash(name + "/") == name && EndsWith(name + "/", "/")
  {
    var item := name + "/";
    assert item[..|item| - 1] == name && item[|item| - 1..] == "/";
    NoSlash(name);
  }

  lemma TrimmedStays(s: string)
    requires Trim(s)
    ensures Strip(s) == s
  {}

  lemma NothingMore(s: string)
    ensures s + "" == s
  {}

  lemma LegibleItem(e: Entry)
    requires Legible(e)
    ensures ReadItem(Item(e)) == [e]
  {
    hide Trim, Strip, EndsWith, RStripSlash;
    TrimmedStays(Item(e));
    NothingMore(e.name);
    if e.isDir {
      DirectoryItem(e.name);
    } else {
      NoSlash(e.name);
    }
  }

  lemma NoSlash(name: string)
    requires !EndsWith(name, "/")
    ensures RStripSlash(name) == name
  {
    if name != "" { assert name[|name| - 1..] == [name[|name| - 1]]; }
  }

  lemma LegibleHasNoComma(e: Entry)
    requires Legible(e)
    ensures ',' !in Item(e)
  {}

  lemma {:induction false} LegibleListing(entries: seq<Entry>)
    requires forall e | e in entries :: Legible(e)
    ensures Read(Body(entries)) == entries
  {
    hide Item, Legible, ReadItem, Split;
    if entries == [] {
      NothingListed();
    } else {
      var e, rest := entries[0], entries[1..];
      assert e in entries;
      LegibleItem(e);
      LegibleHasNoComma(e);
      if |entries| == 1 {
        SplitWhole(Item(e), ',');
        OneItem(Item(e));
        assert entries == [e];
      } else {
        assert forall x | x in rest :: x in entries;
        LegibleListing(rest);
        SplitHead(Item(e), ',', Body(rest));
        ItemsFrom(Item(e), Split(Body(rest), ','));
        assert entries == [e] + rest;
      }
    }
  }

  lemma NothingListed()
    ensures Read(Body([])) == []
  {
    assert Split("", ',') == [""];
    OneItem("");
  }

  lemma OneItem(piece: string)
    ensures ReadItems([piece]) == ReadItem(piece)
  {
    assert [piece][1..] == [];
    assert ReadItem(piece) + [] == ReadItem(piece);
  }

  lemma ItemsFrom(piece: string, pieces: seq<string>)
    ensures ReadItems([piece] + pieces) == ReadItem(piece) + ReadItems(pieces)
  {
    assert ([piece] + pieces)[1..] == pieces;
  }

  /** Whatever is read is legible. */
  lemma {:induction false} ReadIsLegible(pieces: seq<string>)
    requires forall p | p in pieces :: ',' !in p
    ensures forall e | e in ReadItems(pieces) :: Legible(e)
  {
    if pieces != [] {
      ReadIsLegible(pieces[1..]);
      assert pieces[0] in pieces;
      ReadItemIsLegible(pieces[0]);
    }
  }

  lemma ReadItemIsLegible(piece: string)
    requires ',' !in piece
    ensures forall e | e in ReadItem(piece) :: Legible(e)
  {
    var item := Strip(piece);
    StripIsPart(piece);
    if item != "" {
      var name := RStripSlash(item);
      var e := Entry(name, EndsWith(item, "/"));
      assert item[|item| - 1..] == [item[|item| - 1]];
      if !e.isDir { assert name == item; }
      if name != "" { assert name[0] == item[0] && name[|name| - 1..] == [name[|name| - 1]]; }
    }
  }

  lemma {:induction false} StripLeftIsPart(s: string)
    ensures forall c | c in StripLeft(s) :: c in s
  {
    if s != "" && IsSpace(s[0]) { StripLeftIsPart(s[1..]); }
  }

  lemma StripIsPart(s: string)
    ensures forall c | c in Strip(s) :: c in s
  {
    StripLeftIsPart(s);
  }

  /** The host recovers names and kinds exactly when every entry is legible: no
      comma and no blank at its ends, no slash at the end of its name. */
  lemma ListingRoundTrip(entries: seq<Entry>)
    ensures Read(Body(entries)) == entries <==> forall e | e in entries :: Legible(e)
  {
    if forall e | e in entries :: Legible(e) {
      LegibleListing(entries);
    } else {
      SplitPieces(Body(entries), ',');
      ReadIsLegible(Split(Body(entries), ','));
    }
  }
}
