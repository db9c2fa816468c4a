/** The recursive sweep of orphaned `.ota` and `.bck` files. */
module Sweep {
  import opened Text
  import opened Disks
  import opened Names
  import opened Paths
  import opened Journals
  import opened Restore

  /** Every file is filed under its absolute spelling, and no file is a directory. */
  ghost predicate Tree(files: Files) {
    && (forall k | k in files :: k == Spell(Comps(k)) && AllNames(Comps(k)) && Comps(k) != [])
    && (forall k, l {:trigger Comps(k), Comps(l)} | k in files && l in files :: !(Comps(k) < Comps(l)))
  }

  /** Names that can all be files at once: absolute, and none is another's directory. */
  ghost predicate Flat(ps: set<Path>) { Tree(map p | p in ps :: "") }

  lemma FlatFewer(ps: set<Path>, qs: set<Path>)
    requires Flat(ps) && qs <= ps
    ensures Flat(qs)
  {
    assert forall p | p in qs :: p in ps;
  }

  lemma FlatTree(files: Files)
    requires Flat(files.Keys)
    ensures Tree(files)
  {
    assert forall p | p in files :: p in files.Keys;
  }

  /** Directories are what lies above some file. */
  predicate IsDir(files: Files, cs: seq<string>) { exists k | k in files :: cs < Comps(k) }

  /** The retained copies that the journal still refers to, in canonical form. */
  function KeptBackups(files: Files, journal: Path): set<Path> {
    set p | p in ReadJournal(files, journal).paths :: Canonical(Bck(p))
  }

  predicate Orphan(k: Path, kept: set<Path>) { IsOta(k) || (IsBck(k) && k !in kept) }

  /** Only orphans below `dir` have gone. */
  ghost predicate Partly(was: Files, now: Files, dir: seq<string>, kept: set<Path>) {
    && (forall k | k in now :: k in was && now[k] == was[k])
    && (forall k | k in was && k !in now :: dir < Comps(k) && Orphan(k, kept))
  }

  /** All of them have gone. */
  ghost predicate NoneLeft(now: Files, dir: seq<string>, kept: set<Path>) {
    forall k | k in now && dir < Comps(k) :: !Orphan(k, kept)
  }

  ghost predicate Shallow(files: Files, height: nat) { forall k | k in files :: |Comps(k)| <= height }

  ghost function Height(files: Files): (h: nat)
    ensures Shallow(files, h)
  {
    if files == map[] then 0 else
    var k :| k in files;
    var rest := Height(files - {k});
    if |Comps(k)| > rest then |Comps(k)| else rest
  }

  lemma TreeShrinks(was: Files, now: Files, height: nat)
    requires Tree(was) && Shallow(was, height) && forall k | k in now :: k in was && now[k] == was[k]
    ensures Tree(now) && Shallow(now, height)
  {}

  /* ---- the names in a directory ---- */

  predicate Entry(files: Files, dir: seq<string>, n: string) {
    exists k | k in files :: dir < Comps(k) && Comps(k)[|dir|] == n
  }

  /** `os.listdir`: the names below `dir`, in some order. */
  method ListDir(fs: FileSystem, dir: seq<string>) returns (names: seq<string>)
    ensures forall n :: n in names <==> Entry(fs.disk.files, dir, n)
  {
    names := [];
    var todo := fs.disk.files.Keys;
    while todo != {}
      invariant todo <= fs.disk.files.Keys
      invariant forall n | n in names :: Entry(fs.disk.files, dir, n)
      invariant forall k | k in fs.disk.files && k !in todo && dir < Comps(k) :: Comps(k)[|dir|] in names
      decreases todo
    {
      var k :| k in todo;
      todo := todo - {k};
      if dir < Comps(k) && Comps(k)[|dir|] !in names { names := names + [Comps(k)[|dir|]]; }
    }
  }

  /* ---- the spelling of an entry ---- */

  lemma ItemSpelling(dir: seq<string>, n: string, micropython: bool)
    requires AllNames(dir) && IsName(n)
    ensures var item := "." + Spell(dir) + "/" + n;
            && item == "." + Spell(dir + [n])
            && Comps(Resolve(item, micropython)) == dir + [n]
            && Canonical(Resolve(item, micropython)) == Spell(dir + [n])
  {
    var cs := dir + [n];
    SpellAppend(dir, n);
    var item := "." + Spell(dir) + "/" + n;
    assert item == "." + Spell(cs);
    CompsOfSpelling(".", cs);
    CanonicalSpellings(Dotted, cs);
    if micropython {
      CompsAfterSlash(item);
      CanonicalSpellings(AbsoluteDotted, cs);
      assert "/" + item == "/." + Spell(cs);
    }
  }

  /** A suffix of the entry's name is a suffix of its path. */
  lemma ItemSuffix(dir: seq<string>, n: string)
    requires IsName(n)
    ensures EndsWith(n, OTA) <==> IsOta(Spell(dir + [n]))
    ensures EndsWith(n, BCK) <==> IsBck(Spell(dir + [n]))
  {
    SpellAppend(dir, n);
    var a, p := Spell(dir) + "/", Spell(dir + [n]);
    assert p == a + n;
    if |n| >= 4 {
      assert p[|p| - 4..] == n[|n| - 4..];
    } else if |p| >= 4 {
      assert p[|a| - 1] == '/';
      assert p[|p| - 4..][|a| - 1 - (|p| - 4)] == '/';
    }
  }

  /* ---- the walk ---- */

  /** One entry that is a file: removed when its name says so. */
  method SweepFile(fs: FileSystem, n: string, resolved: string, kept: set<Path>, ghost dir: seq<string>)
    requires IsName(n) && Comps(resolved) == dir + [n] && Canonical(resolved) == Spell(dir + [n])
    modifies fs
    ensures fs.disk == if Orphan(Spell(dir + [n]), kept) then Removed(old(fs.disk), Spell(dir + [n])) else old(fs.disk)
  {
    ItemSuffix(dir, n);
    if EndsWith(n, OTA) || (EndsWith(n, BCK) && Canonical(resolved) !in kept) {
      fs.Remove(Locate(resolved));
    }
  }

  /** What the loop over the first `i` entries has done. */
  ghost predicate SweptNames(was: Files, now: Files, dir: seq<string>, kept: set<Path>, names: seq<string>, i: nat, done: bool)
    requires i <= |names|
  {
    && Partly(was, now, dir, kept)
    && (done ==> forall k | k in now && dir < Comps(k) && Comps(k)[|dir|] in names[..i] :: !Orphan(k, kept))
  }

  lemma BelowEntry<T>(cs: seq<T>, dir: seq<T>, n: T)
    requires dir < cs && cs[|dir|] == n && cs != dir + [n]
    ensures dir + [n] < cs
  {
    assert cs[..|dir| + 1] == dir + [n];
  }

  lemma AfterDirectory(was: Files, mid: Files, now: Files, dir: seq<string>, kept: set<Path>, names: seq<string>, i: nat, done: bool, done': bool)
    requires i < |names| && SweptNames(was, mid, dir, kept, names, i, done) && (done' ==> done)
    requires Partly(mid, now, dir + [names[i]], kept) && (done' ==> NoneLeft(now, dir + [names[i]], kept))
    requires dir + [names[i]] !in (set k | k in mid :: Comps(k))
    ensures SweptNames(was, now, dir, kept, names, i + 1, done')
  {
    var n := names[i];
    forall k | done' && k in now && dir < Comps(k) && Comps(k)[|dir|] in names[..i + 1] ensures !Orphan(k, kept) {
      if Comps(k)[|dir|] !in names[..i] { BelowEntry(Comps(k), dir, n); }
    }
  }

  /** An entry that is no directory is the file of that name. */
  lemma FileEntry(files: Files, k: Path, dir: seq<string>, n: string)
    requires Tree(files) && k in files && dir < Comps(k) && Comps(k)[|dir|] == n && !IsDir(files, dir + [n])
    ensures k == Spell(dir + [n])
  {
    if Comps(k) != dir + [n] { BelowEntry(Comps(k), dir, n); }
  }

  lemma AfterFile(was: Files, mid: Files, now: Files, dir: seq<string>, kept: set<Path>, names: seq<string>, i: nat, done: bool, done': bool)
    requires i < |names| && SweptNames(was, mid, dir, kept, names, i, done) && (done' ==> done)
    requires AllNames(dir) && IsName(names[i])
    requires var k := Spell(dir + [names[i]]); now == mid || (Orphan(k, kept) && now == mid - {k})
    requires done' ==> Spell(dir + [names[i]]) !in now || !Orphan(Spell(dir + [names[i]]), kept)
    requires !IsDir(mid, dir + [names[i]]) && Tree(mid)
    ensures SweptNames(was, now, dir, kept, names, i + 1, done')
  {
    var child := dir + [names[i]];
    CompsOfSpelling("", child);
    assert "" + Spell(child) == Spell(child);
    forall k | done' && k in now && dir < Comps(k) && Comps(k)[|dir|] in names[..i + 1] ensures !Orphan(k, kept) {
      if Comps(k)[|dir|] !in names[..i] { FileEntry(mid, k, dir, names[i]); }
    }
  }

  method SweepDir(fs: FileSystem, path: string, kept: set<Path>, micropython: bool, ghost dir: seq<string>, ghost height: nat)
    requires path == "." + Spell(dir) && AllNames(dir) && Tree(fs.disk.files) && Shallow(fs.disk.files, height) && |dir| <= height
    modifies fs
    ensures Partly(old(fs.disk.files), fs.disk.files, dir, kept) && fs.disk.power <= old(fs.disk.power)
    ensures fs.disk.Alive() ==> NoneLeft(fs.disk.files, dir, kept)
    ensures fs.disk.renames == old(fs.disk.renames) && fs.disk.bad == old(fs.disk.bad) && fs.disk.clashes == old(fs.disk.clashes)
    decreases height - |dir|
  {
    ghost var was := fs.disk.files;
    CompsOfSpelling(".", dir);
    var names := ListDir(fs, Comps(path));
    forall n | n in names ensures IsName(n) && |dir| < height {
      var k :| k in was && dir < Comps(k) && Comps(k)[|dir|] == n;
    }
    var i := 0;
    while i < |names|
      invariant 0 <= i <= |names|
      invariant SweptNames(was, fs.disk.files, dir, kept, names, i, fs.disk.Alive())
      invariant fs.disk.power <= old(fs.disk.power)
      invariant fs.disk.renames == old(fs.disk.renames) && fs.disk.bad == old(fs.disk.bad) && fs.disk.clashes == old(fs.disk.clashes)
    {
      ghost var mid, alive := fs.disk.files, fs.disk.Alive();
      TreeShrinks(was, mid, height);
      var n := names[i];
      assert n in names;
      // path.rstrip("/") leaves the path alone: it is "." or ends in a name
      var item := path + "/" + n;
      var resolved := Resolve(item, micropython);
      ItemSpelling(dir, n, micropython);
      if IsDir(fs.disk.files, Comps(resolved)) {
        SweepDir(fs, item, kept, micropython, dir + [n], height);
        DirIsNoFile(mid, dir + [n]);
        AfterDirectory(was, mid, fs.disk.files, dir, kept, names, i, alive, fs.disk.Alive());
      } else {
        if Locate(resolved) in fs.disk.files {
          SweepFile(fs, n, resolved, kept, dir);
        }
        AfterFile(was, mid, fs.disk.files, dir, kept, names, i, alive, fs.disk.Alive());
      }
      i := i + 1;
    }
    forall k | k in fs.disk.files && dir < Comps(k) ensures Comps(k)[|dir|] in names[..i] {
      assert Entry(was, dir, Comps(k)[|dir|]);
    }
  }

  lemma DirIsNoFile(files: Files, cs: seq<string>)
    requires Tree(files) && IsDir(files, cs)
    ensures cs !in (set k | k in files :: Comps(k))
  {}

  /* ---- the whole sweep ---- */

  /** A sweep cut anywhere: only orphans have gone; one that ended: all of them. */
  ghost predicate SweptFrom(was: Disk, now: Disk, journal: Path) {
    var kept := KeptBackups(was.files, journal);
    && Partly(was.files, now.files, [], kept) && now.power <= was.power
    && (now.Alive() ==> NoneLeft(now.files, [], kept))
    && now.renames == was.renames && now.bad == was.bad && now.clashes == was.clashes
  }

  method SweepOrphans(fs: FileSystem, cfg: Config)
    requires Tree(fs.disk.files)
    modifies fs
    ensures SweptFrom(old(fs.disk), fs.disk, cfg.journal)
  {
    var paths := ReadJournal(fs.disk.files, cfg.journal).paths;
    var kept := set p | p in paths :: Canonical(Bck(p));
    assert "." + Spell([]) == ".";
    SweepDir(fs, ".", kept, cfg.micropython, [], Height(fs.disk.files));
  }

  /** After a sweep that ended, a file is left exactly when it is no orphan, with
      the content it had. */
  lemma SweepExact(was: Disk, now: Disk, journal: Path, k: Path)
    requires Tree(was.files) && SweptFrom(was, now, journal) && now.Alive() && k in was.files
    ensures k in now.files <==> !Orphan(k, KeptBackups(was.files, journal))
    ensures k in now.files ==> now.files[k] == was.files[k]
  {
    assert Comps(k) != [] && [] < Comps(k);
  }

  /** A retained copy survives the sweep exactly when its own spelling is the
      canonical form of some journalled copy. */
  lemma RetainedSurvivesIff(was: Disk, now: Disk, journal: Path, p: Path)
    requires Tree(was.files) && SweptFrom(was, now, journal) && now.Alive()
    requires p in ReadJournal(was.files, journal).paths && Locate(Bck(p)) in was.files && IsBck(Locate(Bck(p)))
    ensures Locate(Bck(p)) in now.files
            <==> exists q | q in ReadJournal(was.files, journal).paths :: Canonical(Bck(q)) == Locate(Bck(p))
  {
    var k := Locate(Bck(p));
    SweepExact(was, now, journal, k);
    assert !IsOta(k) by { assert k == Bck(Stem(k)); }
  }

  /** However the journal spells a target, its copy survives every sweep. */
  lemma RetainedSurvives(was: Disk, now: Disk, journal: Path, sp: Spelling, cs: seq<string>, p: Path)
    requires Tree(was.files) && SweptFrom(was, now, journal) && AllNames(cs) && cs != []
    requires p in ReadJournal(was.files, journal).paths && Bck(p) == SpellAs(sp, cs)
    requires Spell(cs) in was.files && IsBck(Spell(cs))
    ensures Spell(cs) in now.files && now.files[Spell(cs)] == was.files[Spell(cs)]
  {
    hide Tree, Canonical, Spell, SpellAs, Comps, ReadJournal, AllNames, IsBck, IsOta, EndsWith;
    CanonicalSpellings(sp, cs);
    assert Spell(cs) in KeptBackups(was.files, journal);
    BckOfStem(Spell(cs));
  }
}
