/** Names of the files that belong to an update target. */
module Names {
  import opened Disks
  import opened Text
  import opened Journals

  const BCK := ".bck"
  const OTA := ".ota"

  function Stem(p: Path): Path {
    if |p| >= 4 then p[..|p| - 4] else ""
  }

  predicate IsBck(p: Path) { EndsWith(p, BCK) }

  predicate IsOta(p: Path) { EndsWith(p, OTA) }

  /** The retained copy of a target. */
  function Bck(p: Path): (b: Path)
    ensures Stem(b) == p && IsBck(b) && !IsOta(b)
  {
    var b := p + BCK;
    assert b[|b| - 1] == 'k';
    b
  }

  /** The staged copy of a target. */
  function Ota(p: Path): (o: Path)
    ensures Stem(o) == p && IsOta(o) && !IsBck(o)
  {
    var o := p + OTA;
    assert o[|o| - 1] == 'a';
    o
  }

  lemma BckOfStem(p: Path)
    requires IsBck(p)
    ensures p == Bck(Stem(p))
  {}

  /** The target names are usable: no target is a retained or staged copy, and
      the journal is neither a target nor one of those copies. */
  predicate Apart(targets: set<Path>, journal: Path) {
    && journal !in targets && !IsBck(journal) && !IsOta(journal)
    && forall t | t in targets :: !IsBck(t) && !IsOta(t) && OneLine(t)
  }
}
