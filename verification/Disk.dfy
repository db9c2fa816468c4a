/** The flash file system under the retain-previous update protocol.

    A disk is a map from path to content together with the power that is left:
    the number of further changes that still reach flash. Every change is one
    atomic step that costs one unit, and once the power is gone nothing changes
    any more. Running a procedure with power `k` therefore leaves exactly the
    disk found by a device that lost its supply after `k` steps, and the next
    boot starts from that disk with fresh power. */
module Disks {
  type Path = string
  type Content = string
  type Files = map<Path, Content>

  /** `bad` names the rename attempts that the medium refuses, `renames` counts
      the attempts, `clashes` those whose destination already existed. */
  datatype Disk = Disk(files: Files, power: nat, renames: nat, bad: set<nat>, clashes: nat) {
    predicate Alive() { power > 0 }

    /** The next boot: the same flash, a fresh supply. */
    function Reboot(k: nat): Disk { this.(power := k) }

    /** No rename still to come is refused by the medium. */
    ghost predicate Sound() { forall n | n in bad :: n < renames }
  }

  /** `os.remove(p)`; an absent file raises, which every caller swallows. */
  function Removed(d: Disk, p: Path): Disk {
    if d.power == 0 || p !in d.files then d
    else d.(files := d.files - {p}, power := d.power - 1)
  }

  /** Does `os.rename(a, b)` succeed? The destination must be absent. */
  predicate CanRename(d: Disk, a: Path, b: Path) {
    d.power > 0 && a in d.files && b !in d.files && d.renames !in d.bad
  }

  function Renamed(d: Disk, a: Path, b: Path): Disk {
    if d.power == 0 then d
    else if CanRename(d, a, b) then
      d.(files := (d.files - {a})[b := d.files[a]], power := d.power - 1, renames := d.renames + 1)
    else d.(renames := d.renames + 1, clashes := d.clashes + if b in d.files then 1 else 0)
  }

  /** Does `os.replace(a, b)` succeed? It may overwrite. */
  predicate CanReplace(d: Disk, a: Path) { d.power > 0 && a in d.files && d.renames !in d.bad }

  function Replaced(d: Disk, a: Path, b: Path): Disk {
    if d.power == 0 then d
    else if CanReplace(d, a) then
      d.(files := (d.files - {a})[b := d.files[a]], power := d.power - 1, renames := d.renames + 1)
    else d.(renames := d.renames + 1)
  }

  /** Open for writing, write, close: committed as a whole. */
  function Written(d: Disk, p: Path, text: Content): Disk {
    if d.power == 0 then d else d.(files := d.files[p := text], power := d.power - 1)
  }

  /** A write that adds to the end of an open file. */
  function Appended(d: Disk, p: Path, text: Content): Disk {
    if d.power == 0 || p !in d.files then d
    else d.(files := d.files[p := d.files[p] + text], power := d.power - 1)
  }

  class FileSystem {
    var disk: Disk

    constructor (d: Disk)
      ensures disk == d
    {
      disk := d;
    }

    method Remove(p: Path)
      modifies this
      ensures disk == Removed(old(disk), p)
    {
      if disk.power > 0 && p in disk.files {
        disk := disk.(files := disk.files - {p}, power := disk.power - 1);
      }
    }

    method Rename(a: Path, b: Path) returns (ok: bool)
      modifies this
      ensures ok == CanRename(old(disk), a, b)
      ensures disk == Renamed(old(disk), a, b)
    {
      ok := CanRename(disk, a, b);
      disk := Renamed(disk, a, b);
    }

    method Replace(a: Path, b: Path) returns (ok: bool)
      modifies this
      ensures ok == CanReplace(old(disk), a)
      ensures disk == Replaced(old(disk), a, b)
    {
      ok := CanReplace(disk, a);
      disk := Replaced(disk, a, b);
    }

    method Write(p: Path, text: Content)
      modifies this
      ensures disk == Written(old(disk), p, text)
    {
      disk := Written(disk, p, text);
    }

    method Append(p: Path, text: Content)
      modifies this
      ensures disk == Appended(old(disk), p, text)
    {
      disk := Appended(disk, p, text);
    }

    method Exists(p: Path) returns (found: bool)
      ensures found == (p in disk.files)
    {
      found := p in disk.files;
    }
  }
}
