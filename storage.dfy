// The browser's origin-private file system as the peer provider sees it: a
// map from paths (lists of names) to files and directories. Only paths whose
// every ancestor is a directory are visible; the root always exists.
module BrowserStorage {
  import opened Wrappers
  import opened DokanTypes
  import Text

  type Path = seq<string>

  /** A file's bytes and its lastModified stamp (Unix milliseconds), or a directory. */
  datatype Node = File(data: seq<byte>, lastModified: int) | Directory

  type Storage = map<Path, Node>

  /** The path a provider-side name denotes: its '/'-separated non-empty segments. */
  function PathOf(name: string): Path
  {
    Text.Split(name, '/')
  }

  function Parent(p: Path): Path
    requires p != []
  {
    p[..|p| - 1]
  }

  predicate IsPrefix(p: Path, q: Path)
  {
    |p| <= |q| && q[..|p|] == p
  }

  /** Every proper ancestor of `p` (other than the root) is a directory. */
  predicate Reachable(st: Storage, p: Path)
  {
    forall i :: 0 < i < |p| ==> p[..i] in st && st[p[..i]].Directory?
  }

  /** GetPathHandle: the entry at `p`, if it can be reached. */
  function Lookup(st: Storage, p: Path): (r: Option<Node>)
    ensures p == [] ==> r == Some(Directory)
    ensures p != [] && r.Some? ==> p in st && r.value == st[p] && Reachable(st, p)
  {
    if p == [] then Some(Directory)
    else if p in st && Reachable(st, p) then Some(st[p])
    else None
  }

  /** A visible entry's parent is a visible directory. */
  lemma VisibleParent(st: Storage, p: Path)
    requires p != [] && Lookup(st, p).Some?
    ensures Lookup(st, Parent(p)) == Some(Directory)
  {
    var pp := Parent(p);
    if pp != [] {
      assert p[..|p| - 1] == pp;
      forall i | 0 < i < |pp| ensures pp[..i] in st && st[pp[..i]].Directory? {
        assert pp[..i] == p[..i];
      }
    }
  }

  /** The names directly inside `p`. */
  function Children(st: Storage, p: Path): set<string>
  {
    set q | q in st && |q| == |p| + 1 && q[..|p|] == p :: q[|p|]
  }

  function SubDirectories(st: Storage, p: Path): set<string>
  {
    set n | n in Children(st, p) && p + [n] in st && st[p + [n]] == Directory
  }

  function SubFiles(st: Storage, p: Path): set<string>
  {
    set n | n in Children(st, p) && p + [n] in st && st[p + [n]].File?
  }

  lemma ChildKey(st: Storage, p: Path, n: string)
    requires n in Children(st, p)
    ensures p + [n] in st
  {
    var q :| q in st && |q| == |p| + 1 && q[..|p|] == p && q[|p|] == n;
    assert q == p + [n];
  }

  /** The children of a reachable directory are themselves reachable. */
  lemma ChildLookup(st: Storage, p: Path, n: string)
    requires Lookup(st, p) == Some(Directory)
    requires p + [n] in st
    ensures Lookup(st, p + [n]) == Some(st[p + [n]])
  {
    var q := p + [n];
    forall i | 0 < i < |q| ensures q[..i] in st && st[q[..i]].Directory? {
      if i == |p| {
        assert q[..i] == p;
      } else {
        assert q[..i] == p[..i];
      }
    }
  }

  /** A storage that keeps every existing entry shows every visible entry unchanged. */
  lemma ExtensionKeepsLookups(st: Storage, st': Storage)
    requires forall q :: q in st ==> q in st' && st'[q] == st[q]
    ensures forall q :: Lookup(st, q).Some? ==> Lookup(st', q) == Lookup(st, q)
  {
  }

  /**
   * Writing a whole file (create, or replace the content): the parent must be
   * a visible directory and the path must not be one.
   */
  function WriteFile(st: Storage, p: Path, data: seq<byte>, now: int): (r: Option<Storage>)
    ensures r.Some? <==> p != [] && Lookup(st, Parent(p)) == Some(Directory) && Lookup(st, p) != Some(Directory)
    ensures r.Some? ==> Lookup(r.value, p) == Some(File(data, now))
    ensures r.Some? ==> forall q :: q != p ==> Lookup(r.value, q) == Lookup(st, q)
  {
    if p != [] && Lookup(st, Parent(p)) == Some(Directory) && Lookup(st, p) != Some(Directory) then
      var st' := st[p := File(data, now)];
      WriteKeepsOthers(st, p, data, now);
      Some(st')
    else None
  }

  lemma WriteKeepsOthers(st: Storage, p: Path, data: seq<byte>, now: int)
    requires p != [] && Lookup(st, Parent(p)) == Some(Directory) && Lookup(st, p) != Some(Directory)
    ensures Lookup(st[p := File(data, now)], p) == Some(File(data, now))
    ensures forall q :: q != p ==> Lookup(st[p := File(data, now)], q) == Lookup(st, q)
  {
    var st' := st[p := File(data, now)];
    assert Reachable(st', p) by {
      forall i | 0 < i < |p| ensures p[..i] in st' && st'[p[..i]].Directory? {
        if i == |p| - 1 {
          assert p[..i] == Parent(p);
        } else {
          assert p[..i] == Parent(p)[..i];
        }
      }
    }
    assert Reachable(st, p) by {
      forall i | 0 < i < |p| ensures p[..i] in st && st[p[..i]].Directory? {
        if i == |p| - 1 {
          assert p[..i] == Parent(p);
        } else {
          assert p[..i] == Parent(p)[..i];
        }
      }
    }
    assert !(p in st && st[p].Directory?);
    forall q: Path, i: int | 0 < i < |q|
      ensures (q[..i] in st' && st'[q[..i]].Directory?) == (q[..i] in st && st[q[..i]].Directory?)
    {
    }
  }

  /** CreatePathDirectory: every missing ancestor and the path itself become directories. */
  function MakeDirectories(st: Storage, p: Path): (r: Option<Storage>)
    ensures r.Some? ==> Lookup(r.value, p) == Some(Directory)
    ensures r.Some? ==> forall q :: q in st ==> q in r.value && r.value[q] == st[q]
    ensures r.Some? ==> forall q :: q in r.value && q !in st ==> r.value[q] == Directory && IsPrefix(q, p)
    decreases |p|
  {
    if p == [] then Some(st)
    else
      match MakeDirectories(st, Parent(p))
      case None => None
      case Some(st1) =>
        if p in st1 && st1[p].File? then None
        else
          var st2 := if p in st1 then st1 else st1[p := Directory];
          assert Lookup(st2, p) == Some(Directory) by {
            forall i | 0 < i < |p| ensures p[..i] in st2 && st2[p[..i]].Directory? {
              if i == |p| - 1 {
                assert p[..i] == Parent(p);
              } else {
                assert p[..i] == Parent(p)[..i];
              }
            }
          }
          assert forall q :: q in st2 && q !in st ==> IsPrefix(q, p) by {
            forall q | q in st2 && q !in st ensures IsPrefix(q, p) {
              if q != p {
                assert IsPrefix(q, Parent(p));
              }
            }
          }
          Some(st2)
  }

  /** Creating directories never replaces anything visible. */
  lemma MakeDirectoriesKeeps(st: Storage, p: Path)
    requires MakeDirectories(st, p).Some?
    ensures forall q :: Lookup(st, q).Some? ==> Lookup(MakeDirectories(st, p).value, q) == Lookup(st, q)
  {
    ExtensionKeepsLookups(st, MakeDirectories(st, p).value);
  }

  /**
   * RemovePath: the root cannot be removed, a missing path fails, and a
   * non-empty directory is removed only recursively; the entry and everything
   * below it go.
   */
  function RemovePath(st: Storage, p: Path, recursive: bool): (r: Option<Storage>)
    ensures r.Some? <==>
      (p != [] && Lookup(st, p).Some? && (recursive || Lookup(st, p).value.File? || Children(st, p) == {}))
    ensures r.Some? ==> Lookup(r.value, p) == None
    ensures r.Some? ==> forall q :: q in r.value <==> q in st && !IsPrefix(p, q)
    ensures r.Some? ==> forall q :: q in r.value ==> r.value[q] == st[q]
  {
    if p == [] || Lookup(st, p).None? then None
    else if !recursive && Lookup(st, p).value.Directory? && Children(st, p) != {} then None
    else
      Some(map q | q in st && !IsPrefix(p, q) :: st[q])
  }

  /** Removal keeps every visible entry that is not the removed one or below it. */
  lemma RemoveKeepsOthers(st: Storage, p: Path, recursive: bool, q: Path)
    requires RemovePath(st, p, recursive).Some?
    requires !IsPrefix(p, q)
    ensures Lookup(RemovePath(st, p, recursive).value, q) == Lookup(st, q)
  {
    var st' := RemovePath(st, p, recursive).value;
    if q != [] && q in st && Reachable(st, q) {
      forall i | 0 < i < |q| ensures q[..i] in st' {
        assert !IsPrefix(p, q[..i]);
      }
    }
  }

  /** Nothing at or below a removed path stays visible. */
  lemma RemoveClearsBelow(st: Storage, p: Path, recursive: bool, q: Path)
    requires RemovePath(st, p, recursive).Some?
    requires IsPrefix(p, q)
    ensures Lookup(RemovePath(st, p, recursive).value, q) == None
  {
  }
}
