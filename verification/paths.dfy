/**
  An abstract, single-user filesystem and the two `pathlib` operations the
  project scripts rely on: joining path components and `mkdir(parents=True,
  exist_ok=True)`. A path is a sequence of segment names; the filesystem is
  the set of paths that exist together with the text contents of the files
  among them.
 */
module Paths {

  type Path = seq<string>

  /** Components that `pathlib` drops when it joins: the empty string and ".". */
  predicate Ignorable(s: string) {
    s == "" || s == "."
  }

  /** The components of `parts` that survive a `pathlib` join, in order. */
  function Segments(parts: seq<string>): (r: Path)
    ensures |r| <= |parts|
    ensures forall k | 0 <= k < |r| :: !Ignorable(r[k])
    ensures (forall k | 0 <= k < |parts| :: !Ignorable(parts[k])) ==> r == parts
  {
    if |parts| == 0 then []
    else if Ignorable(parts[0]) then Segments(parts[1..])
    else [parts[0]] + Segments(parts[1..])
  }

  /** `root.joinpath(*parts)` (and `root / part` for a single part). */
  function Join(root: Path, parts: seq<string>): Path {
    root + Segments(parts)
  }

  /** Filtering distributes over concatenation of the parts. */
  lemma {:induction false} SegmentsAppend(a: seq<string>, b: seq<string>)
    ensures Segments(a + b) == Segments(a) + Segments(b)
    decreases |a|
  {
    if |a| == 0 {
      assert a + b == b;
    } else {
      assert (a + b)[0] == a[0];
      assert (a + b)[1..] == a[1..] + b;
      SegmentsAppend(a[1..], b);
    }
  }

  /** Joining in two steps is joining the concatenated parts in one step. */
  lemma JoinJoin(root: Path, a: seq<string>, b: seq<string>)
    ensures Join(Join(root, a), b) == Join(root, a + b)
  {
    SegmentsAppend(a, b);
  }

  /**
    A single component survives the join exactly when it is plain. With
    `SegmentsAppend` this determines `Segments` on every input: the plain
    parts, all of them, in order.
   */
  lemma SegmentsSingleton(x: string)
    ensures Segments([x]) == (if Ignorable(x) then [] else [x])
  {
    assert [x][1..] == [];
  }

  /** A plain first component survives the join. */
  lemma SegmentsCons(name: string, parts: seq<string>)
    requires !Ignorable(name)
    ensures Segments([name] + parts) == [name] + Segments(parts)
  {
    assert ([name] + parts)[1..] == parts;
  }

  /** Joining a plain name appends exactly that segment. */
  lemma JoinPlain(root: Path, name: string)
    requires !Ignorable(name)
    ensures Join(root, [name]) == root + [name]
  {
  }

  /** Every non-empty prefix of `p`: the directories that `mkdir -p p` makes exist. */
  function Prefixes(p: Path): set<Path> {
    set k | 1 <= k <= |p| :: p[..k]
  }

  function Parent(p: Path): Path
    requires |p| > 0
  {
    p[..|p| - 1]
  }

  lemma PrefixesSnoc(p: Path)
    requires |p| > 0
    ensures Prefixes(p) == Prefixes(Parent(p)) + {p}
  {
    var q := Parent(p);
    forall x | x in Prefixes(p)
      ensures x in Prefixes(q) + {p}
    {
      var k :| 1 <= k <= |p| && x == p[..k];
      if k < |p| {
        assert x == q[..k];
      } else {
        assert x == p;
      }
    }
    forall x | x in Prefixes(q) + {p}
      ensures x in Prefixes(p)
    {
      if x != p {
        var k :| 1 <= k <= |q| && x == q[..k];
        assert x == p[..k];
      } else {
        assert x == p[..|p|];
      }
    }
  }

  /** Paths that exist, and the contents of the regular files among them. */
  datatype FileSystem = FileSystem(paths: set<Path>, files: map<Path, string>)

  /** The empty relative path is the current directory, which always exists. */
  predicate Exists(fs: FileSystem, p: Path) {
    p == [] || p in fs.paths
  }

  /** A filesystem is a tree: every existing path's parent exists, and every file exists. */
  predicate WellFormed(fs: FileSystem) {
    && (forall q {:trigger Parent(q)} | q in fs.paths && |q| > 1 :: Parent(q) in fs.paths)
    && (forall q | q in fs.files :: q in fs.paths)
  }

  /** In a tree every ancestor of an existing path exists too. */
  lemma {:induction false} AncestorsExist(fs: FileSystem, p: Path)
    requires WellFormed(fs)
    requires Exists(fs, p)
    ensures Prefixes(p) <= fs.paths
    decreases |p|
  {
    if |p| > 0 {
      PrefixesSnoc(p);
      if |p| > 1 {
        AncestorsExist(fs, Parent(p));
      } else {
        assert Prefixes(Parent(p)) == {};
      }
    }
  }

  /**
    `p.mkdir(parents=True, exist_ok=True)`: nothing happens when `p` exists;
    otherwise the parent is made (recursively) and then `p` itself.
   */
  function MkdirParents(fs: FileSystem, p: Path): (r: FileSystem)
    requires WellFormed(fs)
    ensures WellFormed(r)
    ensures Exists(r, p)
    ensures r.paths == fs.paths + Prefixes(p)
    ensures r.files == fs.files
    ensures Exists(fs, p) ==> r == fs
    decreases |p|
  {
    if Exists(fs, p) then
      AncestorsExist(fs, p);
      fs
    else
      var made := MkdirParents(fs, Parent(p));
      PrefixesSnoc(p);
      made.(paths := made.paths + {p})
  }

  /** `p.write_text(text)`: creates or overwrites the file `p`; its directory must exist. */
  function WriteText(fs: FileSystem, p: Path, text: string): (r: FileSystem)
    requires WellFormed(fs)
    requires |p| > 0 && Exists(fs, Parent(p))
    ensures WellFormed(r)
    ensures r.paths == fs.paths + {p}
    ensures p in r.files && r.files[p] == text
    ensures forall q | q in fs.files && q != p :: q in r.files && r.files[q] == fs.files[q]
    ensures r.files.Keys == fs.files.Keys + {p}
  {
    FileSystem(fs.paths + {p}, fs.files[p := text])
  }

  /** Making the same directory twice is the same as making it once. */
  lemma MkdirParentsIdempotent(fs: FileSystem, p: Path)
    requires WellFormed(fs)
    ensures MkdirParents(MkdirParents(fs, p), p) == MkdirParents(fs, p)
  {
  }
}
