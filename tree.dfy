/**
 * The build context as a directory tree, and the reference meaning of the
 * filtered walk of create_filtered_build_context (docker-build-cli.py:111-157):
 * what a top-down os.walk('.') visits, copies, counts and prunes.
 *
 * `Visit` follows the walk's own branches; `AllFiles` and `Kept` are an
 * independent description of which files should end up in the filtered
 * context, and the lemmas below connect the two.
 */
module Tree {
  import opened Wrappers
  import opened Ignore

  type Bytes = seq<bv8>

  /** A directory entry: a regular file with its bytes, or a directory. */
  datatype Node = File(name: string, data: Bytes) | Dir(name: string, children: seq<Node>)

  /** A file of the context: its path relative to the context root, and its bytes. */
  datatype Entry = Entry(path: Path, data: Bytes)

  function Size(n: Node): (r: nat)
    ensures r >= 1
    decreases n, 1
  {
    if n.File? then 1 else 1 + SizeAll(n.children)
  }

  function SizeAll(cs: seq<Node>): nat
    decreases cs, 0
  {
    if cs == [] then 0 else Size(cs[0]) + SizeAll(cs[1..])
  }

  lemma ChildrenSmaller(cs: seq<Node>)
    requires cs != [] && cs[0].Dir?
    ensures SizeAll(cs[0].children) < SizeAll(cs)
  {
    assert Size(cs[0]) == 1 + SizeAll(cs[0].children);
  }

  /**
   * What can go wrong on the local file system: creating the mirror of a
   * directory (`mkdir`, which escapes the per-file handler and aborts the
   * walk) and copying one file (`copy2`, which is caught and skipped).
   */
  datatype Faults = Faults(unwritable: set<Path>, uncopyable: set<Path>)

  /**
   * One run of the walk: the ignore specification, the absolute working
   * directory, the prefix `top` of every path the walk hands to
   * should_ignore_path (os.walk's argument '.' as written) and the local
   * faults.
   */
  datatype Setup = Setup(spec: Option<Matcher>, cwd: seq<string>, top: FsPath, faults: Faults)

  /** The path the walk hands to should_ignore_path for `rel`. */
  function Under(top: FsPath, rel: Path): FsPath {
    FsPath(top.absolute, top.parts + rel)
  }

  function Check(s: Setup, rel: Path): Result<bool, PathError> {
    ShouldIgnorePath(s.spec, Under(s.top, rel), s.cwd)
  }

  /**
   * The intended walk: should_ignore_path receives the absolute working
   * directory joined with each relative path, so `relative_to` succeeds.
   */
  predicate Anchored(s: Setup) {
    s.top == FsPath(true, s.cwd)
  }

  /**
   * What (part of) a walk produced: the files copied into the temporary
   * root, in order; the directories mirrored there; the `ignored_files`
   * count; and whether an exception escaped to the walk's outer handler.
   */
  datatype Out = Out(copied: seq<Entry>, made: seq<Path>, ignored: nat, failed: bool)

  const Empty := Out([], [], 0, false)
  const Abort := Out([], [], 0, true)

  /** Run `a`, then `b` unless `a` raised. */
  function Then(a: Out, b: Out): Out {
    if a.failed then a
    else Out(a.copied + b.copied, a.made + b.made, a.ignored + b.ignored, b.failed)
  }

  lemma ThenFailed(a: Out, b: Out)
    ensures Then(a, b).failed <==> a.failed || b.failed
  {
  }

  lemma ThenAssoc(a: Out, b: Out, c: Out)
    ensures Then(Then(a, b), c) == Then(a, Then(b, c))
  {
    if !a.failed && !b.failed {
      assert (a.copied + b.copied) + c.copied == a.copied + (b.copied + c.copied);
      assert (a.made + b.made) + c.made == a.made + (b.made + c.made);
    }
  }

  /** Number of regular files directly in a directory (`len(files)`). */
  function CountFiles(cs: seq<Node>): nat {
    if cs == [] then 0 else (if cs[0].File? then 1 else 0) + CountFiles(cs[1..])
  }

  /** One iteration of the inner `for file in files` loop. */
  function FileStep(s: Setup, p: Path, c: Node): Out {
    if c.Dir? then Empty
    else
      match Check(s, p + [c.name])
      case Err(_) => Abort
      case Ok(true) => Out([], [], 1, false)
      case Ok(false) =>
        if p + [c.name] in s.faults.uncopyable then Empty
        else Out([Entry(p + [c.name], c.data)], [], 0, false)
  }

  function VisitFiles(s: Setup, p: Path, cs: seq<Node>): Out {
    if cs == [] then Empty else Then(FileStep(s, p, cs[0]), VisitFiles(s, p, cs[1..]))
  }

  /**
   * The iteration for directory `p` (relative to the root) with entries
   * `cs`, followed by the walk of its subdirectories. A directory other
   * than the root that is ignored contributes its immediate files to the
   * ignored count and nothing else (`dirs.clear()`).
   */
  function VisitDir(s: Setup, p: Path, cs: seq<Node>): Out
    decreases SizeAll(cs), 1
  {
    if p != [] && Check(s, p).Err? then Abort
    else if p != [] && Check(s, p) == Ok(true) then Out([], [], CountFiles(cs), false)
    else if p in s.faults.unwritable then Abort
    else Then(Out([], [p], 0, false), Then(VisitFiles(s, p, cs), VisitChildren(s, p, cs)))
  }

  function VisitChildren(s: Setup, p: Path, cs: seq<Node>): Out
    decreases SizeAll(cs), 0
  {
    if cs == [] then Empty
    else if cs[0].Dir? then ChildrenSmaller(cs); Then(VisitDir(s, p + [cs[0].name], cs[0].children), VisitChildren(s, p, cs[1..]))
    else VisitChildren(s, p, cs[1..])
  }

  /** The whole walk of the context root '.' whose entries are `root`. */
  function Walk(s: Setup, root: seq<Node>): Out {
    VisitDir(s, [], root)
  }

  // ---------------------------------------------------------------------
  // The independent description: every file of the tree, and which to keep.

  function FilesHere(p: Path, cs: seq<Node>): seq<Entry> {
    if cs == [] then []
    else (if cs[0].File? then [Entry(p + [cs[0].name], cs[0].data)] else []) + FilesHere(p, cs[1..])
  }

  /** Every regular file under directory `p`, in os.walk's top-down order. */
  function AllFiles(p: Path, cs: seq<Node>): seq<Entry>
    decreases SizeAll(cs), 1
  {
    FilesHere(p, cs) + SubFiles(p, cs)
  }

  function SubFiles(p: Path, cs: seq<Node>): seq<Entry>
    decreases SizeAll(cs), 0
  {
    if cs == [] then []
    else if cs[0].Dir? then ChildrenSmaller(cs); AllFiles(p + [cs[0].name], cs[0].children) + SubFiles(p, cs[1..])
    else SubFiles(p, cs[1..])
  }

  /** No directory strictly above `path` (the root aside) is ignored. */
  predicate AncestorsVisible(spec: Option<Matcher>, path: Path) {
    forall k :: 1 <= k < |path| ==> !Ignored(spec, path[..k])
  }

  /** A file belongs in the filtered context, and its copy succeeds. */
  predicate Kept(spec: Option<Matcher>, uncopyable: set<Path>, path: Path) {
    !Ignored(spec, path) && AncestorsVisible(spec, path) && path !in uncopyable
  }

  function KeptOnly(spec: Option<Matcher>, uncopyable: set<Path>, es: seq<Entry>): (r: seq<Entry>)
    ensures |r| <= |es|
  {
    if es == [] then []
    else (if Kept(spec, uncopyable, es[0].path) then [es[0]] else []) + KeptOnly(spec, uncopyable, es[1..])
  }

  lemma {:induction false} KeptOnlyAppend(spec: Option<Matcher>, u: set<Path>, a: seq<Entry>, b: seq<Entry>)
    ensures KeptOnly(spec, u, a + b) == KeptOnly(spec, u, a) + KeptOnly(spec, u, b)
  {
    if a == [] {
      assert a + b == b;
    } else {
      var h := if Kept(spec, u, a[0].path) then [a[0]] else [];
      assert (a + b)[0] == a[0] && (a + b)[1..] == a[1..] + b;
      assert KeptOnly(spec, u, a + b) == h + KeptOnly(spec, u, a[1..] + b);
      KeptOnlyAppend(spec, u, a[1..], b);
      ConcatAssoc(h, KeptOnly(spec, u, a[1..]), KeptOnly(spec, u, b));
    }
  }

  /** Every file under `p` lies strictly below `p`. */
  lemma {:induction false} AllFilesBelow(p: Path, cs: seq<Node>)
    ensures forall e :: e in AllFiles(p, cs) ==> |e.path| > |p| && e.path[..|p|] == p
    decreases SizeAll(cs), 1
  {
    FilesHereBelow(p, cs);
    SubFilesBelow(p, cs);
  }

  lemma {:induction false} FilesHereBelow(p: Path, cs: seq<Node>)
    ensures forall e :: e in FilesHere(p, cs) ==> |e.path| > |p| && e.path[..|p|] == p
  {
    if cs != [] {
      FilesHereBelow(p, cs[1..]);
      assert (p + [cs[0].name])[..|p|] == p;
    }
  }

  /** A file below a subdirectory of `p` lies at least two levels below `p`. */
  lemma {:induction false} SubFilesBelow(p: Path, cs: seq<Node>)
    ensures forall e :: e in SubFiles(p, cs) ==> |e.path| > |p| + 1 && e.path[..|p|] == p
    decreases SizeAll(cs), 0
  {
    if cs != [] {
      SubFilesBelow(p, cs[1..]);
      if cs[0].Dir? {
        var q := p + [cs[0].name];
        ChildrenSmaller(cs);
        AllFilesBelow(q, cs[0].children);
        forall e | e in AllFiles(q, cs[0].children)
          ensures |e.path| > |p| + 1 && e.path[..|p|] == p
        {
          assert e.path[..|q|][..|p|] == e.path[..|p|];
          assert q[..|p|] == p;
        }
      }
    }
  }

  /** Nothing under an ignored directory is kept. */
  lemma {:induction false} NothingKeptBelowIgnored(spec: Option<Matcher>, u: set<Path>, p: Path, es: seq<Entry>)
    requires p != [] && Ignored(spec, p)
    requires forall e :: e in es ==> |e.path| > |p| && e.path[..|p|] == p
    ensures KeptOnly(spec, u, es) == []
  {
    if es != [] {
      assert es[0].path[..|p|] == p;
      assert !AncestorsVisible(spec, es[0].path);
      NothingKeptBelowIgnored(spec, u, p, es[1..]);
    }
  }

  // ---------------------------------------------------------------------
  // The walk against the independent description.

  /** The walk's check answers exactly what the specification decides. */
  ghost predicate Decides(s: Setup) {
    forall rel :: Check(s, rel) == Ok(Ignored(s.spec, rel))
  }

  /**
   * Both the intended walk (each path handed to should_ignore_path under the
   * absolute working directory) and any walk without a specification decide
   * every path without raising.
   */
  lemma AnchoredOrNoSpecDecides(s: Setup)
    requires Anchored(s) || s.spec.None?
    ensures Decides(s)
  {
    forall rel ensures Check(s, rel) == Ok(Ignored(s.spec, rel)) {
      if Anchored(s) {
        AnchoredPathIsMatched(s.spec, s.cwd, rel);
      }
    }
  }

  /** A directory that was entered passes visibility on to its entries. */
  lemma ExtendVisible(spec: Option<Matcher>, p: Path, name: string)
    requires AncestorsVisible(spec, p) && (p == [] || !Ignored(spec, p))
    ensures AncestorsVisible(spec, p + [name])
  {
    forall k | 1 <= k < |p + [name]| ensures !Ignored(spec, (p + [name])[..k]) {
      if k < |p| {
        assert (p + [name])[..k] == p[..k];
      } else {
        assert (p + [name])[..k] == p;
      }
    }
  }

  lemma {:induction false} VisitFilesCopies(s: Setup, p: Path, cs: seq<Node>)
    requires Decides(s)
    requires AncestorsVisible(s.spec, p) && (p == [] || !Ignored(s.spec, p))
    ensures !VisitFiles(s, p, cs).failed
    ensures VisitFiles(s, p, cs).copied == KeptOnly(s.spec, s.faults.uncopyable, FilesHere(p, cs))
  {
    if cs != [] {
      VisitFilesCopies(s, p, cs[1..]);
      var c := cs[0];
      if c.File? {
        var q := p + [c.name];
        ExtendVisible(s.spec, p, c.name);
        assert Check(s, q) == Ok(Ignored(s.spec, q));
        assert FilesHere(p, cs) == [Entry(q, c.data)] + FilesHere(p, cs[1..]);
        KeptOnlyAppend(s.spec, s.faults.uncopyable, [Entry(q, c.data)], FilesHere(p, cs[1..]));
      } else {
        assert FilesHere(p, cs) == FilesHere(p, cs[1..]);
      }
    }
  }

  lemma {:induction false} VisitDirCopies(s: Setup, p: Path, cs: seq<Node>)
    requires Decides(s)
    requires AncestorsVisible(s.spec, p)
    requires !VisitDir(s, p, cs).failed
    ensures VisitDir(s, p, cs).copied == KeptOnly(s.spec, s.faults.uncopyable, AllFiles(p, cs))
    decreases SizeAll(cs), 1
  {
    var u := s.faults.uncopyable;
    KeptOnlyAppend(s.spec, u, FilesHere(p, cs), SubFiles(p, cs));
    if p != [] && Ignored(s.spec, p) {
      assert Check(s, p) == Ok(true);
      AllFilesBelow(p, cs);
      NothingKeptBelowIgnored(s.spec, u, p, AllFiles(p, cs));
    } else {
      if p != [] {
        assert Check(s, p) == Ok(false);
      }
      VisitFilesCopies(s, p, cs);
      ThenFailed(VisitFiles(s, p, cs), VisitChildren(s, p, cs));
      VisitChildrenCopies(s, p, cs);
    }
  }

  lemma {:induction false} VisitChildrenCopies(s: Setup, p: Path, cs: seq<Node>)
    requires Decides(s)
    requires AncestorsVisible(s.spec, p) && (p == [] || !Ignored(s.spec, p))
    requires !VisitChildren(s, p, cs).failed
    ensures VisitChildren(s, p, cs).copied == KeptOnly(s.spec, s.faults.uncopyable, SubFiles(p, cs))
    decreases SizeAll(cs), 0
  {
    if cs != [] {
      var u := s.faults.uncopyable;
      if cs[0].Dir? {
        var q := p + [cs[0].name];
        ChildrenSmaller(cs);
        ThenFailed(VisitDir(s, q, cs[0].children), VisitChildren(s, p, cs[1..]));
        ExtendVisible(s.spec, p, cs[0].name);
        VisitDirCopies(s, q, cs[0].children);
        VisitChildrenCopies(s, p, cs[1..]);
        KeptOnlyAppend(s.spec, u, AllFiles(q, cs[0].children), SubFiles(p, cs[1..]));
      } else {
        VisitChildrenCopies(s, p, cs[1..]);
      }
    }
  }

  /**
   * When the walk does not abort, the files it copies are, in order, exactly
   * the files of the tree that are not ignored, do not lie below an ignored
   * directory and copy without error; each keeps its relative path.
   */
  lemma WalkCopiesExactlyKept(s: Setup, root: seq<Node>)
    requires Anchored(s) || s.spec.None?
    requires !Walk(s, root).failed
    ensures Walk(s, root).copied == KeptOnly(s.spec, s.faults.uncopyable, AllFiles([], root))
  {
    AnchoredOrNoSpecDecides(s);
    VisitDirCopies(s, [], root);
  }

  /** Consequence: no ignored file, and no file under an ignored directory, is copied. */
  lemma NoIgnoredFileCopied(s: Setup, root: seq<Node>, e: Entry)
    requires Anchored(s) || s.spec.None?
    requires !Walk(s, root).failed
    requires e in Walk(s, root).copied
    ensures e in AllFiles([], root)
    ensures !Ignored(s.spec, e.path)
    ensures forall k :: 1 <= k < |e.path| ==> !Ignored(s.spec, e.path[..k])
  {
    WalkCopiesExactlyKept(s, root);
    KeptOnlyIsKept(s.spec, s.faults.uncopyable, AllFiles([], root));
  }

  lemma {:induction false} KeptOnlyIsKept(spec: Option<Matcher>, u: set<Path>, es: seq<Entry>)
    ensures forall e :: e in KeptOnly(spec, u, es) ==> e in es && Kept(spec, u, e.path)
  {
    if es != [] {
      KeptOnlyIsKept(spec, u, es[1..]);
    }
  }

  lemma {:induction false} KeptOnlyEverything(es: seq<Entry>)
    ensures KeptOnly(None, {}, es) == es
  {
    if es != [] {
      KeptOnlyEverything(es[1..]);
    }
  }

  lemma {:induction false} VisitDirNeverAborts(s: Setup, p: Path, cs: seq<Node>)
    requires Decides(s) && s.faults.unwritable == {}
    ensures !VisitDir(s, p, cs).failed
    decreases SizeAll(cs), 1
  {
    if p == [] || !Ignored(s.spec, p) {
      if p != [] {
        assert Check(s, p) == Ok(false);
      }
      VisitFilesNeverAborts(s, p, cs);
      VisitChildrenNeverAborts(s, p, cs);
    } else {
      assert Check(s, p) == Ok(true);
    }
  }

  lemma {:induction false} VisitFilesNeverAborts(s: Setup, p: Path, cs: seq<Node>)
    requires Decides(s)
    ensures !VisitFiles(s, p, cs).failed
  {
    if cs != [] {
      VisitFilesNeverAborts(s, p, cs[1..]);
      if cs[0].File? {
        assert Check(s, p + [cs[0].name]) == Ok(Ignored(s.spec, p + [cs[0].name]));
      }
    }
  }

  lemma {:induction false} VisitChildrenNeverAborts(s: Setup, p: Path, cs: seq<Node>)
    requires Decides(s) && s.faults.unwritable == {}
    ensures !VisitChildren(s, p, cs).failed
    decreases SizeAll(cs), 0
  {
    if cs != [] {
      VisitChildrenNeverAborts(s, p, cs[1..]);
      if cs[0].Dir? {
        ChildrenSmaller(cs);
        VisitDirNeverAborts(s, p + [cs[0].name], cs[0].children);
      }
    }
  }

  /**
   * With no .dockerignore and no local fault, every file of the tree is
   * copied, in walk order, and nothing is counted as ignored.
   */
  lemma NoSpecCopiesEverything(cwd: seq<string>, top: FsPath, root: seq<Node>)
    ensures var out := Walk(Setup(None, cwd, top, Faults({}, {})), root);
      !out.failed && out.copied == AllFiles([], root) && out.ignored == 0
  {
    var s := Setup(None, cwd, top, Faults({}, {}));
    AnchoredOrNoSpecDecides(s);
    VisitDirNeverAborts(s, [], root);
    WalkCopiesExactlyKept(s, root);
    KeptOnlyEverything(AllFiles([], root));
    NoSpecIgnoresNone(s, [], root);
  }

  lemma {:induction false} NoSpecIgnoresNone(s: Setup, p: Path, cs: seq<Node>)
    requires s.spec.None?
    ensures VisitDir(s, p, cs).ignored == 0
    decreases SizeAll(cs), 1
  {
    assert Check(s, p) == Ok(false);
    if p !in s.faults.unwritable {
      var files, children := VisitFiles(s, p, cs), VisitChildren(s, p, cs);
      NoSpecFilesIgnoreNone(s, p, cs);
      NoSpecChildrenIgnoreNone(s, p, cs);
      assert VisitDir(s, p, cs) == Then(Out([], [p], 0, false), Then(files, children));
    }
  }

  lemma {:induction false} NoSpecFilesIgnoreNone(s: Setup, p: Path, cs: seq<Node>)
    requires s.spec.None?
    ensures VisitFiles(s, p, cs).ignored == 0
  {
    if cs != [] {
      NoSpecFilesIgnoreNone(s, p, cs[1..]);
    }
  }

  lemma {:induction false} NoSpecChildrenIgnoreNone(s: Setup, p: Path, cs: seq<Node>)
    requires s.spec.None?
    ensures VisitChildren(s, p, cs).ignored == 0
    decreases SizeAll(cs), 0
  {
    if cs != [] {
      NoSpecChildrenIgnoreNone(s, p, cs[1..]);
      if cs[0].Dir? {
        ChildrenSmaller(cs);
        NoSpecIgnoresNone(s, p + [cs[0].name], cs[0].children);
      }
    }
  }

  // ---------------------------------------------------------------------
  // Which directories the walk mirrors and which files it counts as ignored.

  /** Directory `p` and every directory below it, in os.walk's top-down order. */
  function AllDirs(p: Path, cs: seq<Node>): seq<Path>
    decreases SizeAll(cs), 1
  {
    [p] + DirsUnder(p, cs)
  }

  function DirsUnder(p: Path, cs: seq<Node>): seq<Path>
    decreases SizeAll(cs), 0
  {
    if cs == [] then []
    else if cs[0].Dir? then ChildrenSmaller(cs); AllDirs(p + [cs[0].name], cs[0].children) + DirsUnder(p, cs[1..])
    else DirsUnder(p, cs[1..])
  }

  /** A directory is mirrored: the root, or one that is not ignored and lies below no ignored directory. */
  predicate Mirrored(spec: Option<Matcher>, d: Path) {
    d == [] || (!Ignored(spec, d) && AncestorsVisible(spec, d))
  }

  function MirroredOnly(spec: Option<Matcher>, ds: seq<Path>): (r: seq<Path>)
    ensures |r| <= |ds|
  {
    if ds == [] then []
    else (if Mirrored(spec, ds[0]) then [ds[0]] else []) + MirroredOnly(spec, ds[1..])
  }

  /**
   * A file that `ignored_files` counts: no directory above its own is
   * ignored, and either the file itself or its own directory is. A file
   * deeper below an ignored directory is never seen, since the walk does not
   * descend there.
   */
  predicate Counted(spec: Option<Matcher>, q: Path) {
    |q| >= 1 &&
    var dir := q[..|q| - 1];
    AncestorsVisible(spec, dir) && (Ignored(spec, q) || (dir != [] && Ignored(spec, dir)))
  }

  function CountedIn(spec: Option<Matcher>, es: seq<Entry>): (n: nat)
    ensures n <= |es|
  {
    if es == [] then 0 else (if Counted(spec, es[0].path) then 1 else 0) + CountedIn(spec, es[1..])
  }

  lemma {:induction false} MirroredOnlyAppend(spec: Option<Matcher>, a: seq<Path>, b: seq<Path>)
    ensures MirroredOnly(spec, a + b) == MirroredOnly(spec, a) + MirroredOnly(spec, b)
  {
    if a == [] {
      assert a + b == b;
    } else {
      var h := if Mirrored(spec, a[0]) then [a[0]] else [];
      assert (a + b)[0] == a[0] && (a + b)[1..] == a[1..] + b;
      assert MirroredOnly(spec, a + b) == h + MirroredOnly(spec, a[1..] + b);
      MirroredOnlyAppend(spec, a[1..], b);
      ConcatAssoc(h, MirroredOnly(spec, a[1..]), MirroredOnly(spec, b));
    }
  }

  lemma ConcatAssoc<T>(x: seq<T>, y: seq<T>, z: seq<T>)
    ensures x + (y + z) == (x + y) + z
  {
  }

  lemma {:induction false} MirroredOnlyMembers(spec: Option<Matcher>, ds: seq<Path>, d: Path)
    ensures d in MirroredOnly(spec, ds) <==> d in ds && Mirrored(spec, d)
  {
    if ds != [] {
      MirroredOnlyMembers(spec, ds[1..], d);
      assert ds == [ds[0]] + ds[1..];
    }
  }

  lemma {:induction false} CountedInAppend(spec: Option<Matcher>, a: seq<Entry>, b: seq<Entry>)
    ensures CountedIn(spec, a + b) == CountedIn(spec, a) + CountedIn(spec, b)
  {
    if a != [] {
      assert (a + b)[0] == a[0];
      assert (a + b)[1..] == a[1..] + b;
      CountedInAppend(spec, a[1..], b);
    } else {
      assert a + b == b;
    }
  }

  /** Every directory listed under `p` is `p` or lies below it. */
  lemma {:induction false} AllDirsBelow(p: Path, cs: seq<Node>)
    ensures forall d :: d in AllDirs(p, cs) ==> |d| >= |p| && d[..|p|] == p
    decreases SizeAll(cs), 1
  {
    DirsUnderBelow(p, cs);
  }

  lemma {:induction false} DirsUnderBelow(p: Path, cs: seq<Node>)
    ensures forall d :: d in DirsUnder(p, cs) ==> |d| > |p| && d[..|p|] == p
    decreases SizeAll(cs), 0
  {
    if cs != [] {
      DirsUnderBelow(p, cs[1..]);
      if cs[0].Dir? {
        var q := p + [cs[0].name];
        ChildrenSmaller(cs);
        AllDirsBelow(q, cs[0].children);
        forall d | d in AllDirs(q, cs[0].children)
          ensures |d| > |p| && d[..|p|] == p
        {
          assert d[..|q|][..|p|] == d[..|p|];
          assert q[..|p|] == p;
        }
      }
    }
  }

  /** No directory at or below an ignored one is mirrored. */
  lemma {:induction false} NothingMirroredBelowIgnored(spec: Option<Matcher>, p: Path, ds: seq<Path>)
    requires p != [] && Ignored(spec, p)
    requires forall d :: d in ds ==> |d| >= |p| && d[..|p|] == p
    ensures MirroredOnly(spec, ds) == []
  {
    if ds != [] {
      var d := ds[0];
      if |d| == |p| {
        assert d == d[..|p|];
      } else {
        assert d[..|p|] == p;
        assert !AncestorsVisible(spec, d);
      }
      NothingMirroredBelowIgnored(spec, p, ds[1..]);
    }
  }

  /** No file two or more levels below an ignored directory is counted. */
  lemma {:induction false} NothingCountedDeepBelowIgnored(spec: Option<Matcher>, p: Path, es: seq<Entry>)
    requires p != [] && Ignored(spec, p)
    requires forall e :: e in es ==> |e.path| > |p| + 1 && e.path[..|p|] == p
    ensures CountedIn(spec, es) == 0
  {
    if es != [] {
      var q := es[0].path;
      var dir := q[..|q| - 1];
      assert dir[..|p|] == q[..|p|];
      assert !AncestorsVisible(spec, dir);
      NothingCountedDeepBelowIgnored(spec, p, es[1..]);
    }
  }

  /** The files directly in an ignored directory that the walk reaches are all counted. */
  lemma {:induction false} IgnoredDirCountsItsFiles(spec: Option<Matcher>, p: Path, cs: seq<Node>)
    requires p != [] && Ignored(spec, p) && AncestorsVisible(spec, p)
    ensures CountedIn(spec, FilesHere(p, cs)) == CountFiles(cs)
  {
    if cs != [] {
      IgnoredDirCountsItsFiles(spec, p, cs[1..]);
      if cs[0].File? {
        var q := p + [cs[0].name];
        assert q[..|q| - 1] == p;
        assert Counted(spec, q);
        assert FilesHere(p, cs) == [Entry(q, cs[0].data)] + FilesHere(p, cs[1..]);
      } else {
        assert FilesHere(p, cs) == FilesHere(p, cs[1..]);
      }
    }
  }

  /** One file of a directory the walk entered: counted exactly when `Counted` says so. */
  lemma FileStepTally(s: Setup, p: Path, c: Node)
    requires Decides(s)
    requires AncestorsVisible(s.spec, p) && (p == [] || !Ignored(s.spec, p))
    ensures var o := FileStep(s, p, c);
      && !o.failed && o.made == []
      && o.ignored == (if c.File? && Counted(s.spec, p + [c.name]) then 1 else 0)
  {
    if c.File? {
      var q := p + [c.name];
      CountedInEntered(s.spec, p, c.name);
      assert Check(s, q) == Ok(Ignored(s.spec, q));
    }
  }

  /** In a directory the walk entered, a file is counted exactly when it is ignored. */
  lemma CountedInEntered(spec: Option<Matcher>, p: Path, name: string)
    requires AncestorsVisible(spec, p) && (p == [] || !Ignored(spec, p))
    ensures Counted(spec, p + [name]) <==> Ignored(spec, p + [name])
  {
    var q := p + [name];
    assert q[..|q| - 1] == p;
  }

  lemma {:induction false} VisitFilesTally(s: Setup, p: Path, cs: seq<Node>)
    requires Decides(s)
    requires AncestorsVisible(s.spec, p) && (p == [] || !Ignored(s.spec, p))
    ensures !VisitFiles(s, p, cs).failed && VisitFiles(s, p, cs).made == []
    ensures VisitFiles(s, p, cs).ignored == CountedIn(s.spec, FilesHere(p, cs))
  {
    if cs != [] {
      VisitFilesTally(s, p, cs[1..]);
      FileStepTally(s, p, cs[0]);
      var c := cs[0];
      if c.File? {
        assert FilesHere(p, cs) == [Entry(p + [c.name], c.data)] + FilesHere(p, cs[1..]);
      } else {
        assert FilesHere(p, cs) == FilesHere(p, cs[1..]);
      }
    }
  }

  lemma {:induction false} VisitDirTally(s: Setup, p: Path, cs: seq<Node>)
    requires Decides(s)
    requires AncestorsVisible(s.spec, p)
    requires !VisitDir(s, p, cs).failed
    ensures VisitDir(s, p, cs).made == MirroredOnly(s.spec, AllDirs(p, cs))
    ensures VisitDir(s, p, cs).ignored == CountedIn(s.spec, AllFiles(p, cs))
    decreases SizeAll(cs), 2
  {
    if p != [] && Ignored(s.spec, p) {
      PrunedDirTally(s, p, cs);
    } else {
      EnteredDirTally(s, p, cs);
    }
  }

  /** An ignored directory: nothing mirrored, only its own files counted (`dirs.clear()`). */
  lemma PrunedDirTally(s: Setup, p: Path, cs: seq<Node>)
    requires Decides(s)
    requires AncestorsVisible(s.spec, p) && p != [] && Ignored(s.spec, p)
    ensures VisitDir(s, p, cs).made == MirroredOnly(s.spec, AllDirs(p, cs))
    ensures VisitDir(s, p, cs).ignored == CountedIn(s.spec, AllFiles(p, cs))
  {
    assert Check(s, p) == Ok(true);
    CountedInAppend(s.spec, FilesHere(p, cs), SubFiles(p, cs));
    AllDirsBelow(p, cs);
    NothingMirroredBelowIgnored(s.spec, p, AllDirs(p, cs));
    SubFilesBelow(p, cs);
    NothingCountedDeepBelowIgnored(s.spec, p, SubFiles(p, cs));
    IgnoredDirCountsItsFiles(s.spec, p, cs);
  }

  /** A directory the walk enters: mirrored itself, then its files and subdirectories. */
  lemma {:induction false} EnteredDirTally(s: Setup, p: Path, cs: seq<Node>)
    requires Decides(s)
    requires AncestorsVisible(s.spec, p) && (p == [] || !Ignored(s.spec, p))
    requires !VisitDir(s, p, cs).failed
    ensures VisitDir(s, p, cs).made == MirroredOnly(s.spec, AllDirs(p, cs))
    ensures VisitDir(s, p, cs).ignored == CountedIn(s.spec, AllFiles(p, cs))
    decreases SizeAll(cs), 1
  {
    var files, children := VisitFiles(s, p, cs), VisitChildren(s, p, cs);
    EnteredDirUnfolds(s, p, cs);
    VisitFilesTally(s, p, cs);
    ThenFailed(files, children);
    VisitChildrenTally(s, p, cs);
    CountedInAppend(s.spec, FilesHere(p, cs), SubFiles(p, cs));
    MirroredOnlyHead(s.spec, p, cs);
    assert [] + children.made == children.made;
  }

  lemma EnteredDirUnfolds(s: Setup, p: Path, cs: seq<Node>)
    requires Decides(s) && (p == [] || !Ignored(s.spec, p))
    requires !VisitDir(s, p, cs).failed
    ensures VisitDir(s, p, cs) == Then(Out([], [p], 0, false), Then(VisitFiles(s, p, cs), VisitChildren(s, p, cs)))
  {
    if p != [] {
      assert Check(s, p) == Ok(false);
    }
  }

  lemma MirroredOnlyHead(spec: Option<Matcher>, p: Path, cs: seq<Node>)
    requires AncestorsVisible(spec, p) && (p == [] || !Ignored(spec, p))
    ensures MirroredOnly(spec, AllDirs(p, cs)) == [p] + MirroredOnly(spec, DirsUnder(p, cs))
  {
    var ds := AllDirs(p, cs);
    assert ds[0] == p && ds[1..] == DirsUnder(p, cs);
  }

  lemma {:induction false} VisitChildrenTally(s: Setup, p: Path, cs: seq<Node>)
    requires Decides(s)
    requires AncestorsVisible(s.spec, p) && (p == [] || !Ignored(s.spec, p))
    requires !VisitChildren(s, p, cs).failed
    ensures VisitChildren(s, p, cs).made == MirroredOnly(s.spec, DirsUnder(p, cs))
    ensures VisitChildren(s, p, cs).ignored == CountedIn(s.spec, SubFiles(p, cs))
    decreases SizeAll(cs), 0
  {
    if cs != [] {
      if cs[0].Dir? {
        var q := p + [cs[0].name];
        ChildrenSmaller(cs);
        ThenFailed(VisitDir(s, q, cs[0].children), VisitChildren(s, p, cs[1..]));
        ExtendVisible(s.spec, p, cs[0].name);
        VisitDirTally(s, q, cs[0].children);
        VisitChildrenTally(s, p, cs[1..]);
        MirroredOnlyAppend(s.spec, AllDirs(q, cs[0].children), DirsUnder(p, cs[1..]));
        CountedInAppend(s.spec, AllFiles(q, cs[0].children), SubFiles(p, cs[1..]));
      } else {
        VisitChildrenTally(s, p, cs[1..]);
      }
    }
  }

  /**
   * When the walk does not abort, the directories it mirrors are, in order,
   * exactly the root and the directories that are not ignored and lie below
   * no ignored directory; `ignored_files` counts exactly the files that are
   * ignored themselves or sit directly in the first ignored directory on
   * their path.
   */
  lemma WalkMirrorsAndCounts(s: Setup, root: seq<Node>)
    requires Anchored(s) || s.spec.None?
    requires !Walk(s, root).failed
    ensures Walk(s, root).made == MirroredOnly(s.spec, AllDirs([], root))
    ensures Walk(s, root).ignored == CountedIn(s.spec, AllFiles([], root))
  {
    AnchoredOrNoSpecDecides(s);
    VisitDirTally(s, [], root);
  }

  /** Consequence: a directory is mirrored exactly when it is in the tree, not ignored, and below no ignored directory. */
  lemma NoIgnoredDirectoryMirrored(s: Setup, root: seq<Node>, d: Path)
    requires Anchored(s) || s.spec.None?
    requires !Walk(s, root).failed
    ensures d in Walk(s, root).made <==>
            d in AllDirs([], root) && (d == [] || (!Ignored(s.spec, d) && forall k :: 1 <= k < |d| ==> !Ignored(s.spec, d[..k])))
  {
    WalkMirrorsAndCounts(s, root);
    MirroredOnlyMembers(s.spec, AllDirs([], root), d);
  }

  // ---------------------------------------------------------------------
  // The walk as written: os.walk('.') yields relative paths.

  /** The walk exactly as the program starts it: os.walk('.'). */
  predicate FromDot(s: Setup) {
    s.top == FsPath(false, [])
  }

  lemma DotCheckRaises(s: Setup, rel: Path)
    requires FromDot(s) && s.spec.Some?
    ensures Check(s, rel).Err?
  {
    RelativePathRaises(s.spec.value, rel, s.cwd);
  }

  lemma {:induction false} DotFilesRaise(s: Setup, p: Path, cs: seq<Node>, i: nat)
    requires FromDot(s) && s.spec.Some?
    requires i < |cs| && cs[i].File?
    ensures VisitFiles(s, p, cs).failed
  {
    if i == 0 {
      DotCheckRaises(s, p + [cs[0].name]);
    } else {
      DotFilesRaise(s, p, cs[1..], i - 1);
      ThenFailed(FileStep(s, p, cs[0]), VisitFiles(s, p, cs[1..]));
    }
  }

  /**
   * As written, once a specification exists the walk aborts (and the
   * temporary root is removed) as soon as '.' holds a single entry, and
   * '.' always holds the .dockerignore file the specification came from.
   */
  lemma AsWrittenWalkAborts(s: Setup, root: seq<Node>)
    requires FromDot(s) && s.spec.Some?
    requires root != []
    ensures Walk(s, root).failed
  {
    if [] !in s.faults.unwritable {
      var files, children := VisitFiles(s, [], root), VisitChildren(s, [], root);
      assert Walk(s, root) == Then(Out([], [[]], 0, false), Then(files, children));
      if exists i :: 0 <= i < |root| && root[i].File? {
        var i :| 0 <= i < |root| && root[i].File?;
        DotFilesRaise(s, [], root, i);
      } else {
        assert root[0].Dir?;
        DotCheckRaises(s, [root[0].name]);
        ChildrenSmaller(root);
        assert VisitDir(s, [] + [root[0].name], root[0].children).failed;
        ThenFailed(VisitDir(s, [] + [root[0].name], root[0].children), VisitChildren(s, [], root[1..]));
      }
      ThenFailed(files, children);
    }
  }

  // ---------------------------------------------------------------------
  // A failed copy skips only that file.

  function Without(es: seq<Entry>, q: Path): (r: seq<Entry>)
    ensures forall e :: e in r <==> e in es && e.path != q
  {
    if es == [] then []
    else (if es[0].path == q then [] else [es[0]]) + Without(es[1..], q)
  }

  lemma {:induction false} WithoutAppend(a: seq<Entry>, b: seq<Entry>, q: Path)
    ensures Without(a + b, q) == Without(a, q) + Without(b, q)
  {
    if a == [] {
      assert a + b == b;
    } else {
      assert (a + b)[0] == a[0];
      assert (a + b)[1..] == a[1..] + b;
      WithoutAppend(a[1..], b, q);
    }
  }

  /** The same outcome with the copy of `q` failing as well. */
  function Skip(o: Out, q: Path): Out {
    o.(copied := Without(o.copied, q))
  }

  lemma SkipThen(a: Out, b: Out, q: Path)
    ensures Skip(Then(a, b), q) == Then(Skip(a, q), Skip(b, q))
  {
    WithoutAppend(a.copied, b.copied, q);
  }

  function AlsoUncopyable(s: Setup, q: Path): Setup {
    s.(faults := s.faults.(uncopyable := s.faults.uncopyable + {q}))
  }

  lemma {:induction false} FilesSkip(s: Setup, q: Path, p: Path, cs: seq<Node>)
    ensures VisitFiles(AlsoUncopyable(s, q), p, cs) == Skip(VisitFiles(s, p, cs), q)
  {
    var s' := AlsoUncopyable(s, q);
    if cs != [] {
      FilesSkip(s, q, p, cs[1..]);
      SkipThen(FileStep(s, p, cs[0]), VisitFiles(s, p, cs[1..]), q);
      FileStepSkip(s, q, p, cs[0]);
    }
  }

  lemma FileStepSkip(s: Setup, q: Path, p: Path, c: Node)
    ensures FileStep(AlsoUncopyable(s, q), p, c) == Skip(FileStep(s, p, c), q)
  {
    if c.File? {
      var path := p + [c.name];
      assert Check(AlsoUncopyable(s, q), path) == Check(s, path);
      if Check(s, path) == Ok(false) && path !in s.faults.uncopyable {
        var e := Entry(path, c.data);
        assert Without([e], q) == if path == q then [] else [e];
      } else {
        assert Without([], q) == [];
      }
    }
  }

  lemma {:induction false} DirSkip(s: Setup, q: Path, p: Path, cs: seq<Node>)
    ensures VisitDir(AlsoUncopyable(s, q), p, cs) == Skip(VisitDir(s, p, cs), q)
    decreases SizeAll(cs), 1
  {
    var s' := AlsoUncopyable(s, q);
    assert Check(s', p) == Check(s, p);
    if !(p != [] && Check(s, p).Err?) && !(p != [] && Check(s, p) == Ok(true)) && p !in s.faults.unwritable {
      FilesSkip(s, q, p, cs);
      ChildrenSkip(s, q, p, cs);
      SkipThen(VisitFiles(s, p, cs), VisitChildren(s, p, cs), q);
      SkipThen(Out([], [p], 0, false), Then(VisitFiles(s, p, cs), VisitChildren(s, p, cs)), q);
    }
  }

  lemma {:induction false} ChildrenSkip(s: Setup, q: Path, p: Path, cs: seq<Node>)
    ensures VisitChildren(AlsoUncopyable(s, q), p, cs) == Skip(VisitChildren(s, p, cs), q)
    decreases SizeAll(cs), 0
  {
    if cs != [] {
      ChildrenSkip(s, q, p, cs[1..]);
      if cs[0].Dir? {
        ChildrenSmaller(cs);
        DirSkip(s, q, p + [cs[0].name], cs[0].children);
        SkipThen(VisitDir(s, p + [cs[0].name], cs[0].children), VisitChildren(s, p, cs[1..]), q);
      }
    }
  }

  /**
   * Making the copy of one more file fail removes that file from what is
   * copied and changes nothing else: the walk carries on, the ignored
   * count and the mirrored directories are the same.
   */
  lemma CopyFailureSkipsOnlyThatFile(s: Setup, q: Path, root: seq<Node>)
    ensures Walk(AlsoUncopyable(s, q), root).copied == Without(Walk(s, root).copied, q)
    ensures Walk(AlsoUncopyable(s, q), root).made == Walk(s, root).made
    ensures Walk(AlsoUncopyable(s, q), root).ignored == Walk(s, root).ignored
    ensures Walk(AlsoUncopyable(s, q), root).failed == Walk(s, root).failed
  {
    DirSkip(s, q, [], root);
  }
}
