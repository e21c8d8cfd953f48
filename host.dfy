/**
 * The local machine the CLI runs on: the build context '.', the temporary
 * directories it creates, and the imperative filtered walk
 * create_filtered_build_context (docker-build-cli.py:111-157).
 */
module LocalHost {
  import opened Wrappers
  import opened Ignore
  import opened Tree

  /** A temporary directory: the directories mirrored in it and the files written to it. */
  datatype TempDir = TempDir(dirs: seq<Path>, files: seq<Entry>)

  datatype TempEvent = Created(id: nat) | Removed(id: nat)

  class Host {
    /** The absolute working directory. */
    const cwd: seq<string>
    /** The entries of the build context '.'. */
    const root: seq<Node>
    /** Which mirrored directories cannot be created and which files cannot be copied. */
    const faults: Faults

    /** The temporary directories that currently exist, by id. */
    var temps: map<nat, TempDir>
    var nextTemp: nat
    /** Every mkdtemp and rmtree, in order. */
    ghost var tempLog: seq<TempEvent>

    ghost predicate Valid()
      reads this
    {
      forall t :: t in temps ==> t < nextTemp
    }

    constructor (cwd: seq<string>, root: seq<Node>, faults: Faults)
      ensures Valid()
      ensures this.cwd == cwd && this.root == root && this.faults == faults
      ensures temps == map[] && tempLog == []
    {
      this.cwd := cwd;
      this.root := root;
      this.faults := faults;
      temps := map[];
      nextTemp := 0;
      tempLog := [];
    }

    /** tempfile.mkdtemp: a new, empty directory. */
    method MakeTemp() returns (t: nat)
      requires Valid()
      modifies this
      ensures Valid()
      ensures t !in old(temps) && temps == old(temps)[t := TempDir([], [])]
      ensures tempLog == old(tempLog) + [Created(t)]
    {
      t := nextTemp;
      temps := temps[t := TempDir([], [])];
      nextTemp := nextTemp + 1;
      tempLog := tempLog + [Created(t)];
    }

    /** `(temp / p).mkdir(parents=True, exist_ok=True)`. */
    method Mkdir(t: nat, p: Path) returns (ok: bool)
      requires Valid() && t in temps
      modifies this`temps
      ensures Valid()
      ensures ok <==> p !in faults.unwritable
      ensures temps == if ok then old(temps)[t := TempDir(old(temps)[t].dirs + [p], old(temps)[t].files)]
                       else old(temps)
    {
      ok := p !in faults.unwritable;
      if ok {
        temps := temps[t := TempDir(temps[t].dirs + [p], temps[t].files)];
      }
    }

    /** shutil.copy2 of one file of the context to the same relative path under `t`. */
    method Copy(t: nat, e: Entry) returns (ok: bool)
      requires Valid() && t in temps
      modifies this`temps
      ensures Valid()
      ensures ok <==> e.path !in faults.uncopyable
      ensures temps == if ok then old(temps)[t := TempDir(old(temps)[t].dirs, old(temps)[t].files + [e])]
                       else old(temps)
    {
      ok := e.path !in faults.uncopyable;
      if ok {
        temps := temps[t := TempDir(temps[t].dirs, temps[t].files + [e])];
      }
    }

    /** shutil.rmtree(t, ignore_errors=True). */
    method RemoveTree(t: nat)
      requires Valid()
      modifies this`temps, this`tempLog
      ensures Valid()
      ensures temps == old(temps) - {t}
      ensures tempLog == old(tempLog) + [Removed(t)]
    {
      temps := temps - {t};
      tempLog := tempLog + [Removed(t)];
    }
  }

  // -----------------------------------------------------------------------
  // The worklist os.walk keeps: directories still to visit, next first.

  type Pending = seq<(Path, seq<Node>)>

  function Forest(s: Setup, work: Pending): Out {
    if work == [] then Empty else Then(VisitDir(s, work[0].0, work[0].1), Forest(s, work[1..]))
  }

  function ForestSize(work: Pending): nat {
    if work == [] then 0 else 1 + SizeAll(work[0].1) + ForestSize(work[1..])
  }

  /** The subdirectories of `p` that the walk pushes, in listing order. */
  function Subdirs(p: Path, cs: seq<Node>): Pending {
    if cs == [] then []
    else (if cs[0].Dir? then [(p + [cs[0].name], cs[0].children)] else []) + Subdirs(p, cs[1..])
  }

  lemma {:induction false} ForestSizeAppend(a: Pending, b: Pending)
    ensures ForestSize(a + b) == ForestSize(a) + ForestSize(b)
  {
    if a == [] {
      assert a + b == b;
    } else {
      assert (a + b)[0] == a[0];
      assert (a + b)[1..] == a[1..] + b;
      ForestSizeAppend(a[1..], b);
    }
  }

  lemma {:induction false} ForestAppend(s: Setup, a: Pending, b: Pending)
    ensures Forest(s, a + b) == Then(Forest(s, a), Forest(s, b))
  {
    if a == [] {
      assert a + b == b;
    } else {
      assert (a + b)[0] == a[0];
      assert (a + b)[1..] == a[1..] + b;
      ForestAppend(s, a[1..], b);
      ThenAssoc(VisitDir(s, a[0].0, a[0].1), Forest(s, a[1..]), Forest(s, b));
    }
  }

  lemma {:induction false} SubdirsForest(s: Setup, p: Path, cs: seq<Node>)
    ensures Forest(s, Subdirs(p, cs)) == VisitChildren(s, p, cs)
    ensures ForestSize(Subdirs(p, cs)) <= SizeAll(cs)
  {
    if cs != [] {
      SubdirsForest(s, p, cs[1..]);
      var head: Pending := if cs[0].Dir? then [(p + [cs[0].name], cs[0].children)] else [];
      ForestAppend(s, head, Subdirs(p, cs[1..]));
      ForestSizeAppend(head, Subdirs(p, cs[1..]));
      if cs[0].Dir? {
        assert Forest(s, head) == Then(VisitDir(s, p + [cs[0].name], cs[0].children), Empty);
      }
    }
  }

  /**
   * One iteration of the walk loop for directory `p`: the pruning check,
   * the mirrored directory and the directory's own files.
   */
  function OwnStep(s: Setup, p: Path, cs: seq<Node>): Out {
    if p != [] && Check(s, p).Err? then Abort
    else if p != [] && Check(s, p) == Ok(true) then Out([], [], CountFiles(cs), false)
    else if p in s.faults.unwritable then Abort
    else Then(Out([], [p], 0, false), VisitFiles(s, p, cs))
  }

  /** The loop goes on into the subdirectories of `p` (no `dirs.clear()`). */
  predicate Descends(s: Setup, p: Path) {
    (p == [] || Check(s, p) == Ok(false)) && p !in s.faults.unwritable
  }

  function Pushed(s: Setup, p: Path, cs: seq<Node>): Pending {
    if Descends(s, p) then Subdirs(p, cs) else []
  }

  /** The loop iteration for `p`, then the walk of what it pushed, is the visit of `p`. */
  lemma VisitDirSplit(s: Setup, p: Path, cs: seq<Node>)
    ensures VisitDir(s, p, cs) == Then(OwnStep(s, p, cs), Forest(s, Pushed(s, p, cs)))
  {
    var own := OwnStep(s, p, cs);
    var c := Check(s, p);
    if Descends(s, p) {
      SubdirsForest(s, p, cs);
      ThenAssoc(Out([], [p], 0, false), VisitFiles(s, p, cs), VisitChildren(s, p, cs));
    } else {
      assert Forest(s, Pushed(s, p, cs)) == Empty;
      if p != [] && c.Ok? && c.value {
        assert VisitDir(s, p, cs) == own;
        ThenEmpty(own);
      } else if p != [] && c.Ok? {
        assert c == Ok(false);
        assert p in s.faults.unwritable;
      }
    }
  }

  lemma StepPreserves(s: Setup, acc: Out, p: Path, cs: seq<Node>, rest: Pending)
    ensures Then(Then(acc, OwnStep(s, p, cs)), Forest(s, Pushed(s, p, cs) + rest))
         == Then(acc, Forest(s, [(p, cs)] + rest))
  {
    var own, pushed := OwnStep(s, p, cs), Pushed(s, p, cs);
    var visit, below, after := VisitDir(s, p, cs), Forest(s, pushed), Forest(s, rest);
    ForestAppend(s, pushed, rest);
    ForestAppend(s, [(p, cs)], rest);
    assert Forest(s, [(p, cs)]) == Then(visit, Empty);
    ThenEmpty(visit);
    VisitDirSplit(s, p, cs);
    calc {
      Then(Then(acc, own), Then(below, after));
      { ThenAssoc(acc, own, Then(below, after)); }
      Then(acc, Then(own, Then(below, after)));
      { ThenAssoc(own, below, after); }
      Then(acc, Then(visit, after));
    }
  }

  lemma StepShrinks(p: Path, cs: seq<Node>, rest: Pending, pushed: Pending)
    requires ForestSize(pushed) <= SizeAll(cs)
    ensures ForestSize(pushed + rest) < ForestSize([(p, cs)] + rest)
  {
    ForestSizeAppend(pushed, rest);
    ForestSizeAppend([(p, cs)], rest);
  }

  lemma ThenEmpty(a: Out)
    ensures Then(a, Empty) == a
  {
    if !a.failed {
      assert a.copied + [] == a.copied && a.made + [] == a.made;
    }
  }

  /** A temporary directory after the mirrored directories and copies of `o`. */
  function Extend(d: TempDir, o: Out): TempDir {
    TempDir(d.dirs + o.made, d.files + o.copied)
  }

  lemma ExtendThen(d: TempDir, a: Out, b: Out)
    requires !a.failed
    ensures Extend(Extend(d, a), b) == Extend(d, Then(a, b))
  {
    assert (d.dirs + a.made) + b.made == d.dirs + (a.made + b.made);
    assert (d.files + a.copied) + b.copied == d.files + (a.copied + b.copied);
  }

  lemma ExtendNothing(d: TempDir, o: Out)
    requires o.made == [] && o.copied == []
    ensures Extend(d, o) == d
  {
    assert d.dirs + [] == d.dirs && d.files + [] == d.files;
  }

  /** Removing the one directory the walk changed gives back the old ones. */
  lemma DropTemp<V>(before: map<nat, V>, v: V, m: map<nat, V>, t: nat)
    requires t !in before && m - {t} == before[t := v] - {t}
    ensures m - {t} == before
  {
    assert before[t := v] - {t} == before;
  }

  /** One turn of the inner `for file in files` loop: check the file, then copy it unless ignored. */
  method CopyFile(host: Host, s: Setup, t: nat, p: Path, f: Node) returns (ok: bool, dc: nat, di: nat)
    requires host.Valid() && t in host.temps && s.faults == host.faults
    modifies host`temps
    ensures host.Valid() && t in host.temps
    ensures !ok ==> host.temps == old(host.temps)
    ensures var o := FileStep(s, p, f);
      && ok == !o.failed
      && (ok ==> host.temps == old(host.temps)[t := Extend(old(host.temps)[t], o)]
                 && dc == |o.copied| && di == o.ignored)
  {
    var now := host.temps[t];
    ExtendNothing(now, Empty);
    if f.Dir? {
      assert host.temps == old(host.temps)[t := now];
      return true, 0, 0;
    }
    var q := p + [f.name];
    var c := Check(s, q);
    if c.Err? {
      return false, 0, 0;
    }
    if c.value {
      ExtendNothing(now, Out([], [], 1, false));
      assert host.temps == old(host.temps)[t := now];
      return true, 0, 1;
    }
    var done := host.Copy(t, Entry(q, f.data));
    if done {
      assert now.dirs + [] == now.dirs;
      return true, 1, 0;
    }
    assert host.temps == old(host.temps)[t := now];
    return true, 0, 0;
  }

  /** The inner `for file in files` loop of one visited directory. */
  method CopyFiles(host: Host, s: Setup, t: nat, p: Path, cs: seq<Node>)
    returns (ok: bool, copied: nat, ignored: nat)
    requires host.Valid() && t in host.temps && s.faults == host.faults
    modifies host`temps
    ensures host.Valid() && t in host.temps && host.temps - {t} == old(host.temps) - {t}
    ensures var o := VisitFiles(s, p, cs);
      && ok == !o.failed
      && (ok ==> host.temps == old(host.temps)[t := Extend(old(host.temps)[t], o)]
                 && copied == |o.copied| && ignored == o.ignored)
  {
    ghost var start := host.temps[t];
    ghost var acc := Empty;
    ExtendNothing(start, Empty);
    copied, ignored := 0, 0;
    var i := 0;
    while i < |cs|
      invariant 0 <= i <= |cs|
      invariant host.Valid()
      invariant host.temps == old(host.temps)[t := Extend(start, acc)]
      invariant !acc.failed && copied == |acc.copied| && ignored == acc.ignored
      invariant Then(acc, VisitFiles(s, p, cs[i..])) == VisitFiles(s, p, cs)
    {
      ghost var step := FileStep(s, p, cs[i]);
      assert cs[i..][0] == cs[i] && cs[i..][1..] == cs[i + 1..];
      ThenAssoc(acc, step, VisitFiles(s, p, cs[i + 1..]));
      var done, dc, di := CopyFile(host, s, t, p, cs[i]);
      if !done {
        ThenFailed(acc, Then(step, VisitFiles(s, p, cs[i + 1..])));
        return false, copied, ignored;
      }
      ExtendThen(start, acc, step);
      acc := Then(acc, step);
      copied, ignored := copied + dc, ignored + di;
      i := i + 1;
    }
    assert cs[|cs|..] == [];
    ThenEmpty(acc);
    ok := true;
  }

  /** The body of the walk loop for directory `p`. */
  method VisitDirectory(host: Host, s: Setup, t: nat, p: Path, cs: seq<Node>)
    returns (ok: bool, copied: nat, ignored: nat)
    requires host.Valid() && t in host.temps && s.faults == host.faults
    modifies host`temps
    ensures host.Valid() && t in host.temps && host.temps - {t} == old(host.temps) - {t}
    ensures var o := OwnStep(s, p, cs);
      && ok == !o.failed
      && (ok ==> host.temps == old(host.temps)[t := Extend(old(host.temps)[t], o)]
                 && copied == |o.copied| && ignored == o.ignored)
  {
    if p != [] {
      var c := Check(s, p);
      if c.Err? {
        return false, 0, 0;
      }
      if c.value {
        assert old(host.temps)[t].dirs + [] == old(host.temps)[t].dirs;
        assert old(host.temps)[t].files + [] == old(host.temps)[t].files;
        return true, 0, CountFiles(cs);
      }
    }
    var made := host.Mkdir(t, p);
    if !made {
      return false, 0, 0;
    }
    ghost var mirrored := Out([], [p], 0, false);
    assert old(host.temps)[t].files + [] == old(host.temps)[t].files;
    assert host.temps == old(host.temps)[t := Extend(old(host.temps)[t], mirrored)];
    ok, copied, ignored := CopyFiles(host, s, t, p, cs);
    if ok {
      ExtendThen(old(host.temps)[t], mirrored, VisitFiles(s, p, cs));
    }
  }

  /** A map that differs from `o` at most at `t` is `o` updated at `t`. */
  lemma Reassemble<V>(m: map<nat, V>, o: map<nat, V>, t: nat)
    requires t in m && m - {t} == o - {t}
    ensures m == o[t := m[t]]
  {
    forall k | k in m
      ensures k in o[t := m[t]] && m[k] == o[t := m[t]][k]
    {
      if k != t {
        assert k in m - {t};
      }
    }
    forall k | k in o[t := m[t]]
      ensures k in m
    {
      if k != t {
        assert k in o - {t};
      }
    }
  }

  /**
   * One turn of the walk loop: visit the first pending directory and push
   * its subdirectories. On success the outcome so far and the remaining
   * work still add up to the same walk, and the work has shrunk; on failure
   * that walk fails.
   */
  method Advance(host: Host, s: Setup, t: nat, ghost start: TempDir, ghost acc: Out, work: Pending)
    returns (ok: bool, dc: nat, di: nat, next: Pending, ghost after: Out)
    requires host.Valid() && t in host.temps && s.faults == host.faults
    requires work != [] && !acc.failed && host.temps[t] == Extend(start, acc)
    modifies host`temps
    ensures host.Valid() && t in host.temps && host.temps - {t} == old(host.temps) - {t}
    ensures !ok ==> Then(acc, Forest(s, work)).failed
    ensures ok ==> && !after.failed
                   && host.temps[t] == Extend(start, after)
                   && |after.copied| == |acc.copied| + dc && after.ignored == acc.ignored + di
                   && Then(after, Forest(s, next)) == Then(acc, Forest(s, work))
                   && ForestSize(next) < ForestSize(work)
  {
    var p, cs, rest := work[0].0, work[0].1, work[1..];
    assert work == [(p, cs)] + rest;
    StepPreserves(s, acc, p, cs, rest);
    SubdirsForest(s, p, cs);
    StepShrinks(p, cs, rest, Pushed(s, p, cs));
    ok, dc, di := VisitDirectory(host, s, t, p, cs);
    next := Pushed(s, p, cs) + rest;
    if !ok {
      ThenFailed(acc, OwnStep(s, p, cs));
      ThenFailed(Then(acc, OwnStep(s, p, cs)), Forest(s, next));
      return ok, dc, di, next, acc;
    }
    ExtendThen(start, acc, OwnStep(s, p, cs));
    after := Then(acc, OwnStep(s, p, cs));
  }

  /** The walk is the forest of its one starting directory. */
  lemma WalkIsForest(s: Setup, root: seq<Node>)
    ensures Then(Empty, Forest(s, [([], root)])) == Walk(s, root)
  {
    var work: Pending := [([], root)];
    assert work[1..] == [];
    ThenEmpty(Walk(s, root));
  }

  /**
   * The `os.walk` loop of create_filtered_build_context, writing into the
   * temporary directory `t`: it does what `Walk` describes, stopping at the
   * first failure.
   */
  method MirrorTree(host: Host, s: Setup, t: nat)
    returns (ok: bool, copied: nat, ignored: nat)
    requires host.Valid() && t in host.temps && s.faults == host.faults
    modifies host`temps
    ensures host.Valid() && t in host.temps && host.temps - {t} == old(host.temps) - {t}
    ensures var o := Walk(s, host.root);
      && ok == !o.failed
      && (ok ==> host.temps == old(host.temps)[t := Extend(old(host.temps)[t], o)]
                 && copied == |o.copied| && ignored == o.ignored)
  {
    ghost var goal := Walk(s, host.root);
    ghost var start := host.temps[t];
    copied, ignored := 0, 0;
    var work: Pending := [([], host.root)];
    ghost var acc := Empty;
    ExtendNothing(start, Empty);
    WalkIsForest(s, host.root);
    while work != []
      invariant host.Valid() && t in host.temps && host.temps - {t} == old(host.temps) - {t}
      invariant host.temps[t] == Extend(start, acc)
      invariant !acc.failed && copied == |acc.copied| && ignored == acc.ignored
      invariant Then(acc, Forest(s, work)) == goal
      decreases ForestSize(work)
    {
      var done, dc, di;
      done, dc, di, work, acc := Advance(host, s, t, start, acc, work);
      if !done {
        return false, copied, ignored;
      }
      copied, ignored := copied + dc, ignored + di;
    }
    ThenEmpty(acc);
    Reassemble(host.temps, old(host.temps), t);
    ok := true;
  }

  /**
   * create_filtered_build_context. The walk starts at `top` (the program
   * passes '.'); the method returns the temporary directory, or None where
   * the program removes it and exits with status 1, together with the
   * `copied_files` and `ignored_files` counters. Everything the walk does is
   * what `Walk` describes.
   */
  method CreateFilteredBuildContext(host: Host, spec: Option<Matcher>, top: FsPath)
    returns (temp: Option<nat>, copied: nat, ignored: nat)
    requires host.Valid()
    modifies host
    ensures host.Valid()
    ensures var out := Walk(Setup(spec, host.cwd, top, host.faults), host.root);
      && (temp.Some? <==> !out.failed)
      && (temp.Some? ==> temp.value !in old(host.temps)
                         && host.temps == old(host.temps)[temp.value := TempDir(out.made, out.copied)]
                         && host.tempLog == old(host.tempLog) + [Created(temp.value)]
                         && copied == |out.copied| && ignored == out.ignored)
      && (temp.None? ==> host.temps == old(host.temps)
                         && exists t :: host.tempLog == old(host.tempLog) + [Created(t), Removed(t)])
  {
    var s := Setup(spec, host.cwd, top, host.faults);
    var t := host.MakeTemp();
    ghost var made := host.temps;
    var ok;
    ok, copied, ignored := MirrorTree(host, s, t);
    if !ok {
      DropTemp(old(host.temps), TempDir([], []), host.temps, t);
      host.RemoveTree(t);
      assert host.tempLog == old(host.tempLog) + [Created(t), Removed(t)];
      return None, copied, ignored;
    }
    assert [] + Walk(s, host.root).made == Walk(s, host.root).made;
    assert [] + Walk(s, host.root).copied == Walk(s, host.root).copied;
    temp := Some(t);
  }
}
