/**
 * Loading the .dockerignore file and asking whether a path is ignored
 * (docker-build-cli.py:82-108).
 *
 * The gitwildmatch matcher that the pathspec library compiles from the file's
 * lines is not modelled: a compiled specification is an arbitrary `Matcher`,
 * a predicate on a path given as its components relative to the build
 * context, and the compiler is a parameter that may also reject the text.
 */
module Ignore {
  import opened Wrappers

  /** A relative path, as its components ("src/main.py" is ["src", "main.py"]). */
  type Path = seq<string>

  /** What `spec.match_file(str(rel_path))` answers for a relative path. */
  type Matcher = Path -> bool

  /** A path as pathlib sees it: absolute ("/home/u/app") or relative ("src"). */
  datatype FsPath = FsPath(absolute: bool, parts: seq<string>)

  /** The state of ".dockerignore" in the working directory. */
  datatype IgnoreFile =
    | Absent                 // Path.exists() is false
    | Unreadable             // read_text() raises
    | Present(text: string)  // the file's text

  datatype PathError = NotRelative   // pathlib's ValueError from relative_to

  /**
   * load_dockerignore: no file, a file that cannot be read, or text the
   * matcher compiler rejects all give "no specification" (None), which the
   * rest of the program reads as "ignore nothing".
   */
  function LoadDockerignore(file: IgnoreFile, compile: string -> Option<Matcher>): (spec: Option<Matcher>)
    ensures spec.None? <==> (file.Absent? || file.Unreadable? || compile(file.text).None?)
    ensures spec.Some? ==> file.Present? && spec == compile(file.text)
  {
    match file
    case Absent => None
    case Unreadable => None
    case Present(text) => compile(text)
  }

  /**
   * pathlib's `PurePath.relative_to`: defined only when both paths are of the
   * same kind (both absolute or both relative) and `base` is a prefix of `p`.
   */
  function RelativeTo(p: FsPath, base: FsPath): (r: Option<Path>)
    ensures r.Some? <==> p.absolute == base.absolute && base.parts <= p.parts
    ensures r.Some? ==> base.parts + r.value == p.parts
  {
    if p.absolute == base.absolute && base.parts <= p.parts
    then Some(p.parts[|base.parts|..])
    else None
  }

  /**
   * should_ignore_path exactly as written: with no specification nothing is
   * ignored; otherwise the path is made relative to the absolute working
   * directory `cwd` before it is matched, and that step raises when the path
   * is not under `cwd`, in particular when the path is itself relative.
   */
  function ShouldIgnorePath(spec: Option<Matcher>, p: FsPath, cwd: seq<string>): (r: Result<bool, PathError>)
    ensures spec.None? ==> r == Ok(false)
    ensures r.Err? <==> spec.Some? && !(p.absolute && cwd <= p.parts)
    ensures spec.Some? && r.Ok? ==> r.value == spec.value(p.parts[|cwd|..])
  {
    if spec.None? then Ok(false)
    else match RelativeTo(p, FsPath(true, cwd))
      case None => Err(NotRelative)
      case Some(rel) => Ok(spec.value(rel))
  }

  /**
   * The decision the build-context walk evidently intends: a path relative
   * to the context root is ignored exactly when a specification exists and
   * matches it.
   */
  predicate Ignored(spec: Option<Matcher>, rel: Path) {
    spec.Some? && spec.value(rel)
  }

  /** Without a specification no path, of any kind, is ignored. */
  lemma NoSpecIgnoresNothing(p: FsPath, cwd: seq<string>)
    ensures ShouldIgnorePath(None, p, cwd) == Ok(false)
    ensures !Ignored(None, p.parts)
  {
  }

  /**
   * A path anchored at the working directory is decided by the matcher on
   * its part below the working directory.
   */
  lemma AnchoredPathIsMatched(spec: Option<Matcher>, cwd: seq<string>, rel: Path)
    ensures ShouldIgnorePath(spec, FsPath(true, cwd + rel), cwd) == Ok(Ignored(spec, rel))
  {
    var r := RelativeTo(FsPath(true, cwd + rel), FsPath(true, cwd));
    assert cwd <= cwd + rel;
    assert r.Some? && r.value == rel;
  }

  /**
   * The paths os.walk('.') hands out are relative ("src", "src/main.py"), so
   * once a specification exists every call raises instead of answering.
   */
  lemma RelativePathRaises(m: Matcher, rel: Path, cwd: seq<string>)
    ensures ShouldIgnorePath(Some(m), FsPath(false, rel), cwd) == Err(NotRelative)
  {
  }
}
