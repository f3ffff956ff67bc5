/**
 * The part of the filesystem a responder sees: a map from paths (sequences
 * of components) to entries, with opening for reading and reading to the
 * end as on a POSIX system.
 */
module FileSystem {
  import opened Wrappers

  newtype byte = x: int | 0 <= x < 256

  type Path = seq<string>

  /**
   * What a path can name. `Unreadable` is an entry that `open` refuses for
   * lack of read permission; `isDirectory` records whether it is a directory,
   * whose entries may still be reachable (search permission without read
   * permission).
   */
  datatype Entry = Regular(bytes: seq<byte>) | Directory | Unreadable(isDirectory: bool)

  type FileTree = map<Path, Entry>

  datatype IoError = NotFound | PermissionDenied | IsADirectory

  /** `OpenOptions::new().read(true).open(path)`: a directory opens too, as on POSIX. */
  function Open(fs: FileTree, path: Path): (r: Result<Entry, IoError>)
    ensures r.Ok? <==> path in fs && !fs[path].Unreadable?
    ensures r.Ok? ==> r.value == fs[path]
    ensures r == Err(NotFound) <==> path !in fs
  {
    if path !in fs then Err(NotFound)
    else if fs[path].Unreadable? then Err(PermissionDenied)
    else Ok(fs[path])
  }

  /** `read_to_end` on an opened entry: all the bytes of a file; a directory cannot be read. */
  function ReadToEnd(file: Entry): (r: Result<seq<byte>, IoError>)
    requires !file.Unreadable?
    ensures r.Ok? <==> file.Regular?
    ensures r.Ok? ==> r.value == file.bytes
  {
    match file
    case Regular(bytes) => Ok(bytes)
    case Directory => Err(IsADirectory)
  }

  /** An entry that other entries can sit below: a directory, readable or not. */
  predicate IsContainer(e: Entry) {
    e.Directory? || (e.Unreadable? && e.isDirectory)
  }

  predicate StrictlyBelow(q: Path, p: Path) {
    |p| < |q| && q[..|p|] == p
  }

  /**
   * A tree as a real filesystem keeps it: every entry deeper than one
   * component sits in a directory, readable or not, that is itself an entry.
   */
  predicate IsTree(fs: FileTree) {
    forall q :: q in fs && |q| > 1 ==> q[..|q| - 1] in fs && IsContainer(fs[q[..|q| - 1]])
  }

  /** Nothing exists below a path that is missing or is not a directory of any kind. */
  lemma {:induction false} NothingBelowNonDirectory(fs: FileTree, p: Path, q: Path)
    requires IsTree(fs)
    requires |p| >= 1 && (p !in fs || !IsContainer(fs[p]))
    requires StrictlyBelow(q, p)
    ensures q !in fs
    decreases |q|
  {
    var parent := q[..|q| - 1];
    if |parent| > |p| {
      assert parent[..|p|] == q[..|p|];
      NothingBelowNonDirectory(fs, p, parent);
    } else {
      assert parent == q[..|p|];
    }
  }
}
