/**
 * The filesystem as the browser sees it. It is an oracle value, not the host
 * filesystem: a map from directory paths to their listings and a map from
 * file paths to what opening and reading them yields. Paths are sequences of
 * components, with the root as the empty sequence.
 */
module Fs {
  import opened Wrappers

  type Path = seq<string>

  /** The last component of a non-root path (`Path::file_name`). */
  function Last(p: Path): string
    requires p != []
  {
    p[|p| - 1]
  }

  /** `PathBuf::pop`: drops the last component; at the root it does nothing. */
  function Pop(p: Path): (r: Path)
    ensures p == [] ==> r == []
    ensures p != [] ==> |r| + 1 == |p| && r + [Last(p)] == p
  {
    if p == [] then [] else p[..|p| - 1]
  }

  /** `PathBuf::push` of one component; `Pop` undoes it. */
  function Push(p: Path, name: string): (r: Path)
    ensures r != [] && Pop(r) == p && Last(r) == name
  {
    p + [name]
  }

  /** Rendering of a path as `Path::display` would show it, with `/` as separator. */
  function Display(p: Path): string
  {
    if p == [] then "/" else Join(p)
  }

  function Join(p: Path): string
  {
    if p == [] then "" else "/" + p[0] + Join(p[1..])
  }

  /** A directory entry as `read_dir` yields it: its full path and whether it is a regular file. */
  datatype Entry = Entry(path: Path, isFile: bool)

  function FileName(e: Entry): string
    requires e.path != []
  {
    Last(e.path)
  }

  /** What opening and reading a file to a string yields. */
  datatype FileState =
    | Contents(text: string)     // opened and read as text
    | Unreadable(cause: string)  // opened, but reading fails (e.g. not UTF-8)
    | Unopenable(cause: string)  // `File::open` fails

  /**
   * `dirs` holds the directories that can be listed, `files` what reading a
   * file yields, and `locked` the directories in which nothing can be
   * created (no write permission, a read-only mount).
   */
  datatype FileSystem = FileSystem(dirs: map<Path, seq<Entry>>, files: map<Path, FileState>, locked: set<Path>)

  /** The cause reported for a path the filesystem does not hold. */
  const NotFound: string := "No such file or directory (os error 2)"

  /** `read_dir`: the listing of a directory, or `None` when it cannot be listed. */
  function ReadDir(fs: FileSystem, p: Path): Option<seq<Entry>>
  {
    if p in fs.dirs then Some(fs.dirs[p]) else None
  }

  /** `File::open` followed by `read_to_string`. */
  function ReadFile(fs: FileSystem, p: Path): FileState
  {
    if p in fs.files then fs.files[p] else Unopenable(NotFound)
  }

  /** Every entry of a listing is a child of `dir`, and no two entries share a path. */
  ghost predicate IsListingOf(dir: Path, entries: seq<Entry>)
  {
    && (forall i :: 0 <= i < |entries| ==> entries[i].path != [] && Pop(entries[i].path) == dir)
    && (forall i, j :: 0 <= i < j < |entries| ==> entries[i].path != entries[j].path)
  }

  /**
   * The consistency the host filesystem guarantees: every listing holds
   * children of its directory, each once. A listable directory may have a
   * parent that cannot be listed.
   */
  ghost predicate WellFormed(fs: FileSystem)
  {
    forall p :: p in fs.dirs ==> IsListingOf(p, fs.dirs[p])
  }

  /** A single component that `create_dir` could make. */
  predicate ValidName(name: string)
  {
    name != [] && '/' !in name
  }

  /** Whether anything is already known at `p`. */
  predicate Exists(fs: FileSystem, p: Path)
  {
    || p in fs.dirs
    || p in fs.files
    || (Pop(p) in fs.dirs && exists i :: 0 <= i < |fs.dirs[Pop(p)]| && fs.dirs[Pop(p)][i].path == p)
  }

  /**
   * `create_dir`: makes an empty directory at `p` when its parent is a
   * directory that accepts new entries and nothing exists there yet; the new
   * directory is listed last in its parent.
   */
  function CreateDir(fs: FileSystem, p: Path): (r: Option<FileSystem>)
    ensures r.Some? ==> p != [] && ValidName(Last(p)) && Pop(p) in fs.dirs && Pop(p) !in fs.locked && !Exists(fs, p)
    ensures r.None? ==>
      p == [] || !ValidName(Last(p)) || Pop(p) !in fs.dirs || Pop(p) in fs.locked || Exists(fs, p)
    ensures r.Some? ==>
      && r.value.files == fs.files && r.value.locked == fs.locked
      && r.value.dirs.Keys == fs.dirs.Keys + {p}
      && r.value.dirs[p] == []
      && r.value.dirs[Pop(p)] == fs.dirs[Pop(p)] + [Entry(p, false)]
      && (forall q :: q in fs.dirs && q != Pop(p) ==> r.value.dirs[q] == fs.dirs[q])
  {
    if p != [] && ValidName(Last(p)) && Pop(p) in fs.dirs && Pop(p) !in fs.locked && !Exists(fs, p) then
      var parent := Pop(p);
      Some(FileSystem(fs.dirs[p := []][parent := fs.dirs[parent] + [Entry(p, false)]], fs.files, fs.locked))
    else
      None
  }

  /** Creating a directory keeps the filesystem well formed. */
  lemma CreateDirPreservesWellFormed(fs: FileSystem, p: Path)
    requires WellFormed(fs) && CreateDir(fs, p).Some?
    ensures WellFormed(CreateDir(fs, p).value)
  {
  }
}
