/**
 * The directory session: the application state the key handler works on,
 * with the two directory transitions (back to the parent, into the selected
 * entry) and the start of folder creation.
 */
module Session {
  import opened Wrappers
  import opened Fs
  import opened Lists

  datatype InputMode = Normal | Editing

  /** The action waiting for the text typed in the popup; it holds the directory captured when it was set. */
  datatype PendingAction = CreateFolder(dir: Path)

  /**
   * Runs a pending action on the submitted text: creates `dir/name`. A
   * failed creation is swallowed and leaves the filesystem as it was.
   */
  function Perform(action: PendingAction, name: string, fs: FileSystem): (r: FileSystem)
    ensures CreateDir(fs, Push(action.dir, name)).None? ==> r == fs
    ensures CreateDir(fs, Push(action.dir, name)).Some? ==>
      Push(action.dir, name) in r.dirs && r.dirs[Push(action.dir, name)] == [] && r.files == fs.files
  {
    match CreateDir(fs, Push(action.dir, name))
    case Some(created) => created
    case None => fs
  }

  lemma PerformPreservesWellFormed(action: PendingAction, name: string, fs: FileSystem)
    requires WellFormed(fs)
    ensures WellFormed(Perform(action, name, fs))
  {
  }

  /** `i` is the first index of `items` whose path is `target`. */
  ghost predicate IsFirst(items: seq<Entry>, target: Path, i: nat)
  {
    i < |items| && items[i].path == target && forall j :: 0 <= j < i ==> items[j].path != target
  }

  ghost predicate Absent(items: seq<Entry>, target: Path)
  {
    forall j :: 0 <= j < |items| ==> items[j].path != target
  }

  /**
   * The selection after coming back from `from` into a listing: the first
   * entry whose path is `from`, and the previous selection, untouched, when
   * there is none.
   */
  ghost predicate Restored(items: seq<Entry>, from: Path, before: Option<nat>, after: Option<nat>)
  {
    if Absent(items, from) then after == before else after.Some? && IsFirst(items, from, after.value)
  }

  /** The session state after `go_back` from `from`. */
  ghost predicate WentBack(fs: FileSystem, from: Path, before: Option<nat>,
                           dir: Path, items: seq<Entry>, after: Option<nat>)
  {
    dir == Pop(from) && dir in fs.dirs && items == fs.dirs[dir] && Restored(items, from, before, after)
  }

  /** The directory `go_into` tries to enter: the current one joined with the entry's file name. */
  function ChildOf(dir: Path, e: Entry): (r: Path)
    requires e.path != []
    ensures Pop(r) == dir && r != [] && Last(r) == FileName(e)
  {
    Push(dir, FileName(e))
  }

  /**
   * The session state after `go_into` on `entry` from `from`: the child's
   * listing with index 0 selected when it can be listed, otherwise the state
   * `go_back` leaves from the child, which is back in `from`.
   */
  ghost predicate WentInto(fs: FileSystem, from: Path, entry: Entry, before: Option<nat>,
                           dir: Path, items: seq<Entry>, after: Option<nat>)
    requires entry.path != []
  {
    var child := ChildOf(from, entry);
    if child in fs.dirs then
      dir == child && items == fs.dirs[child] && after == Some(0)
    else
      dir == from && WentBack(fs, child, before, dir, items, after)
  }

  /**
   * The search loop of `go_back`: the first index whose path is `target`,
   * or `None` when no entry has it.
   */
  method FindEntry(items: seq<Entry>, target: Path) returns (found: Option<nat>)
    ensures found.Some? ==> IsFirst(items, target, found.value)
    ensures found.None? ==> Absent(items, target)
  {
    var i := 0;
    while i < |items|
      invariant i <= |items|
      invariant forall j :: 0 <= j < i ==> items[j].path != target
    {
      if items[i].path == target {
        return Some(i);
      }
      i := i + 1;
    }
    return None;
  }

  /**
   * Under a well-formed filesystem, entering the `i`-th entry of a fresh
   * listing names exactly that entry's path, and coming back from it
   * selects `i` again whatever was selected before.
   */
  lemma FailedDescentReselects(fs: FileSystem, dir: Path, i: nat)
    requires WellFormed(fs) && dir in fs.dirs && i < |fs.dirs[dir]|
    ensures fs.dirs[dir][i].path != [] && ChildOf(dir, fs.dirs[dir][i]) == fs.dirs[dir][i].path
    ensures forall before: Option<nat>, after: Option<nat> ::
      Restored(fs.dirs[dir], ChildOf(dir, fs.dirs[dir][i]), before, after) <==> after == Some(i)
  {
  }

  /** Every listed entry has a file name. */
  ghost predicate Named(items: seq<Entry>)
  {
    forall i :: 0 <= i < |items| ==> items[i].path != []
  }

  lemma ListingsAreNamed(fs: FileSystem, dir: Path)
    requires WellFormed(fs) && dir in fs.dirs
    ensures Named(fs.dirs[dir])
  {
  }

  /** `App`: the list, the last error, the input mode and buffer, the popup flag and the pending action. */
  class App {
    const list: StatefulList<Entry>
    var error: Option<string>
    var inputMode: InputMode
    var input: string
    var showPopup: bool
    var callback: Option<PendingAction>

    /** Entries have file names, and Editing mode always has an action to run. */
    ghost predicate Valid()
      reads this, list
    {
      Named(list.items) && (inputMode == Editing ==> callback.Some?)
    }

    /** `App::new`, with the start directory as a parameter; listing it must succeed. */
    constructor New(home: Path, fs: FileSystem)
      requires WellFormed(fs) && home in fs.dirs
      ensures Valid() && fresh(list)
      ensures list.currDir == home && list.items == fs.dirs[home] && list.selected == None
      ensures error == None && inputMode == Normal && input == "" && !showPopup && callback == None
    {
      ListingsAreNamed(fs, home);
      list := new StatefulList.WithItems(fs.dirs[home], home);
      error := None;
      inputMode := Normal;
      input := "";
      showPopup := false;
      callback := None;
    }

    /** Lists the parent of the current directory and reselects the entry we came from. */
    method GoBack(fs: FileSystem)
      requires Valid() && WellFormed(fs) && Pop(list.currDir) in fs.dirs
      modifies list
      ensures Valid()
      ensures WentBack(fs, old(list.currDir), old(list.selected), list.currDir, list.items, list.selected)
    {
      var pathBefore := list.currDir;
      list.currDir := Pop(list.currDir);
      var content := ReadDir(fs, list.currDir);
      list.items := content.value;
      ListingsAreNamed(fs, list.currDir);
      var found := FindEntry(list.items, pathBefore);
      if found.Some? {
        list.Select(found);
      }
    }

    /**
     * Enters the selected entry. The current directory is set to the child
     * before listing it, so when listing fails `GoBack` returns to the
     * original directory.
     */
    method GoInto(fs: FileSystem)
      requires Valid() && WellFormed(fs) && list.currDir in fs.dirs
      requires list.selected.Some? && list.selected.value < |list.items|
      modifies list
      ensures Valid()
      ensures WentInto(fs, old(list.currDir), old(list.items)[old(list.selected).value], old(list.selected),
                       list.currDir, list.items, list.selected)
    {
      var entry := list.items[list.selected.value];
      list.currDir := Push(list.currDir, FileName(entry));
      match ReadDir(fs, list.currDir)
      case None =>
        GoBack(fs);
      case Some(content) =>
        list.items := content;
        ListingsAreNamed(fs, list.currDir);
        list.Select(Some(0));
    }

    /** Opens the popup and captures the current directory as where the folder will be made. */
    method NewFolder()
      requires Valid()
      modifies this
      ensures Valid()
      ensures showPopup && inputMode == Editing && callback == Some(CreateFolder(list.currDir))
      ensures error == old(error) && input == old(input)
    {
      showPopup := true;
      inputMode := Editing;
      callback := Some(CreateFolder(list.currDir));
    }
  }
}
