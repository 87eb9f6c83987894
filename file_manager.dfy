/**
 * The binary's event loop: the key dispatch on the input mode, the file
 * preview held in the loop's own variables, and the rule by which the right
 * panel shows the error instead of the preview.
 */
module Controller {
  import opened Wrappers
  import opened Fs
  import opened Lists
  import opened Session

  /** The key codes the dispatch distinguishes; `Other` stands for every remaining one. */
  datatype Key = Char(c: char) | Left | Right | Up | Down | Enter | Backspace | Esc | Other

  /** How handling one key leaves the event loop. */
  datatype Control =
    | Continue  // the loop goes on
    | Quit      // 'q' in Normal mode: the loop breaks
    | Abandon   // a file could not be opened: `main` returns at once
    | Panic     // an `unwrap`, an index or a `len() - 1` in the source panics

  /** The right panel's text: the error when there is one, the preview otherwise. */
  function Panel(error: Option<string>, preview: string): (r: string)
    ensures error.Some? ==> r == error.value
    ensures error.None? ==> r == preview
  {
    match error
    case Some(message) => message
    case None => preview
  }

  /** The message recorded when opening or reading `path` fails. */
  function OpenError(path: Path, cause: string): (r: string)
    ensures |r| == 16 + |Display(path)| + |cause|
    ensures r[..14] == "couldn't open " && r[14..14 + |Display(path)|] == Display(path)
    ensures r[14 + |Display(path)|..16 + |Display(path)|] == ": " && r[16 + |Display(path)|..] == cause
  {
    var lead: string := "couldn't open ";
    var shown := Display(path);
    var r := lead + shown + ": " + cause;
    assert |lead| == 14 && r == lead + (shown + (": " + cause));
    assert r[14..] == shown + (": " + cause);
    assert r[14..14 + |shown|] == shown;
    r
  }

  /**
   * The effect of opening `path` (file name `name`) on the loop outcome, the
   * error and the preview. A failed open records the error and ends the
   * session; a failed read records the error after the preview buffer was
   * emptied; the file name is shown whenever the open succeeded.
   */
  ghost predicate Opened(fs: FileSystem, path: Path, name: string, priorFile: string, priorName: string,
                         control: Control, error: Option<string>, file: string, fileName: string)
  {
    match ReadFile(fs, path)
    case Unopenable(cause) =>
      control == Abandon && error == Some(OpenError(path, cause)) && file == priorFile && fileName == priorName
    case Unreadable(cause) =>
      control == Continue && error == Some(OpenError(path, cause)) && file == "" && fileName == name
    case Contents(text) =>
      control == Continue && error == None && file == text && fileName == name
  }

  /** The keys Normal mode acts on; every other key leaves the state as it is. */
  predicate IsNormalCommand(key: Key)
  {
    key in {Char('q'), Char('n'), Left, Right, Up, Down, Enter}
  }

  /** The session driven by `main`: the app, the filesystem it acts on, and the preview's text and name. */
  class Browser {
    const app: App
    var fs: FileSystem
    var currFile: string
    var currFileName: string

    ghost predicate Valid()
      reads this, app, app.list
    {
      app.Valid() && WellFormed(fs) && app.list.currDir in fs.dirs
    }

    /** `App::new` followed by selecting index 0, with an empty preview. */
    constructor Start(home: Path, fs: FileSystem)
      requires WellFormed(fs) && home in fs.dirs
      ensures Valid() && this.fs == fs && fresh(app) && fresh(app.list)
      ensures app.list.currDir == home && app.list.items == fs.dirs[home] && app.list.selected == Some(0)
      ensures app.error == None && app.inputMode == Normal && app.input == ""
      ensures !app.showPopup && app.callback == None
      ensures currFile == "" && currFileName == ""
    {
      app := new App.New(home, fs);
      this.fs := fs;
      currFile := "";
      currFileName := "";
      new;
      app.list.Select(Some(0));
    }

    /** Opens the selected regular file `entry` into the preview. */
    method OpenSelected(entry: Entry) returns (control: Control)
      requires Valid() && entry.path != []
      modifies this, app
      ensures Valid() && unchanged(app.list) && fs == old(fs)
      ensures app.inputMode == old(app.inputMode) && app.input == old(app.input)
      ensures app.showPopup == old(app.showPopup) && app.callback == old(app.callback)
      ensures Opened(fs, ChildOf(app.list.currDir, entry), FileName(entry), old(currFile), old(currFileName),
                     control, app.error, currFile, currFileName)
      ensures control == Continue ==>
        Panel(app.error, currFile) == match ReadFile(fs, ChildOf(app.list.currDir, entry))
          case Contents(text) => text
          case Unreadable(cause) => OpenError(ChildOf(app.list.currDir, entry), cause)
          case Unopenable(cause) => OpenError(ChildOf(app.list.currDir, entry), cause)
    {
      app.error := None;
      var path := ChildOf(app.list.currDir, entry);
      match ReadFile(fs, path) {
        case Unopenable(cause) =>
          app.error := Some(OpenError(path, cause));
          return Abandon;
        case Unreadable(cause) =>
          currFile := "";
          app.error := Some(OpenError(path, cause));
        case Contents(text) =>
          currFile := "";
          currFile := currFile + text;
      }
      currFileName := FileName(entry);
      return Continue;
    }

    /** One key event, dispatched on the input mode. */
    method HandleKey(key: Key) returns (control: Control)
      requires Valid()
      modifies this, app, app.list
      ensures Valid()
      // the loop ends only on 'q' in Normal mode, a failed open or a panic
      ensures control == Quit <==> old(app.inputMode) == Normal && key == Char('q')
      ensures old(app.inputMode) == Editing ==> control == Continue
      ensures control == Quit ==> app.inputMode == Normal
      ensures control == Abandon ==> app.error.Some?
      ensures fs != old(fs) ==> old(app.inputMode) == Editing && key == Enter
      // Normal mode
      ensures old(app.inputMode) == Normal && !IsNormalCommand(key) ==>
        control == Continue && unchanged(this, app, app.list)
      ensures old(app.inputMode) == Normal && key == Char('q') ==> unchanged(this, app, app.list)
      ensures old(app.inputMode) == Normal && key == Left ==>
        if Pop(old(app.list.currDir)) !in old(fs.dirs) then
          control == Panic && unchanged(this, app, app.list)
        else
          && control == Continue && unchanged(this, app)
          && WentBack(fs, old(app.list.currDir), old(app.list.selected),
                      app.list.currDir, app.list.items, app.list.selected)
      ensures old(app.inputMode) == Normal && key == Down ==>
        if old(app.list.selected).Some? && |old(app.list.items)| == 0 then
          control == Panic && unchanged(this, app, app.list)
        else
          && control == Continue && unchanged(this, app)
          && app.list.items == old(app.list.items) && app.list.currDir == old(app.list.currDir)
          && app.list.selected == Some(NextIndex(old(app.list.selected), |app.list.items|))
      ensures old(app.inputMode) == Normal && key == Up ==>
        if old(app.list.selected) == Some(0) && |old(app.list.items)| == 0 then
          control == Panic && unchanged(this, app, app.list)
        else
          && control == Continue && unchanged(this, app)
          && app.list.items == old(app.list.items) && app.list.currDir == old(app.list.currDir)
          && app.list.selected == Some(PrevIndex(old(app.list.selected), |app.list.items|))
      ensures old(app.inputMode) == Normal && (key == Enter || key == Right) ==>
        if old(app.list.selected).None? || old(app.list.selected).value >= |old(app.list.items)| then
          control == Panic && unchanged(this, app, app.list)
        else
          var entry := old(app.list.items)[old(app.list.selected).value];
          entry.path != [] &&
          if entry.isFile then
            && unchanged(app.list) && fs == old(fs)
            && app.inputMode == Normal && app.input == old(app.input)
            && app.showPopup == old(app.showPopup) && app.callback == old(app.callback)
            && Opened(fs, ChildOf(app.list.currDir, entry), FileName(entry), old(currFile), old(currFileName),
                      control, app.error, currFile, currFileName)
          else
            && control == Continue && unchanged(this, app)
            && WentInto(fs, old(app.list.currDir), entry, old(app.list.selected),
                        app.list.currDir, app.list.items, app.list.selected)
      ensures old(app.inputMode) == Normal && key == Char('n') ==>
        && control == Continue && unchanged(this, app.list)
        && app.showPopup && app.inputMode == Editing
        && app.callback == Some(CreateFolder(app.list.currDir))
        && app.error == old(app.error) && app.input == old(app.input)
      // Editing mode
      ensures old(app.inputMode) == Editing && key == Enter ==>
        && fs == Perform(old(app.callback).value, old(app.input), old(fs))
        && currFile == old(currFile) && currFileName == old(currFileName) && unchanged(app.list)
        && app.inputMode == Normal && !app.showPopup
        && app.input == old(app.input) && app.callback == old(app.callback) && app.error == old(app.error)
      ensures old(app.inputMode) == Editing && key.Char? ==>
        && unchanged(this, app.list)
        && app.input == old(app.input) + [key.c]
        && app.inputMode == Editing && app.showPopup == old(app.showPopup)
        && app.callback == old(app.callback) && app.error == old(app.error)
      ensures old(app.inputMode) == Editing && key == Backspace ==>
        && unchanged(this, app.list)
        && app.input == (if old(app.input) == "" then "" else old(app.input)[..|old(app.input)| - 1])
        && app.inputMode == Editing && app.showPopup == old(app.showPopup)
        && app.callback == old(app.callback) && app.error == old(app.error)
      ensures old(app.inputMode) == Editing && key == Esc ==>
        && unchanged(this, app.list)
        && app.inputMode == Normal && !app.showPopup
        && app.input == old(app.input) && app.callback == old(app.callback) && app.error == old(app.error)
      ensures old(app.inputMode) == Editing && !(key.Char? || key in {Enter, Backspace, Esc}) ==>
        unchanged(this, app, app.list)
    {
      match app.inputMode {
        case Normal =>
          match key {
            case Char('q') =>
              return Quit;
            case Left =>
              if Pop(app.list.currDir) !in fs.dirs {
                return Panic;
              }
              app.GoBack(fs);
            case Down =>
              if app.list.selected.Some? && |app.list.items| == 0 {
                return Panic;
              }
              app.list.Next();
            case Up =>
              if app.list.selected == Some(0) && |app.list.items| == 0 {
                return Panic;
              }
              app.list.Previous();
            case Enter =>
              control := Open();
              return;
            case Right =>
              control := Open();
              return;
            case Char('n') =>
              app.NewFolder();
            case _ =>
          }
        case Editing =>
          match key {
            case Enter =>
              PerformPreservesWellFormed(app.callback.value, app.input, fs);
              fs := Perform(app.callback.value, app.input, fs);
              app.inputMode := Normal;
              app.showPopup := false;
            case Char(c) =>
              app.input := app.input + [c];
            case Backspace =>
              if app.input != "" {
                app.input := app.input[..|app.input| - 1];
              }
            case Esc =>
              app.inputMode := Normal;
              app.showPopup := false;
            case _ =>
          }
      }
      return Continue;
    }

    /** Enter or Right in Normal mode: preview a file, enter anything else. */
    method Open() returns (control: Control)
      requires Valid() && app.inputMode == Normal
      modifies this, app, app.list
      ensures Valid() && fs == old(fs) && control != Quit
      ensures
        if old(app.list.selected).None? || old(app.list.selected).value >= |old(app.list.items)| then
          control == Panic && unchanged(this, app, app.list)
        else
          var entry := old(app.list.items)[old(app.list.selected).value];
          entry.path != [] &&
          if entry.isFile then
            && unchanged(app.list)
            && app.inputMode == Normal && app.input == old(app.input)
            && app.showPopup == old(app.showPopup) && app.callback == old(app.callback)
            && Opened(fs, ChildOf(app.list.currDir, entry), FileName(entry), old(currFile), old(currFileName),
                      control, app.error, currFile, currFileName)
          else
            && control == Continue && unchanged(this, app)
            && WentInto(fs, old(app.list.currDir), entry, old(app.list.selected),
                        app.list.currDir, app.list.items, app.list.selected)
    {
      if app.list.selected.None? || app.list.selected.value >= |app.list.items| {
        return Panic;
      }
      var entry := app.list.items[app.list.selected.value];
      if entry.isFile {
        control := OpenSelected(entry);
      } else {
        app.GoInto(fs);
        control := Continue;
      }
    }

    /**
     * The event loop over a sequence of key events: handles them in order
     * until one ends the session or the events run out.
     */
    method Run(keys: seq<Key>) returns (control: Control, consumed: nat, ghost outcomes: seq<Control>)
      requires Valid()
      modifies this, app, app.list
      ensures Valid() && consumed <= |keys| && |outcomes| == consumed
      // the outcome of each handled key, in order: all but the last let the loop go on
      ensures forall k :: 0 <= k < consumed - 1 ==> outcomes[k] == Continue
      ensures consumed > 0 ==> outcomes[consumed - 1] == control
      ensures forall k :: 0 <= k < consumed && outcomes[k] == Quit ==> keys[k] == Char('q')
      ensures control == Continue ==> consumed == |keys|
      ensures control != Continue ==> consumed > 0
      ensures control == Quit ==> keys[consumed - 1] == Char('q') && app.inputMode == Normal
      ensures control == Abandon ==> app.error.Some?
      ensures (forall k :: 0 <= k < consumed ==> keys[k] != Enter) ==> fs == old(fs)
    {
      control := Continue;
      consumed := 0;
      outcomes := [];
      while consumed < |keys| && control == Continue
        invariant Valid() && consumed <= |keys| && |outcomes| == consumed
        invariant forall k :: 0 <= k < consumed - 1 ==> outcomes[k] == Continue
        invariant consumed > 0 ==> outcomes[consumed - 1] == control
        invariant forall k :: 0 <= k < consumed && outcomes[k] == Quit ==> keys[k] == Char('q')
        invariant control != Continue ==> consumed > 0
        invariant control == Quit ==> keys[consumed - 1] == Char('q') && app.inputMode == Normal
        invariant control == Abandon ==> app.error.Some?
        invariant (forall k :: 0 <= k < consumed ==> keys[k] != Enter) ==> fs == old(fs)
      {
        control := HandleKey(keys[consumed]);
        outcomes := outcomes + [control];
        consumed := consumed + 1;
      }
    }
  }

  /**
   * `main` without the terminal: starts a session at `home` and runs it over
   * the key events.
   */
  method RunFrom(home: Path, fs: FileSystem, keys: seq<Key>) returns (control: Control, consumed: nat)
    requires WellFormed(fs) && home in fs.dirs
    ensures consumed <= |keys|
    ensures control == Continue ==> consumed == |keys|
    ensures control != Continue ==> consumed > 0
    ensures control == Quit ==> keys[consumed - 1] == Char('q')
  {
    var browser := new Browser.Start(home, fs);
    ghost var outcomes;
    control, consumed, outcomes := browser.Run(keys);
  }
}
