# file_manager: navigation and interaction state machine

A Dafny model of the core of a small terminal file browser written in Rust. It
covers:

- the selectable list with a wraparound cursor (`StatefulList`);
- the directory session (`App`): going back to the parent, going into the
  selected entry, and starting folder creation;
- the binary's key dispatch on the two input modes Normal and Editing, with
  the file preview and the rule that an error replaces the preview.

The filesystem is an oracle value (`Fs.FileSystem`). It maps directory paths
to their listings and file paths to what opening and reading them yields.
Paths are sequences of components, and the root is the empty sequence.
Folder creation is the only operation that changes the oracle.

Modules, one per source component:

- `Wrappers` (wrappers.dfy): `Option`.
- `Fs` (fs.dfy): paths, entries, the oracle, `create_dir`, and `WellFormed`.
  The oracle's `dirs` are the directories that can be listed, and `locked`
  are the directories where creation is refused. `WellFormed` is the
  consistency a real filesystem has: every entry of a listing is a child of
  that directory, and no two entries share a path. A listable directory may
  have a parent that cannot be listed.
- `Lists` (stateful_list.dfy): `StatefulList<T>` from src/main.rs, and the
  cursor functions `NextIndex`/`PrevIndex` its methods are specified by.
- `Session` (app.dfy): `App` from src/app.rs (src/main.rs:45-126 holds an
  identical copy), and the pending action as the datatype `CreateFolder(dir)`.
- `Controller` (file_manager.dfy): the `main` loop of src/bin/file_manager.rs
  as the class `Browser`. It holds the app, the filesystem, and the loop's
  preview variables `curr_file` and `curr_file_name`. src/main.rs:262-316 is
  the same dispatch, except that `'q'` returns from `main` instead of
  breaking out of the loop.

The start directory (a static in the source) is a constructor parameter. A
source `unwrap`, index or `len() - 1` that can panic becomes a `requires` on
the `App` and `StatefulList` methods. The key dispatch is total instead: it
returns `Panic` where the source would panic, and leaves the state alone.

The model follows the code where its behaviour is easy to mistake:

- `next` panics on an empty list when something is selected, and `previous`
  only from index 0 (usize underflow in a debug build). Otherwise they select
  an index even on an empty list, instead of doing nothing.
- Left panics when the parent directory cannot be listed (`read_dir(..).unwrap()`).
- Submitting or cancelling the popup clears neither `input` nor the pending
  action.
- A failed `File::open` ends the session (`Abandon`) instead of only
  recording the error.
- A failed read leaves the preview empty, because it was cleared before
  reading.
- A failed descent records no error, although the source's comment says it
  shows one: `go_into` only calls `go_back`, and `error` is left as it was.
- A failed descent returns to the original directory, because `curr_dir` is
  set to the child before the listing is tried. When the listing is current,
  the failed entry is selected again (`FailedDescentReselects`).

## Model

| member | source | states |
|---|---|---|
| `Fs.Pop` | src/app.rs:39-42 | Drops the last component, so the result plus that component is the input. The root stays the root. |
| `Fs.Push` | src/app.rs:61-67 | Appending a name gives a non-root path whose parent is the old path and whose file name is the name. |
| `Fs.CreateDir` | src/app.rs:89-97 | `create_dir` succeeds only for a valid name under a listable parent that accepts new entries (not `locked`) and where nothing exists yet. On success it adds exactly one empty directory, listed last in its parent, and changes nothing else. |
| `Fs.CreateDirPreservesWellFormed` | src/app.rs:89-97 | Creating a directory keeps the filesystem well formed. |
| `Lists.NextIndex` | src/main.rs:137-149 | From no selection `next` selects 0. With a non-empty list the result is always in range, even from a stale index. It needs a non-empty list whenever something is selected (`len() - 1`). |
| `Lists.PrevIndex` | src/main.rs:151-163 | The result of `previous` is in range exactly when there was no selection (non-empty list) or the old index was at most `len`. It needs a non-empty list only from index 0. |
| `Lists.PreviousAfterNext` | src/main.rs:137-163 | `previous` after `next` restores any in-range index. |
| `Lists.NextAfterPrevious` | src/main.rs:137-163 | `next` after `previous` restores any in-range index. |
| `Lists.AdvanceSteps` | src/main.rs:137-149 | `k <= len` presses of `next` from `i` reach `i + k`, wrapped once past the end. |
| `Lists.FullCycle` | src/main.rs:137-149 | `len` presses of `next` return any in-range selection, `Some(0)` included, to itself. |
| `Lists.AdvanceFromNone` | src/main.rs:137-149 | From no selection, `k + 1` presses equal `k` presses from `Some(0)`. |
| `Lists.StatefulList.WithItems` | src/main.rs:129-135 | A new list holds the given items and directory, with nothing selected. |
| `Lists.StatefulList.Select` | src/main.rs:148 | Sets the selection and changes nothing else. |
| `Lists.StatefulList.Next` | src/main.rs:137-149 | The selection becomes `NextIndex` of the old one and lies in range on a non-empty list. Items and directory are unchanged. |
| `Lists.StatefulList.Previous` | src/main.rs:151-163 | The selection becomes `PrevIndex` of the old one. Items and directory are unchanged. |
| `Lists.StatefulList.Unselect` | src/main.rs:165-167 | The selection becomes `None`. Items and directory are unchanged. |
| `Session.Perform` | src/app.rs:89-99 | The pending action creates `dir/name` under the captured directory. A failed creation leaves the filesystem unchanged. |
| `Session.PerformPreservesWellFormed` | src/app.rs:89-99 | Running the pending action keeps the filesystem well formed. |
| `Session.ChildOf` | src/app.rs:61-67 | The directory `go_into` tries is a child of the current one: popping it gives the current directory back. |
| `Session.FindEntry` | src/app.rs:50-57 | The counter loop of `go_back` returns the first index whose path equals the target, or `None` when no entry has that path. |
| `Session.FailedDescentReselects` | src/app.rs:67-74 | Under a well-formed filesystem, the child path `go_into` builds for entry `i` is that entry's own path. Coming back from it selects exactly `i`, whatever was selected before. |
| `Session.App.New` | src/app.rs:17-31 | Starts at the given directory with its listing and no selection. Error is `None`, mode is Normal, input is empty, the popup is hidden, and there is no pending action. |
| `Session.App.GoBack` | src/app.rs:38-58 | The directory becomes the parent and the items become the parent's whole listing. The selection becomes the first entry equal to the old directory, or stays unchanged when there is none. Nothing outside the list changes. |
| `Session.App.GoInto` | src/app.rs:60-83 | If the selected entry's child path can be listed, it becomes the directory, its listing the items, and `Some(0)` the selection (even on an empty listing). Otherwise the result is what `go_back` from the child gives: back in the original directory. |
| `Session.App.NewFolder` | src/app.rs:85-100 | Shows the popup, enters Editing, and captures the current directory in `CreateFolder`. Error and input are untouched. |
| `Controller.OpenError` | src/bin/file_manager.rs:148-167 | The error message, built the same way for a failed open (lines 150-154) and a failed read (lines 162-166), is exactly `couldn't open `, then the displayed path, then `: `, then the cause. |
| `Controller.Panel` | src/bin/file_manager.rs:43-45 | The right panel shows the error whenever there is one, and the preview otherwise. |
| `Controller.Browser.Start` | src/bin/file_manager.rs:114-121 | `App::new` followed by selecting `Some(0)`, with an empty preview and preview name. The app and its list are new objects, so the caller may run the session. |
| `Controller.RunFrom` | src/bin/file_manager.rs:114-211 | `main` without the terminal: a session started at the home directory runs over the events. It stops early only on a non-`Continue` outcome, and a quit is caused by a `'q'`. |
| `Controller.Browser.OpenSelected` | src/bin/file_manager.rs:139-177 | Opening a file clears the error first. A failed open records `couldn't open <path>: <cause>` and ends the session. A failed read records that error with an empty preview. A successful read shows the text with the error cleared. After a read the file name is shown, and the panel shows the new error or the new text. |
| `Controller.Browser.Open` | src/bin/file_manager.rs:137-181 | Enter/Right with no valid selection panics. On a file it previews the file; on anything else it runs `go_into`. The filesystem is unchanged. |
| `Controller.Browser.HandleKey` | src/bin/file_manager.rs:131-203 | The loop ends only on `'q'` in Normal mode, a failed open (which leaves an error recorded) or a panic. Normal mode: Left goes back (panicking when the parent cannot be listed), Down/Up move the cursor (panicking on an empty list), Enter/Right open or enter, and `'n'` starts a folder. Any other key changes nothing. Editing mode: characters (`'q'` too) are appended, Backspace drops the last one (a no-op on empty), and Esc leaves without running the action. Enter runs the action on the input. Esc and Enter both return to Normal, hide the popup, and keep the input and the action. Only Enter in Editing mode changes the filesystem. |
| `Controller.Browser.Run` | src/bin/file_manager.rs:122-211 | Handles events in order until one ends the session or the events run out. The ghost trace of per-key outcomes has `Continue` for every handled key but the last, whose outcome is the result. A quit is caused by a `'q'` and ends in Normal mode. An abandoned session has an error recorded. Without an Enter among the handled events, the filesystem is unchanged. |

## Left out

- Terminal setup and teardown, event polling, the tick timer and the empty `on_tick`: I/O and timing. The `Run` loop takes the key events as a sequence.
- Rendering and layout (`ui` apart from the error-over-preview choice, `centered_rect`, styles, splitting the preview into lines): rendering only.
- The host filesystem: replaced by the `Fs.FileSystem` oracle. The oracle records whether an entry is a file when the entry is listed, not when `is_file` is called.
- The order of `read_dir` is whatever the oracle lists. `Fs.CreateDir` places a new directory last in its parent's listing.
- Paths as OS strings: components are compared exactly. So a start directory with a trailing separator, which `go_back` in the source would fail to match, is not modelled. Error messages join components with `/`.
- `Fs.CreateDir`: a typed name that contains a separator, or is empty, is treated as a failed creation. The source would create nested or absolute paths. `.` and `..` are treated as ordinary names.
- Panics on non-UTF-8 OS strings and failing directory entries (`expect("ERROR")`): paths are component sequences, and listings are whole.
- `Controller.Browser.Run`: does not restate each key's state change. That is `HandleKey`'s contract, applied per event; the loop states only the outcomes, their order, and the facts above.
- Overflow behaviour follows a debug build, where `len() - 1` on an empty list panics. In a release build it wraps: `next` from `Some(i)` gives `Some(i + 1)`, `previous` from `Some(0)` gives `Some(usize::MAX)`, and only a later index on Enter panics.
- `Fs.CreateDir`: the failures of `create_dir` are the ones the oracle names: a bad name, the root, an unlistable or `locked` parent, or an existing path. Other causes, such as a full disk, are covered only through `locked`.
- `Controller.Browser.OpenSelected`: a read that fails part-way is modelled as leaving an empty preview. Partially read text is not kept.
- `ListState`'s scroll offset: rendering state only.
- The copy of `App` and of the key dispatch in src/main.rs is not modelled separately. It differs only in that `'q'` returns from `main` rather than breaking the loop, and in this model both end the session.
