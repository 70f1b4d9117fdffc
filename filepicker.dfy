/** The file-picker dialog: a screen with a path input, a directory tree
    and two buttons, over a filesystem given as sets of paths. It ends when
    it is dismissed, with the picked file or with nothing. */
module FilePicker {
  import opened Wrappers

  /** The filesystem as the dialog sees it: the paths that are regular
      files, the paths that are directories, and the directories the tree
      cannot be re-rooted to (the re-root raises). */
  datatype FileSystem = FileSystem(files: set<string>, dirs: set<string>, rerootFails: set<string>)

  const NOT_A_FILE := "This is not a file."
  const CHANGE_DIR_ERROR := "Error when changing directory"

  /** The ids of the dialog's two buttons, `cancel` and `select`. */
  datatype ButtonId = CancelId | SelectId

  /** What the user can do while the dialog is shown. */
  datatype Event =
    | FileSelected(path: string)       // a file node of the tree is chosen
    | DirectorySelected(path: string)  // a directory node of the tree is chosen
    | InputEdited(text: string)        // the path input is typed into
    | InputSubmitted(value: string)    // Enter in the path input
    | ButtonPressed(id: ButtonId)

  /** The state of the screen: the input's value, the tree's root, whether
      it was dismissed and with what (`Some(None)` for cancel), and the
      error notices shown so far. */
  datatype View = View(pathInput: string, treeRoot: string, dismissed: Option<Option<string>>, notices: seq<string>)

  /** The start path: the one given unless it is `None` or empty, in which
      case the home directory. `None` is an explicit `None`: a screen built
      with no start path at all starts at `./`, which is given and
      non-empty. */
  function StartPath(start: Option<string>, home: string): (p: string)
    ensures p == home || (start.Some? && p == start.value)
    ensures p == home <== start.None? || start.value == []
    ensures start.Some? && start.value != [] ==> p == start.value
  {
    if start.Some? && start.value != [] then start.value else home
  }

  /** A fresh screen: the input and the tree both at the start path. */
  function Initial(start: Option<string>, home: string): View {
    var p := StartPath(start, home);
    View(p, p, None, [])
  }

  /** The validation of a path: a file dismisses the screen with it, a
      directory re-roots the tree (or shows an error when that fails),
      anything else shows "This is not a file.". */
  function Validate(v: View, path: string, fs: FileSystem): View {
    if path in fs.files then v.(dismissed := Some(Some(path)))
    else if path in fs.dirs then
      if path in fs.rerootFails then v.(notices := v.notices + [CHANGE_DIR_ERROR])
      else v.(treeRoot := path)
    else v.(notices := v.notices + [NOT_A_FILE])
  }

  /** The handler of one event. */
  function Handle(v: View, e: Event, fs: FileSystem): View {
    match e
    case FileSelected(p) => Validate(v.(pathInput := p), p, fs)
    case DirectorySelected(p) => v.(pathInput := p)
    case InputEdited(text) => v.(pathInput := text)
    case InputSubmitted(value) => Validate(v, value, fs)
    case ButtonPressed(id) =>
      match id
      case CancelId => v.(dismissed := Some(None))
      case SelectId => Validate(v, v.pathInput, fs)
  }

  /** The dialog over a sequence of events: it handles them in order until
      it is dismissed; later events never reach it. */
  function Pick(v: View, events: seq<Event>, fs: FileSystem): View
    decreases |events|
  {
    if events == [] || v.dismissed.Some? then v
    else Pick(Handle(v, events[0], fs), events[1..], fs)
  }

  // ------------------------------------------------------------ one event

  /** A path that is a file is submitted, even when it is also listed as a
      directory: the file check comes first. */
  lemma FileTakesPrecedence(v: View, path: string, fs: FileSystem)
    requires path in fs.files
    ensures var w := Validate(v, path, fs);
      w.dismissed == Some(Some(path)) && w.treeRoot == v.treeRoot && w.notices == v.notices
  {
  }

  /** A directory leaves the dialog open; the tree moves to it, unless the
      re-root fails, in which case the root stays and an error is shown. */
  lemma DirectoryReroots(v: View, path: string, fs: FileSystem)
    requires path !in fs.files && path in fs.dirs
    ensures var w := Validate(v, path, fs);
      w.dismissed == v.dismissed && w.pathInput == v.pathInput
      && (path !in fs.rerootFails ==> w.treeRoot == path && w.notices == v.notices)
      && (path in fs.rerootFails ==> w.treeRoot == v.treeRoot && w.notices == v.notices + [CHANGE_DIR_ERROR])
  {
  }

  /** Anything else leaves the dialog open and the tree where it was, and
      says it is not a file. */
  lemma OtherRejected(v: View, path: string, fs: FileSystem)
    requires path !in fs.files && path !in fs.dirs
    ensures var w := Validate(v, path, fs);
      w.dismissed == v.dismissed && w.treeRoot == v.treeRoot && w.pathInput == v.pathInput
      && w.notices == v.notices + [NOT_A_FILE]
  {
  }

  /** Choosing a file node puts its path in the input and submits it. */
  lemma FileNodeResolves(v: View, path: string, fs: FileSystem)
    requires path in fs.files
    ensures var w := Handle(v, FileSelected(path), fs);
      w.pathInput == path && w.dismissed == Some(Some(path))
  {
  }

  /** Choosing a directory node only fills the input. */
  lemma DirectoryNodeOnlyFills(v: View, path: string, fs: FileSystem)
    ensures var w := Handle(v, DirectorySelected(path), fs);
      w.pathInput == path && w.treeRoot == v.treeRoot && w.dismissed == v.dismissed && w.notices == v.notices
  {
  }

  /** Confirm submits what the input holds; Enter submits its own value. */
  lemma ConfirmSubmitsInput(v: View, value: string, fs: FileSystem)
    ensures Handle(v, ButtonPressed(SelectId), fs) == Validate(v, v.pathInput, fs)
    ensures Handle(v, InputSubmitted(value), fs) == Validate(v, value, fs)
    ensures Handle(v, ButtonPressed(CancelId), fs).dismissed == Some(None)
  {
  }

  // ------------------------------------------------------------ the dialog

  /** The invariants of an open dialog: what it ends with is a file of the
      filesystem or nothing, its tree stays at its root or moves to a
      directory it could move to, and notices are only ever added, each one
      of the two error texts. */
  predicate Sane(v0: View, v: View, fs: FileSystem) {
    (v.dismissed.Some? && v.dismissed.value.Some? ==> v.dismissed.value.value in fs.files)
    && (v.treeRoot == v0.treeRoot || (v.treeRoot in fs.dirs && v.treeRoot !in fs.rerootFails))
    && |v0.notices| <= |v.notices| && v.notices[..|v0.notices|] == v0.notices
    && (forall k :: |v0.notices| <= k < |v.notices| ==> v.notices[k] in {NOT_A_FILE, CHANGE_DIR_ERROR})
  }

  lemma HandleSane(v0: View, v: View, e: Event, fs: FileSystem)
    requires v.dismissed.None? && Sane(v0, v, fs)
    ensures Sane(v0, Handle(v, e, fs), fs)
  {
    var w := Handle(v, e, fs);
    assert w.notices == v.notices || w.notices == v.notices + [w.notices[|w.notices| - 1]];
    assert w.notices[..|v.notices|] == v.notices;
    assert w.notices[..|v0.notices|] == v.notices[..|v0.notices|];
  }

  lemma {:induction false} PickSane(v0: View, v: View, events: seq<Event>, fs: FileSystem)
    requires v.dismissed.None? && Sane(v0, v, fs)
    ensures Sane(v0, Pick(v, events, fs), fs)
    decreases |events|
  {
    if events != [] {
      var w := Handle(v, events[0], fs);
      HandleSane(v0, v, events[0], fs);
      if w.dismissed.None? {
        PickSane(v0, w, events[1..], fs);
      } else {
        assert Pick(w, events[1..], fs) == w;
      }
    }
  }

  /** A dialog that ends with a path ends with a file of the filesystem. */
  lemma PickedIsFile(start: Option<string>, home: string, events: seq<Event>, fs: FileSystem)
    ensures var w := Pick(Initial(start, home), events, fs);
      w.dismissed.Some? && w.dismissed.value.Some? ==> w.dismissed.value.value in fs.files
    ensures var w := Pick(Initial(start, home), events, fs);
      w.treeRoot == StartPath(start, home) || (w.treeRoot in fs.dirs && w.treeRoot !in fs.rerootFails)
  {
    var v := Initial(start, home);
    PickSane(v, v, events, fs);
  }

  /** A dialog that ends with nothing was cancelled with the Cancel button. */
  lemma {:induction false} CancelledByButton(v: View, events: seq<Event>, fs: FileSystem)
    requires v.dismissed.None?
    ensures Pick(v, events, fs).dismissed == Some(None) ==> ButtonPressed(CancelId) in events
    decreases |events|
  {
    if events != [] {
      var w := Handle(v, events[0], fs);
      if w.dismissed.None? {
        CancelledByButton(w, events[1..], fs);
        assert Pick(v, events, fs) == Pick(w, events[1..], fs);
      } else {
        assert Pick(w, events[1..], fs) == w;
      }
    }
  }

  /** Moving around the tree and typing never end the dialog or move the
      tree: only a submission or a button can. */
  lemma {:induction false} BrowsingKeepsOpen(v: View, events: seq<Event>, fs: FileSystem)
    requires v.dismissed.None?
    requires forall k :: 0 <= k < |events| ==> events[k].DirectorySelected? || events[k].InputEdited?
    ensures Pick(v, events, fs).dismissed.None?
    ensures Pick(v, events, fs).treeRoot == v.treeRoot
    ensures Pick(v, events, fs).notices == v.notices
    decreases |events|
  {
    if events != [] {
      BrowsingKeepsOpen(Handle(v, events[0], fs), events[1..], fs);
    }
  }

  /** The screen itself, whose handlers update its widgets in place. */
  class FilePickerScreen {
    const startPath: string
    var pathInput: string
    var treeRoot: string
    var dismissed: Option<Option<string>>
    var notices: seq<string>

    function Snapshot(): View
      reads this
    {
      View(pathInput, treeRoot, dismissed, notices)
    }

    constructor (start: Option<string>, home: string)
      ensures startPath == StartPath(start, home)
      ensures Snapshot() == Initial(start, home)
    {
      startPath := StartPath(start, home);
      pathInput := StartPath(start, home);
      treeRoot := StartPath(start, home);
      dismissed := None;
      notices := [];
    }

    method ValidateAndSubmit(path: string, fs: FileSystem)
      modifies this
      ensures Snapshot() == Validate(old(Snapshot()), path, fs)
    {
      if path in fs.files {
        dismissed := Some(Some(path));
      } else if path in fs.dirs {
        if path in fs.rerootFails {
          notices := notices + [CHANGE_DIR_ERROR];
        } else {
          treeRoot := path;
        }
      } else {
        notices := notices + [NOT_A_FILE];
      }
    }

    method OnFileSelected(path: string, fs: FileSystem)
      modifies this
      ensures Snapshot() == Handle(old(Snapshot()), FileSelected(path), fs)
    {
      pathInput := path;
      ValidateAndSubmit(path, fs);
    }

    method OnDirectorySelected(path: string)
      modifies this
      ensures Snapshot() == old(Snapshot()).(pathInput := path)
    {
      pathInput := path;
    }

    method OnInputSubmitted(value: string, fs: FileSystem)
      modifies this
      ensures Snapshot() == Validate(old(Snapshot()), value, fs)
    {
      ValidateAndSubmit(value, fs);
    }

    method OnButtonPressed(id: ButtonId, fs: FileSystem)
      modifies this
      ensures Snapshot() == Handle(old(Snapshot()), ButtonPressed(id), fs)
    {
      if id == CancelId {
        dismissed := Some(None);
      } else {
        ValidateAndSubmit(pathInput, fs);
      }
    }

    /** Routes an event to its handler. */
    method Dispatch(e: Event, fs: FileSystem)
      modifies this
      ensures Snapshot() == Handle(old(Snapshot()), e, fs)
    {
      match e
      case FileSelected(p) => OnFileSelected(p, fs);
      case DirectorySelected(p) => OnDirectorySelected(p);
      case InputEdited(text) => pathInput := text;
      case InputSubmitted(value) => OnInputSubmitted(value, fs);
      case ButtonPressed(id) => OnButtonPressed(id, fs);
    }
  }

  /** The picker app: shows a screen at the start path, feeds it events
      while it is open, and returns what it was dismissed with (`None` while
      it is still open when the events run out). */
  method RunPicker(start: Option<string>, home: string, fs: FileSystem, events: seq<Event>)
    returns (result: Option<Option<string>>)
    ensures result == Pick(Initial(start, home), events, fs).dismissed
  {
    var screen := new FilePickerScreen(start, home);
    var i := 0;
    while i < |events| && screen.dismissed.None?
      invariant 0 <= i <= |events|
      invariant Pick(screen.Snapshot(), events[i..], fs) == Pick(Initial(start, home), events, fs)
    {
      assert events[i..][1..] == events[i + 1..];
      screen.Dispatch(events[i], fs);
      i := i + 1;
    }
    result := screen.dismissed;
  }
}
