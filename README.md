# gde-creator in Dafny

gde-creator is an interactive terminal tool that builds a freedesktop
`.desktop` launcher for a game. It runs as follows:

1. Ask for a game name and search the Steam store for it.
2. Let the user pick a hit and download that game's icon.
3. Open a file-picker dialog for the executable.
4. Ask for an optional runner command and the working directory.
5. After a confirmation, write `~/.local/share/applications/<stem>.desktop`.
6. After a second confirmation, symlink that entry on the desktop.

This project models that workflow (`main()` in `main.py`) and its helpers
`NameValidator`, `create_desktop_entry`, `create_desktop_symlink` and
`get_valid_games`, and the file-picker dialog (`filepicker.py`), and proves
what they promise.

Modules:

- `Strings` (`strings.dfy`): ASCII character classes, `str(int)` as decimal
  text with its inverse, and path joining.
- `Search` (`search.dfy`): the items loop of `get_valid_games` and the
  selection list. The HTTP reply is an input: a status error, another
  failure, or the decoded `items` array.
- `DesktopEntry` (`desktop_entry.dfy`): the filesystem-safe stem, the entry
  path and its exact text, and the exec command. Also the writers, as
  functions that return what they changed on disk as a log of `Effect`s. A
  small reader of the entry text shows the text carries the record intact.
- `Workflow` (`workflow.dfy`): the `while True` loop.
  - A `Round` holds the prompt answers and outside results of one pass.
  - `RoundStep` says how the pass ends: `Restart` for `continue`, or `Stop`
    with an `Outcome`.
  - `Run` drives a script of rounds.
  - `RunWorkflow` and `PlayRound` are the imperative loop, proved equal to
    `Run` and `RoundStep`.
  - A prompt guarded by `NameValidator` is a sequence of submissions, and
    `Ask` gives its answer.
- `FilePicker` (`filepicker.dfy`): `FilePickerScreen` is a class whose
  handlers update its widgets' state in place. `RunPicker` feeds it events
  until it is dismissed. `Handle` and `Pick` are the pure specification the
  methods are proved against.

## Model

| member | source | states |
|---|---|---|
| Strings.Lower | main.py:191 | upper-case ASCII letters map to their lower-case letter, every other character is unchanged |
| Strings.NatToDecimal | main.py:249 | the decimal text of a natural number is non-empty and all digits; it starts with `0` only when it is `"0"`, the text of zero |
| Strings.IntToDecimal | main.py:249 | `str(id)` is `-` exactly for negative ids, followed by at least one decimal digit with no leading zero (a lone `0` only for zero) |
| Strings.DecimalRoundTrip | main.py:249 | reading back the digits of a natural number gives that number |
| Strings.IntRoundTrip | main.py:249 | parsing `str(id)` gives the id back |
| Strings.IntToDecimalInjective | main.py:249 | two ids have the same text exactly when they are equal |
| Strings.IsBlank | main.py:57 | no contract of its own: `not text.strip()`, true exactly for texts made of whitespace only; characterised by `Workflow.RestartCauses` |
| Strings.Join | main.py:23-24 | `Path(dir) / rel`: an absolute `rel` replaces the directory; otherwise the path is the directory, a separator exactly when the directory is non-empty and does not end in one, then `rel` |
| Search.ToGame | main.py:249 | a game keeps the item's name, its id is the canonical decimal text `str(id)` of the item's numeric id, and that text parses back to the id |
| Search.MapItems | main.py:246-249 | no contract of its own: the games of the items loop; characterised by `Search.MapItemsPrefix`, `Search.MapItemsFrom` and `Search.MapItemsStop` |
| Search.FoundGames | main.py:236-256 | no contract of its own: what `get_valid_games` returns for a reply; characterised by `Search.GetValidGames` and `Search.AllWellFormedKept` |
| Search.MapItemsPrefix | main.py:246-256 | the games are the converted items of the longest well-formed prefix, in server order; the list stops exactly at the first item with a missing key |
| Search.AllWellFormedKept | main.py:248-249 | when every item has both keys, there is one game per item |
| Search.StringIdsDistinguish | main.py:249 | two games have the same string id exactly when their numeric ids are equal |
| Search.MapItemsFrom | main.py:248-249 | a well-formed item adds its game in front of the games of the items after it |
| Search.MapItemsStop | main.py:248-249 | the loop adds nothing at the end of the items or at a malformed item |
| Search.GetValidGames | main.py:236-256 | the appending loop returns the games of the well-formed prefix for a payload and `[]` for a status or request error |
| Search.Choices | main.py:68-78 | one choice per game, in search order; each returns its game and is titled name, space, `(ID: <id>)` |
| DesktopEntry.IconName | main.py:268-269 | the icon name is `game_icon_` followed by the id |
| DesktopEntry.AppsDir | main.py:24 | no contract of its own: `<home>/.local/share/applications`; used by `DesktopEntry.EntryPathShape` and `Workflow.EntryThenLinks` |
| DesktopEntry.IconsDir | main.py:23 | no contract of its own: `<home>/.local/share/icons/hicolor/32x32/apps`; used by `Workflow.PickerOrDirectoryInterrupts` |
| DesktopEntry.IconFile | main.py:268-281 | no contract of its own: `<icons dir>/game_icon_<id>.png`, the path the icon is saved at; its name part is stated by `DesktopEntry.IconName` |
| DesktopEntry.SafeChar | main.py:191 | a stem character is a lower-case letter, a digit or `_`; it is `_` exactly for non-alphanumeric input, and the lower-cased character otherwise |
| DesktopEntry.SafeName | main.py:191 | the stem has the name's length and only lower-case letters, digits and `_` |
| DesktopEntry.SafeNameAt | main.py:191 | each stem position is the safe character of the same position of the name |
| DesktopEntry.SafeCharCollision | main.py:191 | two characters give the same stem character exactly when both are non-alphanumeric, or both alphanumeric and equal up to case |
| DesktopEntry.SafeNameCollision | main.py:191 | two names share a stem exactly when they have the same length and agree position by position up to case and punctuation |
| DesktopEntry.CaseInsensitiveStem | main.py:191-192 | names that differ only in case share a stem |
| DesktopEntry.SafeNameIdempotent | main.py:191 | the stem of a stem is itself |
| DesktopEntry.EntryPath | main.py:191-192 | no contract of its own: `<applications dir>/<stem>.desktop`; characterised by `DesktopEntry.EntryPathShape` |
| DesktopEntry.EntryPathShape | main.py:191-192 | the entry path ends in `<stem>.desktop`, and names with one stem share one entry path |
| DesktopEntry.Launcher | main.py:122-125 | the launcher is never empty: the runner text when it is given and non-empty, `bash` when it is `None` or empty |
| DesktopEntry.ExecCommand | main.py:122-125 | the command is the launcher, a space, and the executable in double quotes |
| DesktopEntry.ExecCommandParts | main.py:122-125 | a non-empty runner gives `runner "exec"`; none or an empty one gives `bash "exec"` |
| DesktopEntry.NoRunnerMeansBash | main.py:122-125 | no runner, an empty runner and the runner `bash` give the same command |
| DesktopEntry.EntryText | main.py:194-202 | no contract of its own: the template text; characterised by `DesktopEntry.EntryTextLiteral`, `DesktopEntry.EntryTextLines` and `DesktopEntry.WrittenEntryReadsBack` |
| DesktopEntry.EntryTextLiteral | main.py:194-202 | the text is the template: header, then `Type`, `Name`, `Exec`, `Path`, `Icon`, `Terminal`, `Categories` lines indented four spaces with the values verbatim, then a line of four spaces |
| DesktopEntry.EntryTextLines | main.py:194-202 | with newline-free values, the text splits into exactly the nine template lines |
| DesktopEntry.EntryLinesRead | main.py:194-202 | the nine template lines read back as the record they were filled with |
| DesktopEntry.WrittenEntryReadsBack | main.py:194-204 | for values without a newline, the written text reads back as the name, exec command, directory and icon it was written with |
| DesktopEntry.EntryWithNewlineUnreadable | main.py:194-204 | the values are inserted without escaping: a newline in any of them splits its line, and the text reads back as nothing |
| DesktopEntry.CreateDesktopEntry | main.py:187-209 | a successful write writes the template text at the stem path and returns that path; a failed write writes nothing and returns `None` instead of raising |
| DesktopEntry.LinkPath | main.py:216-217 | no contract of its own: `Path(desktop) / <name>.desktop`, stated by `Strings.Join` and used by `DesktopEntry.CreateDesktopSymlink` |
| DesktopEntry.PathNotice | main.py:218 | no contract of its own: the markup notice printed before the link is replaced; used by `DesktopEntry.CreateDesktopSymlink` |
| DesktopEntry.CreateDesktopSymlink | main.py:212-233 | a raising desktop lookup propagates. With no desktop folder nothing is done and `None` is returned. With one, a path notice the console rejects or a failing unlink returns `None` with nothing done; a failing link returns `None` after the unlink; otherwise `<desktop>/<name>.desktop` is unlinked, linked to the entry and returned. |
| Workflow.ValidateName | main.py:178-184 | exactly the empty text is rejected, with the message "Please provide correct input" and the cursor at its end |
| Workflow.Ask | main.py:52-54 | the answer is the first submission the validator does not reject: it is some submission, every submission before it is the empty text, and an accepted text passes the validator; there is none exactly when all submissions were empty texts |
| Workflow.ExitCode | main.py:299-308 | no contract of its own: 1 for an exception out of `main`, 0 for the other ends, none while waiting; used by `Workflow.RunEffectsOrder` |
| Workflow.NoResultsMessage | main.py:63-65 | no contract of its own: the notice echoing the query; used by `Workflow.NoResultsEcho` |
| Workflow.TableRejected | main.py:127-136 | no contract of its own: printing the summary table raises when the console rejects one of its texts; used by `Workflow.TableRejectedStops` |
| Workflow.RoundStep | main.py:51-66 | no contract of its own: one pass of the loop body; characterised by the `Workflow` lemmas below and computed by `Workflow.PlayRound` |
| Workflow.AfterQuery | main.py:60-88 | no contract of its own: the search and the selection; characterised by `Workflow.NoResultsEcho`, `Workflow.NoSelectionStops` and `Workflow.SelectionReached` |
| Workflow.AfterSelection | main.py:88-136 | no contract of its own: the icon, picker, runner, directory and summary stages; characterised by `Workflow.IconMissingInterrupts`, `Workflow.PickerOrDirectoryInterrupts`, `Workflow.TableRejectedStops` and `Workflow.PersistReached` |
| Workflow.Persist | main.py:138-175 | no contract of its own: the confirmation, entry and symlink steps; characterised by `Workflow.PersistNothingWithoutEntry`, `Workflow.PersistOutcome` and `Workflow.PersistLinkTail` |
| Workflow.Drive | main.py:51-175 | no contract of its own: the loop over passes; characterised by `Workflow.DriveStopsAtFirstStop`, `Workflow.DriveWaitsWhenAllRestart` and the other `Drive` lemmas |
| Workflow.Run | main.py:51-175 | no contract of its own: `main()` on a script of rounds; characterised by `Workflow.RunEffectsOrder` and `Workflow.RunStopsAtFirstStop` |
| Workflow.SelectionReached | main.py:68-88 | a selected index continues with the game at that index of the search results |
| Workflow.PersistReached | main.py:110-147 | with a working directory and a summary table the console prints, the pass saves the icon and then the last steps run on the record of the answers |
| Workflow.TableRejectedStops | main.py:127-136 | a summary table the console rejects ends the run with exit status 1 after the icon was saved and before any confirmation |
| Workflow.NoResultsEcho | main.py:60-66 | an empty search result prints the notice echoing the query and restarts, or ends the run with exit status 1 with nothing written when the console rejects that notice |
| Workflow.RestartCauses | main.py:51-119 | a pass returns to the query prompt exactly when the query is blank, the search finds nothing and its notice prints, or the working directory is blank |
| Workflow.QueryInterruptStops | main.py:55-56 | an interrupted query prompt ends the run with nothing written and exit status 0 |
| Workflow.NoSelectionStops | main.py:84-86 | no selection ends the run with "No game selected" and nothing written |
| Workflow.IconMissingInterrupts | main.py:91-94 | a failed icon download interrupts the run with nothing written |
| Workflow.PickerOrDirectoryInterrupts | main.py:99-117 | a cancelled picker or an interrupted working-directory prompt interrupts the run after the icon was saved |
| Workflow.PersistNothingWithoutEntry | main.py:138-150 | a declined confirmation cancels and a failed write ends the run with no entry; neither writes anything |
| Workflow.PersistOutcome | main.py:156-171 | after the entry: a declined symlink skips, a raising lookup crashes, and otherwise the run ends after the symlink step; a link exists exactly with a desktop folder, a printable path notice and no failing step |
| Workflow.NoEntryBeforeSelection | main.py:51-86 | a pass ending before the selection writes nothing and does not end in a symlink-step outcome |
| Workflow.NoEntryBeforeDirectoryAfter | main.py:90-119 | the icon, picker and directory stages save the icon at most and end in no symlink-step outcome |
| Workflow.NoEntryBeforeDirectory | main.py:51-119 | a pass without a working directory saves the icon at most |
| Workflow.NoEntryAfterDirectory | main.py:127-154 | a rejected summary table, a declined confirmation or a failed write leaves only the icon written |
| Workflow.IconOnlyUnlessWritten | main.py:51-154 | a pass that writes no entry saves the icon at most and does not end after an entry |
| Workflow.PersistLinkTail | main.py:145-171 | once the entry is written, the symlink steps add nothing, the removal, or the removal then the link, and only when the symlink is asked for and a desktop folder exists |
| Workflow.EntryThenLinks | main.py:138-171 | a pass that writes the entry writes, in order: the icon, the entry text at the stem path, then the symlink effects; it then leaves the loop |
| Workflow.RoundWellOrdered | main.py:51-175 | every pass keeps the order icon, entry, unlink, link, and restarts only after the icon at most |
| Workflow.DriveStopsAtFirstStop | main.py:51-175 | the loop ends with the outcome of its first pass that leaves it; earlier passes only saved icons |
| Workflow.DriveWaitsWhenAllRestart | main.py:51-66 | while every pass restarts, the run is still waiting and has only saved icons |
| Workflow.DriveEntryBeforeEnd | main.py:138-175 | a run that wrote an entry ends after the entry step |
| Workflow.DriveLinksFollowEntry | main.py:156-171 | every link effect follows an entry write, in a run that attempted the symlink |
| Workflow.DriveCrashAfterEntry | main.py:299-308 | a run ending in the desktop lookup's exception wrote an entry first |
| Workflow.RunEffectsOrder | main.py:51-175 | for any script of answers: entries only in runs that end after the entry step, links only after an entry; exit status 1 either from the desktop lookup after an entry, or from a rejected notice with no entry written |
| Workflow.RunStopsAtFirstStop | main.py:51-58 | a run ends with the outcome of its first round that does not restart |
| Workflow.PlayRound | main.py:52-66 | one pass of the loop body computes exactly `RoundStep` |
| Workflow.SearchAndSelect | main.py:60-88 | the search, the no-results notice and the selection compute exactly `AfterQuery` |
| Workflow.InstallGame | main.py:88-136 | the icon, picker, runner, directory and summary stages compute exactly `AfterSelection` |
| Workflow.SaveEntry | main.py:138-175 | the confirmation, entry and symlink steps compute exactly `Persist` |
| Workflow.RunWorkflow | main.py:51-175 | the `while True` loop computes exactly `Run`, the outcome and the effects of the script |
| FilePicker.StartPath | filepicker.py:22 | the start path is the one given unless it is `None` or empty, and then the home directory |
| FilePicker.Initial | filepicker.py:20-33 | no contract of its own: input and tree at the start path, dialog open; stated by `FilePicker.FilePickerScreen.constructor` |
| FilePicker.Validate | filepicker.py:60-71 | no contract of its own: `validate_and_submit` on values; characterised by `FilePicker.FileTakesPrecedence`, `FilePicker.DirectoryReroots` and `FilePicker.OtherRejected` |
| FilePicker.Handle | filepicker.py:38-58 | no contract of its own: one event's handler on values; characterised by `FilePicker.FileNodeResolves`, `FilePicker.DirectoryNodeOnlyFills`, `FilePicker.ConfirmSubmitsInput` and `FilePicker.HandleSane` |
| FilePicker.Pick | filepicker.py:8-14 | no contract of its own: the events up to dismissal; characterised by `FilePicker.PickSane`, `FilePicker.PickedIsFile`, `FilePicker.CancelledByButton` and `FilePicker.BrowsingKeepsOpen` |
| FilePicker.FileTakesPrecedence | filepicker.py:60-62 | a file path dismisses the dialog with that path, even when it is also a directory |
| FilePicker.DirectoryReroots | filepicker.py:63-69 | a directory keeps the dialog open and re-roots the tree, or shows "Error when changing directory" and keeps the root |
| FilePicker.OtherRejected | filepicker.py:70-71 | anything else keeps the dialog open and the root, and shows "This is not a file." |
| FilePicker.FileNodeResolves | filepicker.py:38-42 | choosing a file node fills the input with its path and dismisses with it |
| FilePicker.DirectoryNodeOnlyFills | filepicker.py:44-48 | choosing a directory node only fills the input |
| FilePicker.ConfirmSubmitsInput | filepicker.py:50-58 | Confirm validates the input's value, Enter validates the submitted value, and Cancel dismisses with nothing |
| FilePicker.HandleSane | filepicker.py:38-71 | one event on an open dialog keeps its invariants: the result is a file or nothing, the root is the start or a reachable directory, and notices are only appended |
| FilePicker.PickSane | filepicker.py:38-71 | the same invariants hold after any sequence of events |
| FilePicker.PickedIsFile | filepicker.py:60-62 | a dialog that ends with a path ends with an existing file; its tree is at the start path or a directory it could move to |
| FilePicker.CancelledByButton | filepicker.py:53-55 | a dialog that ends with nothing had its Cancel button pressed |
| FilePicker.BrowsingKeepsOpen | filepicker.py:44-48 | choosing directory nodes and typing never end the dialog, move the tree or show a notice |
| FilePicker.FilePickerScreen.constructor | filepicker.py:20-33 | the input and the tree both start at the start path, with the dialog open |
| FilePicker.FilePickerScreen.ValidateAndSubmit | filepicker.py:60-71 | updates the screen as `Validate` says: dismiss with a file, re-root to a directory, or show a notice |
| FilePicker.FilePickerScreen.OnFileSelected | filepicker.py:38-42 | sets the input to the file's path, then validates it |
| FilePicker.FilePickerScreen.OnDirectorySelected | filepicker.py:44-48 | sets the input to the directory's path and changes nothing else |
| FilePicker.FilePickerScreen.OnInputSubmitted | filepicker.py:50-51 | validates the submitted value |
| FilePicker.FilePickerScreen.OnButtonPressed | filepicker.py:53-58 | Cancel dismisses with nothing; Confirm validates the input's current value |
| FilePicker.FilePickerScreen.Dispatch | filepicker.py:38-58 | each event runs its handler, as `Handle` says |
| FilePicker.RunPicker | filepicker.py:8-14 | the runner returns what the screen was dismissed with after the events, as `Pick` says |

## Left out

- HTTP: the store search and the community-page scrape of the icon URL are
  not modelled. The search is its decoded reply. The icon download is a
  flag, `Round.iconFound`, and on success the saved PNG's path.
- PIL decoding and saving of the icon are not modelled; only their success
  or failure is.
- The `xdg-user-dir` call and the `os.makedirs` of the desktop folder are
  one input, `DesktopLookup`. `NoDesktopDir` is a `FileNotFoundError` or a
  `CalledProcessError`, the only exceptions the lookup catches: the command
  missing or exiting with an error, or `makedirs` raising
  `FileNotFoundError`, as it does for the empty folder name an empty output
  line gives. `LookupRaises` is any other exception
  of the lookup, such as a `PermissionError` or `FileExistsError` from
  `makedirs` or a `UnicodeDecodeError` of the output: the call sits outside
  the `try` of `create_desktop_symlink`, so the run exits with status 1.
- rich's markup parser is not modelled. Whether printing a text raises a
  markup error is an input, `Config.markupRejects`. Only the texts carrying
  user data are given to it: the no-results notice, the summary table and
  the symlink's path notice.
- Strings.Join / DesktopEntry.LinkPath / DesktopEntry.CreateDesktopSymlink:
  `str(Path(dir) / name)` also collapses repeated separators and `.`
  components and drops a trailing separator, in the name (`a//b`, `a/./b`)
  and in the desktop folder, which is taken verbatim from the lookup
  command's output (`/home/u//Desktop`, `/home/u/Desktop/.`); `Join` keeps
  them. An absolute name does replace the folder, as in pathlib.
- Search.ToGame: an `id` that is not an integer (a string or a float in the
  JSON) is not modelled; `str` of it is not a decimal integer text.
- Directory creation (`mkdir(parents=True)` for the applications and icons
  folders) is not logged as an effect.
- DesktopEntry.CreateDesktopEntry: a write that fails midway is modelled as
  writing nothing, though a partly written file may remain.
- Terminal UI is not modelled: rich panels, tables, spinners and messages;
  questionary rendering; textual widgets, CSS and focus. Only the answers
  and the outcome they lead to are kept. Notices in the picker are their
  texts.
- The default text of the working-directory prompt (`os.path.dirname` of
  the executable) is not modelled. A submission is the text as finally
  entered.
- Workflow.Round: a picker that is never dismissed is not a round. `picked`
  is what the dialog was dismissed with, and `RunPicker` gives that value.
- asyncio, `time.sleep` and concurrency are not modelled. An interrupt
  signal (Ctrl-C) is modelled only as an answer at the four prompts that
  can be interrupted; one arriving during the search, the downloads, the
  pause, the entry write or the desktop lookup ends the program with status
  0 at that point, possibly after the entry was written, so the effect-order
  facts of `Workflow.RunEffectsOrder` hold for the answers the model has.
- Workflow.RunEffectsOrder: its account of exit status 1 covers the answers
  the model has. End of input at a text prompt (Ctrl-D) can raise
  `EOFError` in the prompt library; that would leave `main` through the
  generic handler with status 1 and no entry written. It is not modelled.
- DesktopEntry.SafeName: `str.isalnum` and `str.lower` are restricted to
  ASCII. Python also keeps non-ASCII alphanumerics, and its lowering can
  change a name's length.
- Strings.IsBlank / Strings.IsSpace: `str.strip` is modelled on ASCII whitespace and
  U+001C–U+001F. Other Unicode spaces, such as U+00A0 and U+2000–U+200A,
  are not treated as blank.
- FilePicker.DirectoryReroots: a failing re-root is modelled as leaving the
  root where it was. This is the behaviour when `tree.path = path` raises;
  a failure of the later `tree.focus()` would leave the tree re-rooted.
- FilePicker.FileSystem: file and directory tests are set membership at the
  moment of the event. The filesystem does not change while the dialog is
  open.
- The `except Exception` around the entry step in `main()` only guards
  console output once `create_desktop_entry` has caught its own errors; a
  write error whose report the console rejects ends there with "Error
  occured when creating desktop entry." The model folds this into
  `EntryFailed`: nothing written, exit status 0.

Some behaviours of the program that the model keeps on purpose:

- A failed icon fetch raises `KeyboardInterrupt` and ends the run
  (`Interrupted(AtIcon)`). It does not continue without an icon.
- An item with a missing key ends the search loop with the games collected
  so far; the list is not dropped.
- The desktop symlink is named after the raw game name, not the stem.
- The symlink success message is shown whatever the symlink step returned.
