/**
 * The pure parts of `create_desktop_entry` and `create_desktop_symlink`:
 * the filesystem-safe stem, the entry path and its exact text, the icon
 * name, the exec command, and the effects each operation has on disk.
 * A small line reader stands in for a desktop environment reading the
 * entry back, so that the text can be shown to carry the record intact.
 */
module DesktopEntry {
  import opened Wrappers
  import opened Strings

  /** What the model records of the filesystem changes a run makes. */
  datatype Effect =
    | SavedIcon(path: string)                 // the PNG written by the icon download
    | WroteFile(path: string, text: string)   // the desktop entry, overwriting any old one
    | RemovedLink(path: string)               // `unlink(missing_ok=True)` at the link name
    | MadeLink(path: string, target: string)  // `symlink_to(entry_path)`

  /** The four values the entry is filled with. */
  datatype Record = Record(name: string, exec: string, path: string, icon: string)

  // ---------------------------------------------------------------- locations

  function AppsDir(home: string): string {
    Join(home, ".local/share/applications")
  }

  function IconsDir(home: string): string {
    Join(home, ".local/share/icons/hicolor/32x32/apps")
  }

  /** The icon name the download returns: `game_icon_<id>` (no extension). */
  function IconName(id: string): (name: string)
    ensures |name| == |id| + 10 && name[..10] == "game_icon_" && name[10..] == id
  {
    "game_icon_" + id
  }

  /** Where the downloaded icon is saved: `<icons dir>/game_icon_<id>.png`. */
  function IconFile(iconsDir: string, id: string): string {
    Join(iconsDir, IconName(id) + ".png")
  }

  // ---------------------------------------------------------------- safe stem

  predicate IsStemChar(c: char) {
    IsLower(c) || IsDigit(c) || c == '_'
  }

  /** One character of the stem: alphanumerics lower-cased, anything else `_`. */
  function SafeChar(c: char): (d: char)
    ensures IsStemChar(d)
    ensures IsAlnum(c) <==> d != '_'
    ensures IsAlnum(c) ==> d == Lower(c)
  {
    if IsAlnum(c) then Lower(c) else '_'
  }

  /** The filesystem-safe stem of a game name. */
  function SafeName(name: string): (stem: string)
    ensures |stem| == |name|
    ensures forall i :: 0 <= i < |stem| ==> IsStemChar(stem[i])
  {
    if name == [] then [] else [SafeChar(name[0])] + SafeName(name[1..])
  }

  lemma {:induction false} SafeNameAt(name: string, i: nat)
    requires i < |name|
    ensures SafeName(name)[i] == SafeChar(name[i])
  {
    if i > 0 {
      SafeNameAt(name[1..], i - 1);
    }
  }

  /** Two characters give the same stem character exactly when both are
      punctuation (anything not alphanumeric) or both are alphanumeric and
      equal up to case. */
  lemma SafeCharCollision(c: char, d: char)
    ensures SafeChar(c) == SafeChar(d) <==>
      (!IsAlnum(c) && !IsAlnum(d)) || (IsAlnum(c) && IsAlnum(d) && Lower(c) == Lower(d))
  {
  }

  /** Two names share a stem exactly when they have the same length and agree,
      position by position, up to case and up to which punctuation appears. */
  lemma SafeNameCollision(a: string, b: string)
    ensures SafeName(a) == SafeName(b) <==>
      |a| == |b| && forall i :: 0 <= i < |a| ==> SafeChar(a[i]) == SafeChar(b[i])
  {
    if |a| == |b| {
      var sa, sb := SafeName(a), SafeName(b);
      forall i | 0 <= i < |a| ensures sa[i] == SafeChar(a[i]) && sb[i] == SafeChar(b[i]) {
        SafeNameAt(a, i);
        SafeNameAt(b, i);
      }
    }
  }

  /** Names that differ only in letter case share a stem, and so an entry path. */
  lemma CaseInsensitiveStem(a: string, b: string)
    requires |a| == |b|
    requires forall i :: 0 <= i < |a| ==> Lower(a[i]) == Lower(b[i])
    ensures SafeName(a) == SafeName(b)
  {
    forall i | 0 <= i < |a| ensures SafeChar(a[i]) == SafeChar(b[i]) {
      assert Lower(a[i]) == Lower(b[i]);
    }
    SafeNameCollision(a, b);
  }

  /** A stem is its own stem. */
  lemma SafeNameIdempotent(name: string)
    ensures SafeName(SafeName(name)) == SafeName(name)
  {
    var s := SafeName(name);
    forall i | 0 <= i < |s| ensures SafeChar(s[i]) == s[i] {
      assert IsStemChar(s[i]);
    }
    SafeNameCollision(s, name);
    forall i | 0 <= i < |s| ensures SafeName(s)[i] == s[i] {
      SafeNameAt(s, i);
    }
  }

  /** The entry file: `<applications dir>/<stem>.desktop`. */
  function EntryPath(appsDir: string, name: string): string {
    Join(appsDir, SafeName(name) + ".desktop")
  }

  /** The entry path ends in the stem and `.desktop`; names with one stem
      share one path, so a later entry overwrites an earlier one. */
  lemma EntryPathShape(appsDir: string, a: string, b: string)
    ensures var p := EntryPath(appsDir, a);
      |p| >= |a| + 8 && p[|p| - |a| - 8..] == SafeName(a) + ".desktop"
    ensures SafeName(a) == SafeName(b) ==> EntryPath(appsDir, a) == EntryPath(appsDir, b)
  {
  }

  // ---------------------------------------------------------------- exec command

  /** The program the exec command starts: the runner, or `bash` when the
      runner answer is `None` or empty. */
  function Launcher(runner: Option<string>): (l: string)
    ensures l != []
    ensures runner.Some? && runner.value != "" ==> l == runner.value
    ensures runner.None? || runner.value == "" ==> l == "bash"
  {
    if runner.Some? && runner.value != "" then runner.value else "bash"
  }

  /** The `Exec=` value: the launcher, a space, and the executable path in
      literal double quotes, with no escaping of quotes inside it. */
  function ExecCommand(runner: Option<string>, exec: string): (cmd: string)
    ensures cmd == Launcher(runner) + " \"" + exec + "\""
  {
    if runner.Some? && runner.value != "" then runner.value + " \"" + exec + "\""
    else "bash \"" + exec + "\""
  }

  /** The executable path is recoverable from the command's tail, and the
      command starts with the launcher. */
  lemma ExecCommandParts(runner: Option<string>, exec: string)
    ensures var cmd := ExecCommand(runner, exec); var l := Launcher(runner);
      |cmd| == |l| + |exec| + 3 && cmd[..|l|] == l && cmd[|l|..|l| + 2] == " \""
      && cmd[|l| + 2..|cmd| - 1] == exec && cmd[|cmd| - 1] == '"'
  {
  }

  /** A `None` runner answer is handled exactly like an empty one, and a runner
      of `bash` cannot be told apart from no runner. */
  lemma NoRunnerMeansBash(exec: string)
    ensures ExecCommand(None, exec) == ExecCommand(Some(""), exec)
    ensures ExecCommand(None, exec) == ExecCommand(Some("bash"), exec)
  {
  }

  // ---------------------------------------------------------------- entry text

  const HEADER := "[Desktop Entry]"

  /** The exact text written: the template's nine lines joined by newlines.
      `EntryTextLiteral` spells it out. */
  function EntryText(r: Record): string {
    JoinLines(EntryLines(r))
  }

  /** The same text, line by line. */
  function EntryLines(r: Record): seq<string> {
    [HEADER,
     KeyLine("Type", "Application"),
     KeyLine("Name", r.name),
     KeyLine("Exec", r.exec),
     KeyLine("Path", r.path),
     KeyLine("Icon", r.icon),
     KeyLine("Terminal", "false"),
     KeyLine("Categories", "Game"),
     "    "]
  }

  /** An indented `key=value` line of the template. */
  function KeyLine(key: string, value: string): string {
    "    " + key + "=" + value
  }

  /** Splits a text at every newline (a text with k newlines has k + 1 lines). */
  function Lines(s: string): (ls: seq<string>)
    ensures |ls| >= 1
  {
    if s == [] then [""]
    else
      var rest := Lines(s[1..]);
      if s[0] == '\n' then [""] + rest else [[s[0]] + rest[0]] + rest[1..]
  }

  /** Joins lines with newlines; the inverse of `Lines`. */
  function JoinLines(ls: seq<string>): string
    requires |ls| >= 1
  {
    if |ls| == 1 then ls[0] else ls[0] + "\n" + JoinLines(ls[1..])
  }

  predicate NoNewline(s: string) {
    forall i :: 0 <= i < |s| ==> s[i] != '\n'
  }

  lemma {:induction false} LinesOfLine(a: string)
    requires NoNewline(a)
    ensures Lines(a) == [a]
  {
    if a != [] {
      LinesOfLine(a[1..]);
      assert [a[0]] + a[1..] == a;
    }
  }

  lemma {:induction false} LinesCons(a: string, b: string)
    requires NoNewline(a)
    ensures Lines(a + "\n" + b) == [a] + Lines(b)
  {
    if a == [] {
      assert a + "\n" + b == "\n" + b;
      assert ("\n" + b)[1..] == b;
    } else {
      var s := a + "\n" + b;
      assert s[1..] == a[1..] + "\n" + b;
      LinesCons(a[1..], b);
      assert [a[0]] + a[1..] == a;
    }
  }

  /** Splitting text that was joined from newline-free lines gives the lines back. */
  lemma {:induction false} LinesJoinLines(ls: seq<string>)
    requires |ls| >= 1
    requires forall k :: 0 <= k < |ls| ==> NoNewline(ls[k])
    ensures Lines(JoinLines(ls)) == ls
  {
    if |ls| == 1 {
      LinesOfLine(ls[0]);
    } else {
      LinesJoinLines(ls[1..]);
      LinesCons(ls[0], JoinLines(ls[1..]));
    }
  }

  /** The text as the triple-quoted template has it: four spaces before
      every line after the header and four trailing spaces after the final
      newline, the values inserted verbatim. */
  lemma EntryTextLiteral(r: Record)
    ensures EntryText(r) ==
      HEADER + "\n" + (
      "    Type=Application" + "\n" + (
      "    Name=" + r.name + "\n" + (
      "    Exec=" + r.exec + "\n" + (
      "    Path=" + r.path + "\n" + (
      "    Icon=" + r.icon + "\n" + (
      "    Terminal=false" + "\n" + (
      "    Categories=Game" + "\n" +
      "    ")))))))
  {
    var ls := EntryLines(r);
    assert ls[1] == "    Type=Application";
    assert ls[2] == "    Name=" + r.name;
    assert ls[3] == "    Exec=" + r.exec;
    assert ls[4] == "    Path=" + r.path;
    assert ls[5] == "    Icon=" + r.icon;
    assert ls[6] == "    Terminal=false";
    assert ls[7] == "    Categories=Game";
    assert JoinLines(ls[8..]) == "    ";
    assert JoinLines(ls[7..]) == ls[7] + "\n" + "    ";
    assert JoinLines(ls[6..]) == ls[6] + "\n" + JoinLines(ls[7..]);
    assert JoinLines(ls[5..]) == ls[5] + "\n" + JoinLines(ls[6..]);
    assert JoinLines(ls[4..]) == ls[4] + "\n" + JoinLines(ls[5..]);
    assert JoinLines(ls[3..]) == ls[3] + "\n" + JoinLines(ls[4..]);
    assert JoinLines(ls[2..]) == ls[2] + "\n" + JoinLines(ls[3..]);
    assert JoinLines(ls[1..]) == ls[1] + "\n" + JoinLines(ls[2..]);
    assert JoinLines(ls) == ls[0] + "\n" + JoinLines(ls[1..]);
  }

  /** Drops the indentation at the start of a line. */
  function TrimIndent(line: string): (t: string)
    ensures t == [] || t[0] != ' '
  {
    if line != [] && line[0] == ' ' then TrimIndent(line[1..]) else line
  }

  /** The value of a `key=value` line for the given key, after its indentation. */
  function ValueOf(line: string, key: string): Option<string> {
    var t := TrimIndent(line);
    var k := key + "=";
    if |k| <= |t| && t[..|k|] == k then Some(t[|k|..]) else None
  }

  /** Reads an entry laid out as this program writes it: the header, the seven
      keys in order with the fixed values, and a blank last line. */
  function ReadEntry(text: string): Option<Record> {
    ReadLines(Lines(text))
  }

  function ReadLines(ls: seq<string>): Option<Record> {
    if |ls| == 9 && ls[0] == HEADER && IsBlank(ls[8])
      && ValueOf(ls[1], "Type") == Some("Application")
      && ValueOf(ls[2], "Name").Some? && ValueOf(ls[3], "Exec").Some?
      && ValueOf(ls[4], "Path").Some? && ValueOf(ls[5], "Icon").Some?
      && ValueOf(ls[6], "Terminal") == Some("false")
      && ValueOf(ls[7], "Categories") == Some("Game")
    then Some(Record(ValueOf(ls[2], "Name").value, ValueOf(ls[3], "Exec").value,
                     ValueOf(ls[4], "Path").value, ValueOf(ls[5], "Icon").value))
    else None
  }

  /** Removing the indentation of a line that starts with spaces. */
  lemma {:induction false} TrimIndentPad(pad: string, t: string)
    requires forall i :: 0 <= i < |pad| ==> pad[i] == ' '
    requires t == [] || t[0] != ' '
    ensures TrimIndent(pad + t) == t
  {
    if pad != [] {
      assert (pad + t)[1..] == pad[1..] + t;
      TrimIndentPad(pad[1..], t);
    }
  }

  lemma ValueOfIndented(key: string, v: string)
    requires key != [] && key[0] != ' '
    ensures ValueOf(KeyLine(key, v), key) == Some(v)
  {
    var t := key + "=" + v;
    assert KeyLine(key, v) == "    " + t;
    TrimIndentPad("    ", t);
    assert t[..|key| + 1] == key + "=";
  }

  lemma KeyLineNoNewline(key: string, value: string)
    requires NoNewline(key) && NoNewline(value)
    ensures NoNewline(KeyLine(key, value))
  {
    var line := KeyLine(key, value);
    forall i | 0 <= i < |line| ensures line[i] != '\n' {
      if i < 4 {
      } else if i < 4 + |key| {
        assert line[i] == key[i - 4];
      } else if i > 4 + |key| {
        assert line[i] == value[i - 5 - |key|];
      }
    }
  }

  /** The written text splits into exactly the nine lines of the template. */
  lemma EntryTextLines(r: Record)
    requires NoNewline(r.name) && NoNewline(r.exec) && NoNewline(r.path) && NoNewline(r.icon)
    ensures Lines(EntryText(r)) == EntryLines(r)
  {
    var ls := EntryLines(r);
    KeyLineNoNewline("Type", "Application");
    KeyLineNoNewline("Name", r.name);
    KeyLineNoNewline("Exec", r.exec);
    KeyLineNoNewline("Path", r.path);
    KeyLineNoNewline("Icon", r.icon);
    KeyLineNoNewline("Terminal", "false");
    KeyLineNoNewline("Categories", "Game");
    assert NoNewline(HEADER) && NoNewline("    ");
    LinesJoinLines(ls);
  }

  /** Reading a written entry gives back the name, exec command, working
      directory and icon it was written with, the icon line being present even
      when the icon is empty. A newline inside a value would split its line,
      as no escaping is done. */
  lemma WrittenEntryReadsBack(r: Record)
    requires NoNewline(r.name) && NoNewline(r.exec) && NoNewline(r.path) && NoNewline(r.icon)
    ensures ReadEntry(EntryText(r)) == Some(r)
  {
    EntryTextLines(r);
    EntryLinesRead(r);
  }

  /** The converse: a newline inside any value splits its line, so the
      text no longer has the nine lines of the template and reads back as
      nothing. */
  lemma EntryWithNewlineUnreadable(r: Record)
    requires !(NoNewline(r.name) && NoNewline(r.exec) && NoNewline(r.path) && NoNewline(r.icon))
    ensures ReadEntry(EntryText(r)).None?
  {
    if !NoNewline(r.name) {
      SplitLine(r, 2, "Name", r.name);
    } else if !NoNewline(r.exec) {
      SplitLine(r, 3, "Exec", r.exec);
    } else if !NoNewline(r.path) {
      SplitLine(r, 4, "Path", r.path);
    } else {
      SplitLine(r, 5, "Icon", r.icon);
    }
  }

  /** The template line `k` carrying a value with a newline gives the text
      more than nine lines. */
  lemma SplitLine(r: Record, k: nat, key: string, value: string)
    requires k < 9 && EntryLines(r)[k] == KeyLine(key, value) && !NoNewline(value)
    ensures |Lines(EntryText(r))| > 9
  {
    assert KeyLine(key, value) == ("    " + key + "=") + value;
    NewlineCountAppend("    " + key + "=", value);
    NewlineCountPositive(value);
    JoinLinesCount(EntryLines(r), k);
    LinesCount(EntryText(r));
  }

  /** The number of newlines in a text. */
  function NewlineCount(s: string): nat {
    if s == [] then 0 else (if s[0] == '\n' then 1 else 0) + NewlineCount(s[1..])
  }

  lemma {:induction false} NewlineCountAppend(a: string, b: string)
    ensures NewlineCount(a + b) == NewlineCount(a) + NewlineCount(b)
  {
    if a != [] {
      assert (a + b)[0] == a[0] && (a + b)[1..] == a[1..] + b;
      NewlineCountAppend(a[1..], b);
    } else {
      assert a + b == b;
    }
  }

  lemma {:induction false} NewlineCountPositive(s: string)
    requires !NoNewline(s)
    ensures NewlineCount(s) >= 1
  {
    if s[0] != '\n' {
      assert !NoNewline(s[1..]) by {
        var i :| 0 <= i < |s| && s[i] == '\n';
        assert s[1..][i - 1] == '\n';
      }
      NewlineCountPositive(s[1..]);
    }
  }

  /** A text with k newlines splits into k + 1 lines. */
  lemma {:induction false} LinesCount(s: string)
    ensures |Lines(s)| == NewlineCount(s) + 1
  {
    if s != [] {
      LinesCount(s[1..]);
    }
  }

  /** Joining lines adds one newline between each two of them. */
  lemma {:induction false} JoinLinesCount(ls: seq<string>, k: nat)
    requires k < |ls|
    ensures NewlineCount(JoinLines(ls)) >= |ls| - 1 + NewlineCount(ls[k])
  {
    if |ls| > 1 {
      var rest := ls[1..];
      NewlineCountAppend(ls[0], "\n" + JoinLines(rest));
      NewlineCountAppend("\n", JoinLines(rest));
      assert ls[0] + "\n" + JoinLines(rest) == ls[0] + ("\n" + JoinLines(rest));
      if k == 0 {
        JoinLinesCount(rest, 0);
      } else {
        JoinLinesCount(rest, k - 1);
        assert rest[k - 1] == ls[k];
      }
    }
  }

  lemma EntryLinesRead(r: Record)
    ensures ReadLines(EntryLines(r)) == Some(r)
  {
    var ls := EntryLines(r);
    assert |ls| == 9 && ls[0] == HEADER;
    assert IsBlank(ls[8]);
    ValueOfIndented("Type", "Application");
    ValueOfIndented("Name", r.name);
    ValueOfIndented("Exec", r.exec);
    ValueOfIndented("Path", r.path);
    ValueOfIndented("Icon", r.icon);
    ValueOfIndented("Terminal", "false");
    ValueOfIndented("Categories", "Game");
  }

  // ---------------------------------------------------------------- writers

  /** What `create_desktop_entry` returns and what it changed on disk. */
  datatype Written = Written(entry: Option<string>, effects: seq<Effect>)

  /** `create_desktop_entry`: writes the entry text at the entry path and
      returns that path, or, when writing raises, reports nothing written and
      returns `None` instead of raising. */
  function CreateDesktopEntry(appsDir: string, name: string, exec: string, path: string,
                              icon: string, writeOk: bool): (w: Written)
    ensures w.entry.Some? <==> writeOk
    ensures writeOk ==>
      (w.entry == Some(EntryPath(appsDir, name))
       && w.effects == [WroteFile(EntryPath(appsDir, name), EntryText(Record(name, exec, path, icon)))])
    ensures !writeOk ==> w.effects == []
  {
    if writeOk then
      var entryPath := EntryPath(appsDir, name);
      Written(Some(entryPath), [WroteFile(entryPath, EntryText(Record(name, exec, path, icon)))])
    else Written(None, [])
  }

  /** What the desktop-folder lookup yields: no folder (the lookup command is
      missing or exits with an error), a folder, or any other exception of the
      lookup (creating the folder, decoding the command's output), which is
      not caught and propagates out of the workflow. */
  datatype DesktopLookup = NoDesktopDir | DesktopDir(path: string) | LookupRaises

  /** Where the symlink steps fail, if anywhere. */
  datatype LinkFault = LinkOk | UnlinkFails | SymlinkFails

  /** What `create_desktop_symlink` did: returned a link path or `None` with
      some effects, or raised out of the lookup. */
  datatype Linked = Linked(link: Option<string>, effects: seq<Effect>) | Raised

  /** The link name is the game name itself, not its stem. */
  function LinkPath(desktopDir: string, name: string): string {
    Join(desktopDir, name + ".desktop")
  }

  /** The notice printed, as console markup, before the link is replaced. */
  function PathNotice(link: string): string {
    "[dim]Path: " + link
  }

  /** `create_desktop_symlink`: prints the link path, removes whatever is at
      the link name, then links it to the entry. Every exception after the
      lookup (a notice the markup parser rejects, a failing removal or link)
      ends the steps with `None`; `markupRejects` is the console's verdict on
      a markup text. */
  function CreateDesktopSymlink(lookup: DesktopLookup, name: string, entry: string,
                                fault: LinkFault, markupRejects: string -> bool): (l: Linked)
    ensures lookup.LookupRaises? <==> l.Raised?
    ensures lookup.NoDesktopDir? ==> l == Linked(None, [])
    ensures l.Linked? && l.link.Some? <==>
      lookup.DesktopDir? && fault.LinkOk? && !markupRejects(PathNotice(LinkPath(lookup.path, name)))
    ensures l.Linked? && l.link.Some? ==>
      (l.link.value == LinkPath(lookup.path, name)
       && l.effects == [RemovedLink(l.link.value), MadeLink(l.link.value, entry)])
    ensures lookup.DesktopDir? && (markupRejects(PathNotice(LinkPath(lookup.path, name))) || fault.UnlinkFails?) ==>
      l == Linked(None, [])
    ensures lookup.DesktopDir? && !markupRejects(PathNotice(LinkPath(lookup.path, name))) && fault.SymlinkFails? ==>
      l == Linked(None, [RemovedLink(LinkPath(lookup.path, name))])
  {
    match lookup
    case LookupRaises => Raised
    case NoDesktopDir => Linked(None, [])
    case DesktopDir(dir) =>
      var link := LinkPath(dir, name);
      if markupRejects(PathNotice(link)) then Linked(None, [])
      else match fault
        case UnlinkFails => Linked(None, [])
        case SymlinkFails => Linked(None, [RemovedLink(link)])
        case LinkOk => Linked(Some(link), [RemovedLink(link), MadeLink(link, entry)])
  }
}
