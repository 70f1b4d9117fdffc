/**
 * The interactive workflow of `main()`: query, search, select, fetch the
 * icon, pick the executable, ask for the runner and the working directory,
 * confirm, write the entry and optionally link it on the desktop.
 *
 * Every prompt answer and every outside result is an input. One `Round`
 * holds the answers given during one pass of the `while True` loop (fields
 * the pass never reaches are ignored); a `continue` moves on to the next
 * round. What the run changes on disk is returned as a log of effects.
 */
module Workflow {
  import opened Wrappers
  import opened Strings
  import opened Search
  import opened DesktopEntry

  /** The home directory every fixed location is below, and the console's
      verdict on a markup text: whether printing it raises a markup error
      (an unmatched closing tag such as `[/b]` in a game name does). */
  datatype Config = Config(home: string, markupRejects: string -> bool)

  // ---------------------------------------------------------------- prompts

  datatype ValidationError = ValidationError(message: string, cursorPosition: nat)

  /** `NameValidator.validate`: rejects exactly the empty text, placing the
      cursor at its end. Blank but non-empty text is accepted. */
  function ValidateName(text: string): (err: Option<ValidationError>)
    ensures err.Some? <==> text == []
    ensures err.Some? ==> err.value.cursorPosition == |text|
    ensures err.Some? ==> err.value.message == "Please provide correct input"
  {
    if |text| == 0 then Some(ValidationError("Please provide correct input", |text|)) else None
  }

  /** A text prompt guarded by `NameValidator`. Each submission is an entered
      text or `None` (the prompt was interrupted). A rejected text leaves the
      prompt open; the answer is the first submission that is not rejected,
      and there is none while the prompt is still waiting. */
  function Ask(submissions: seq<Option<string>>): (answer: Option<Option<string>>)
    ensures answer.None? <==> forall k :: 0 <= k < |submissions| ==> submissions[k] == Some("")
    ensures answer.Some? ==> answer.value in submissions
    ensures answer.Some? && answer.value.Some? ==> ValidateName(answer.value.value).None?
    ensures |submissions| > 0 && submissions[0] != Some("") ==> answer == Some(submissions[0])
    ensures answer.Some? ==>
      exists k :: 0 <= k < |submissions| && answer.value == submissions[k]
                  && forall j :: 0 <= j < k ==> submissions[j] == Some("")
  {
    if submissions == [] then None
    else if submissions[0].Some? && ValidateName(submissions[0].value).Some? then Ask(submissions[1..])
    else Some(submissions[0])
  }

  // ---------------------------------------------------------------- runs

  /** Where a `KeyboardInterrupt` was raised. */
  datatype Stage = AtQuery | AtIcon | AtPicker | AtCmdPath

  /** The texts with user data that `main` prints itself, outside any `try`. */
  datatype Notice = NoResultsNotice | SummaryTable

  /** How a run ends. */
  datatype Outcome =
    | Interrupted(at: Stage)                         // KeyboardInterrupt, exit 0
    | NoGameSelected                                 // "No game selected."
    | Canceled                                       // "Desktop entry creation canceled."
    | EntryFailed                                    // "Cannot create desktop entry.", also when
                                                     // reporting the write error itself raises
    | LinkSkipped(entry: string)                     // entry written, no symlink wanted
    | LinkAttempted(entry: string, link: Option<string>)  // entry written, symlink tried
    | Crashed                                        // the desktop lookup raised out of `main`, exit 1
    | MarkupFailed(notice: Notice)                   // printing a notice raised out of `main`, exit 1
    | Waiting                                        // still at a prompt: the answers ran out

  /** The answers and outside results of one pass of the loop. */
  datatype Round = Round(
    query: seq<Option<string>>,     // submissions at the game-name prompt
    reply: SearchReply,             // what the store search returned
    selection: Option<nat>,         // index of the chosen entry, or None
    iconFound: bool,                // whether the icon download succeeded
    picked: Option<string>,         // the file picker's result
    runner: Option<string>,         // the runner prompt's answer
    cmdPath: seq<Option<string>>,   // submissions at the working-directory prompt
    confirmEntry: Option<bool>,     // "create desktop entry?"
    writeOk: bool,                  // whether writing the entry succeeds
    confirmLink: Option<bool>,      // "create symlink shortcut?"
    desktop: DesktopLookup,         // the desktop-folder lookup
    linkFault: LinkFault)           // where the symlink steps fail, if anywhere

  /** The end of one pass: back to the query prompt, or out of `main`. */
  datatype Step =
    | Restart(effects: seq<Effect>)
    | Stop(outcome: Outcome, effects: seq<Effect>)

  datatype RunResult = RunResult(outcome: Outcome, effects: seq<Effect>)

  /** The process exit status; none while the run is still waiting. */
  function ExitCode(o: Outcome): Option<int> {
    match o
    case Waiting => None
    case Crashed => Some(1)
    case MarkupFailed(_) => Some(1)
    case _ => Some(0)
  }

  function SavedIconEffects(cfg: Config, game: Game): seq<Effect> {
    [SavedIcon(IconFile(IconsDir(cfg.home), game.id))]
  }

  /** The notice that the search found nothing, echoing the query. */
  function NoResultsMessage(query: string): string {
    "[yellow]No games found for query: " + query + ". Try again[/yellow]"
  }

  /** The texts of the summary table: title, column headers, then the label
      and the value of each row. */
  function SummaryTexts(rec: Record): seq<string> {
    ["Summary of desktop entry:", "ID", "Value",
     "Name", rec.name, "Exec path:", rec.exec, "Directory path:", rec.path, "Icon path:", rec.icon]
  }

  /** Printing the summary table raises when one of its texts is rejected. */
  predicate TableRejected(cfg: Config, rec: Record) {
    exists k :: 0 <= k < |SummaryTexts(rec)| && cfg.markupRejects(SummaryTexts(rec)[k])
  }

  /** One pass of the `while True` body: the query prompt. */
  function RoundStep(cfg: Config, r: Round): Step {
    match Ask(r.query)
    case None => Stop(Waiting, [])
    case Some(None) => Stop(Interrupted(AtQuery), [])
    case Some(Some(query)) =>
      if IsBlank(query) then Restart([]) else AfterQuery(cfg, r, query)
  }

  /** The search and the selection list, in the order the search returned.
      An index past the list is no answer the list prompt gives: such a
      round is one whose prompt is still waiting. */
  function AfterQuery(cfg: Config, r: Round, query: string): Step {
    var choices := Choices(FoundGames(r.reply));
    if choices == [] then
      if cfg.markupRejects(NoResultsMessage(query)) then Stop(MarkupFailed(NoResultsNotice), []) else Restart([])
    else match r.selection
      case None => Stop(NoGameSelected, [])
      case Some(k) => if k >= |choices| then Stop(Waiting, []) else AfterSelection(cfg, r, choices[k].value)
  }

  /** The icon download, the file picker, the runner and the working directory. */
  function AfterSelection(cfg: Config, r: Round, game: Game): Step {
    if !r.iconFound then Stop(Interrupted(AtIcon), [])
    else
      var saved := SavedIconEffects(cfg, game);
      match r.picked
      case None => Stop(Interrupted(AtPicker), saved)
      case Some(exec) =>
        match Ask(r.cmdPath)
        case None => Stop(Waiting, saved)
        case Some(None) => Stop(Interrupted(AtCmdPath), saved)
        case Some(Some(dir)) =>
          if IsBlank(dir) then Restart(saved)
          else
            var rec := Record(game.name, ExecCommand(r.runner, exec), dir, IconName(game.id));
            if TableRejected(cfg, rec) then Stop(MarkupFailed(SummaryTable), saved)
            else
              var fin := Persist(cfg, r, rec);
              Stop(fin.outcome, saved + fin.effects)
  }

  /** The confirmation, the entry write and the optional symlink. */
  function Persist(cfg: Config, r: Round, rec: Record): RunResult {
    if r.confirmEntry != Some(true) then RunResult(Canceled, [])
    else
      var written := CreateDesktopEntry(AppsDir(cfg.home), rec.name, rec.exec, rec.path, rec.icon, r.writeOk);
      match written.entry
      case None => RunResult(EntryFailed, written.effects)
      case Some(entry) =>
        if r.confirmLink != Some(true) then RunResult(LinkSkipped(entry), written.effects)
        else match CreateDesktopSymlink(r.desktop, rec.name, entry, r.linkFault, cfg.markupRejects)
          case Raised => RunResult(Crashed, written.effects)
          case Linked(link, linkEffects) => RunResult(LinkAttempted(entry, link), written.effects + linkEffects)
  }

  /** The passes a script of rounds makes, one per round. */
  function Steps(cfg: Config, rounds: seq<Round>): (steps: seq<Step>)
    ensures |steps| == |rounds|
    ensures forall k :: 0 <= k < |rounds| ==> steps[k] == RoundStep(cfg, rounds[k])
  {
    seq(|rounds|, k requires 0 <= k < |rounds| => RoundStep(cfg, rounds[k]))
  }

  /** The loop over passes: it goes on while they restart, gathering what
      they wrote, and ends with the first pass that leaves the loop. */
  function Drive(steps: seq<Step>): RunResult {
    if steps == [] then RunResult(Waiting, [])
    else match steps[0]
      case Restart(effects) =>
        var rest := Drive(steps[1..]);
        RunResult(rest.outcome, effects + rest.effects)
      case Stop(outcome, effects) => RunResult(outcome, effects)
  }

  /** The whole run of `main()` on a script of rounds. */
  function Run(cfg: Config, rounds: seq<Round>): RunResult {
    Drive(Steps(cfg, rounds))
  }

  // ---------------------------------------------------------------- stages

  /** The query prompt accepted a text that is not blank. */
  predicate QueryAccepted(r: Round) {
    var a := Ask(r.query);
    a.Some? && a.value.Some? && !IsBlank(a.value.value)
  }

  predicate GamesFound(r: Round) {
    QueryAccepted(r) && FoundGames(r.reply) != []
  }

  predicate GameSelected(r: Round) {
    GamesFound(r) && r.selection.Some? && r.selection.value < |FoundGames(r.reply)|
  }

  function SelectedGame(r: Round): Game
    requires GameSelected(r)
  {
    FoundGames(r.reply)[r.selection.value]
  }

  predicate IconSaved(r: Round) {
    GameSelected(r) && r.iconFound
  }

  predicate FilePicked(r: Round) {
    IconSaved(r) && r.picked.Some?
  }

  predicate DirectoryGiven(r: Round) {
    var a := Ask(r.cmdPath);
    FilePicked(r) && a.Some? && a.value.Some? && !IsBlank(a.value.value)
  }

  /** The record the entry is filled with once the directory is given. */
  function RecordOf(r: Round): Record
    requires DirectoryGiven(r)
  {
    var game := SelectedGame(r);
    Record(game.name, ExecCommand(r.runner, r.picked.value), Ask(r.cmdPath).value.value, IconName(game.id))
  }

  predicate SummaryShown(cfg: Config, r: Round) {
    DirectoryGiven(r) && !TableRejected(cfg, RecordOf(r))
  }

  predicate EntryConfirmed(cfg: Config, r: Round) {
    SummaryShown(cfg, r) && r.confirmEntry == Some(true)
  }

  predicate EntryWritten(cfg: Config, r: Round) {
    EntryConfirmed(cfg, r) && r.writeOk
  }

  predicate LinkRequested(cfg: Config, r: Round) {
    EntryWritten(cfg, r) && r.confirmLink == Some(true)
  }

  /** A pass that gets past the selection continues with the game chosen
      from the list, in search order. */
  lemma SelectionReached(cfg: Config, r: Round)
    requires GameSelected(r)
    ensures RoundStep(cfg, r) == AfterSelection(cfg, r, SelectedGame(r))
  {
    var choices := Choices(FoundGames(r.reply));
    assert choices[r.selection.value].value == SelectedGame(r);
  }

  /** A pass whose summary table is printed continues with the record built
      from the answers, after saving the icon. */
  lemma PersistReached(cfg: Config, r: Round)
    requires SummaryShown(cfg, r)
    ensures var fin := Persist(cfg, r, RecordOf(r));
      RoundStep(cfg, r) == Stop(fin.outcome, SavedIconEffects(cfg, SelectedGame(r)) + fin.effects)
  {
    SelectionReached(cfg, r);
  }

  /** A pass whose summary table is rejected by the console leaves `main`
      with exit code 1, after saving the icon and before any confirmation. */
  lemma TableRejectedStops(cfg: Config, r: Round)
    requires DirectoryGiven(r) && TableRejected(cfg, RecordOf(r))
    ensures RoundStep(cfg, r) == Stop(MarkupFailed(SummaryTable), SavedIconEffects(cfg, SelectedGame(r)))
    ensures ExitCode(RoundStep(cfg, r).outcome) == Some(1)
  {
    SelectionReached(cfg, r);
  }

  /** A search that finds nothing goes back to the query prompt after the
      notice echoing the query, or leaves `main` with exit code 1 when the
      console rejects that notice. */
  lemma NoResultsEcho(cfg: Config, r: Round)
    requires QueryAccepted(r) && FoundGames(r.reply) == []
    ensures var query := Ask(r.query).value.value;
      RoundStep(cfg, r) ==
        if cfg.markupRejects(NoResultsMessage(query)) then Stop(MarkupFailed(NoResultsNotice), []) else Restart([])
  {
  }

  /** A pass goes back to the query prompt exactly when the query is blank,
      the search found nothing and its notice prints, or the working
      directory is blank. */
  lemma RestartCauses(cfg: Config, r: Round)
    ensures RoundStep(cfg, r).Restart? <==>
      (Ask(r.query).Some? && Ask(r.query).value.Some? && IsBlank(Ask(r.query).value.value))
      || (QueryAccepted(r) && FoundGames(r.reply) == [] && !cfg.markupRejects(NoResultsMessage(Ask(r.query).value.value)))
      || (FilePicked(r) && Ask(r.cmdPath).Some? && Ask(r.cmdPath).value.Some? && IsBlank(Ask(r.cmdPath).value.value))
  {
    if GameSelected(r) {
      SelectionReached(cfg, r);
    }
  }

  /** An interrupted query prompt ends the run before anything is written. */
  lemma QueryInterruptStops(cfg: Config, r: Round)
    requires Ask(r.query) == Some(None)
    ensures RoundStep(cfg, r) == Stop(Interrupted(AtQuery), [])
    ensures ExitCode(RoundStep(cfg, r).outcome) == Some(0)
  {
  }

  /** No selection ends the run with "No game selected" and nothing written. */
  lemma NoSelectionStops(cfg: Config, r: Round)
    requires GamesFound(r) && r.selection.None?
    ensures RoundStep(cfg, r) == Stop(NoGameSelected, [])
  {
  }

  /** A failed icon download interrupts the run; there is no fallback to an
      entry without an icon. */
  lemma IconMissingInterrupts(cfg: Config, r: Round)
    requires GameSelected(r) && !r.iconFound
    ensures RoundStep(cfg, r) == Stop(Interrupted(AtIcon), [])
  {
    SelectionReached(cfg, r);
  }

  /** A cancelled file picker or working-directory prompt interrupts the run
      after the icon was saved. */
  lemma PickerOrDirectoryInterrupts(cfg: Config, r: Round)
    requires IconSaved(r)
    ensures r.picked.None? ==>
      RoundStep(cfg, r) == Stop(Interrupted(AtPicker), SavedIconEffects(cfg, SelectedGame(r)))
    ensures r.picked.Some? && Ask(r.cmdPath) == Some(None) ==>
      RoundStep(cfg, r) == Stop(Interrupted(AtCmdPath), SavedIconEffects(cfg, SelectedGame(r)))
  {
    SelectionReached(cfg, r);
  }

  predicate IsLinkEffect(e: Effect) {
    e.RemovedLink? || e.MadeLink?
  }

  /** The last steps write nothing unless the entry is confirmed and its
      write succeeds: a declined confirmation cancels, a failed write ends
      the run with no entry. */
  lemma PersistNothingWithoutEntry(cfg: Config, r: Round, rec: Record)
    requires !(r.confirmEntry == Some(true) && r.writeOk)
    ensures Persist(cfg, r, rec).effects == []
    ensures Persist(cfg, r, rec).outcome == if r.confirmEntry != Some(true) then Canceled else EntryFailed
  {
  }

  /** After a written entry: a declined symlink ends the run with the entry
      path; a raising desktop lookup crashes it; otherwise the run ends with
      the symlink notice whatever the symlink step returned, and a link only
      when a desktop folder exists, its path notice prints and no step
      fails. */
  lemma PersistOutcome(cfg: Config, r: Round, rec: Record)
    requires r.confirmEntry == Some(true) && r.writeOk
    ensures var o := Persist(cfg, r, rec).outcome;
      && (r.confirmLink != Some(true) ==> o == LinkSkipped(EntryPath(AppsDir(cfg.home), rec.name)))
      && (r.confirmLink == Some(true) && r.desktop.LookupRaises? ==> o == Crashed)
      && (r.confirmLink == Some(true) && !r.desktop.LookupRaises? ==>
            o.LinkAttempted? && o.entry == EntryPath(AppsDir(cfg.home), rec.name)
            && (o.link.Some? <==>
                  r.desktop.DesktopDir? && r.linkFault.LinkOk?
                  && !cfg.markupRejects(PathNotice(LinkPath(r.desktop.path, rec.name)))))
  {
  }

  /** At most the icon: the effects of a pass that writes no entry. */
  predicate IconOnly(e: seq<Effect>) {
    e == [] || (|e| == 1 && e[0].SavedIcon?)
  }

  /** The symlink steps' effects: nothing, the removal alone, or the removal
      then the link. */
  predicate LinkTail(t: seq<Effect>) {
    t == [] || (|t| == 1 && t[0].RemovedLink?) || (|t| == 2 && t[0].RemovedLink? && t[1].MadeLink?)
  }

  /** The outcomes of the symlink step, which only follow a written entry. */
  predicate AfterEntry(o: Outcome) {
    o.LinkSkipped? || o.LinkAttempted? || o.Crashed?
  }

  /** A pass that stops before the selection writes nothing and does not
      end after an entry. */
  lemma NoEntryBeforeSelection(cfg: Config, r: Round)
    requires !GameSelected(r)
    ensures RoundStep(cfg, r).effects == []
    ensures RoundStep(cfg, r).Stop? ==> !AfterEntry(RoundStep(cfg, r).outcome)
  {
  }

  /** The stages from the icon to the working directory, for the game
      selected: the icon at most, and no outcome of the symlink step. */
  lemma NoEntryBeforeDirectoryAfter(cfg: Config, r: Round, game: Game)
    requires !(r.iconFound && r.picked.Some? && Ask(r.cmdPath).Some? && Ask(r.cmdPath).value.Some?
               && !IsBlank(Ask(r.cmdPath).value.value))
    ensures IconOnly(AfterSelection(cfg, r, game).effects)
    ensures AfterSelection(cfg, r, game).Stop? ==> !AfterEntry(AfterSelection(cfg, r, game).outcome)
  {
  }

  /** A pass that stops before the working directory saves the icon at most
      and does not end after an entry. */
  lemma NoEntryBeforeDirectory(cfg: Config, r: Round)
    requires !DirectoryGiven(r)
    ensures IconOnly(RoundStep(cfg, r).effects)
    ensures RoundStep(cfg, r).Stop? ==> !AfterEntry(RoundStep(cfg, r).outcome)
  {
    if !GameSelected(r) {
      NoEntryBeforeSelection(cfg, r);
    } else {
      SelectionReached(cfg, r);
      NoEntryBeforeDirectoryAfter(cfg, r, SelectedGame(r));
    }
  }

  /** A pass with a directory whose summary is rejected, or whose entry is
      declined or fails to be written, saves the icon only. */
  lemma NoEntryAfterDirectory(cfg: Config, r: Round)
    requires DirectoryGiven(r) && !EntryWritten(cfg, r)
    ensures IconOnly(RoundStep(cfg, r).effects)
    ensures RoundStep(cfg, r).Stop? && !AfterEntry(RoundStep(cfg, r).outcome)
  {
    if TableRejected(cfg, RecordOf(r)) {
      TableRejectedStops(cfg, r);
    } else {
      PersistReached(cfg, r);
      PersistNothingWithoutEntry(cfg, r, RecordOf(r));
    }
  }

  /** What a pass writes when the entry is not written: the icon at most. */
  lemma IconOnlyUnlessWritten(cfg: Config, r: Round)
    requires !EntryWritten(cfg, r)
    ensures IconOnly(RoundStep(cfg, r).effects)
    ensures RoundStep(cfg, r).Stop? ==> !AfterEntry(RoundStep(cfg, r).outcome)
  {
    if DirectoryGiven(r) {
      NoEntryAfterDirectory(cfg, r);
    } else {
      NoEntryBeforeDirectory(cfg, r);
    }
  }

  /** Once the entry is written, the symlink steps add nothing, the
      removal alone, or the removal then the link, and only when the symlink
      was asked for and a desktop folder exists. */
  lemma PersistLinkTail(cfg: Config, r: Round, rec: Record)
    requires r.confirmEntry == Some(true) && r.writeOk
    ensures var fin := Persist(cfg, r, rec);
      |fin.effects| >= 1
      && fin.effects[0] == WroteFile(EntryPath(AppsDir(cfg.home), rec.name), EntryText(rec))
      && LinkTail(fin.effects[1..])
      && AfterEntry(fin.outcome)
      && (fin.effects[1..] != [] ==>
            fin.outcome.LinkAttempted? && r.confirmLink == Some(true) && r.desktop.DesktopDir?)
  {
    var written := CreateDesktopEntry(AppsDir(cfg.home), rec.name, rec.exec, rec.path, rec.icon, r.writeOk);
    var entry := EntryPath(AppsDir(cfg.home), rec.name);
    assert written.effects == [WroteFile(entry, EntryText(rec))];
    if r.confirmLink == Some(true) {
      var linked := CreateDesktopSymlink(r.desktop, rec.name, entry, r.linkFault, cfg.markupRejects);
      SymlinkTail(r.desktop, rec.name, entry, r.linkFault, cfg.markupRejects);
      if linked.Linked? {
        assert (written.effects + linked.effects)[1..] == linked.effects;
      }
    }
  }

  /** The symlink steps' effects form a link tail, empty without a folder. */
  lemma SymlinkTail(lookup: DesktopLookup, name: string, entry: string, fault: LinkFault,
                    markupRejects: string -> bool)
    ensures var l := CreateDesktopSymlink(lookup, name, entry, fault, markupRejects);
      l.Linked? ==> LinkTail(l.effects) && (l.effects != [] ==> lookup.DesktopDir?)
  {
  }

  /** What a pass writes when the entry is written: the icon, the entry at
      the stem path with the text of the answers given, then the symlink
      steps' effects, which are empty unless the symlink was asked for. */
  lemma EntryThenLinks(cfg: Config, r: Round)
    requires EntryWritten(cfg, r)
    ensures RoundStep(cfg, r).Stop? && AfterEntry(RoundStep(cfg, r).outcome)
    ensures var e := RoundStep(cfg, r).effects;
      |e| >= 2 && e[0].SavedIcon?
      && e[1] == WroteFile(EntryPath(AppsDir(cfg.home), SelectedGame(r).name), EntryText(RecordOf(r)))
      && LinkTail(e[2..])
      && (e[2..] != [] ==>
            RoundStep(cfg, r).outcome.LinkAttempted? && LinkRequested(cfg, r) && r.desktop.DesktopDir?)
  {
    PersistReached(cfg, r);
    PersistLinkTail(cfg, r, RecordOf(r));
    var fin := Persist(cfg, r, RecordOf(r));
    IconThen(SavedIconEffects(cfg, SelectedGame(r))[0], fin.effects);
  }

  /** The log of a pass that saved the icon and then ran the last steps. */
  lemma IconThen(icon: Effect, fin: seq<Effect>)
    requires |fin| >= 1
    ensures |[icon] + fin| >= 2 && ([icon] + fin)[0] == icon
    ensures ([icon] + fin)[1] == fin[0] && ([icon] + fin)[2..] == fin[1..]
  {
    assert ([icon] + fin)[2..] == fin[1..];
  }

  /** The effects of a pass are in the order the workflow promises. */
  predicate WellOrdered(step: Step) {
    var e := step.effects;
    (step.Restart? ==> IconOnly(e))
    && (IconOnly(e) && step.Stop? ==> !AfterEntry(step.outcome))
    && (!IconOnly(e) ==>
          step.Stop? && |e| >= 2 && e[0].SavedIcon? && e[1].WroteFile? && LinkTail(e[2..])
          && AfterEntry(step.outcome)
          && (e[2..] != [] ==> step.outcome.LinkAttempted?))
  }

  lemma RoundWellOrdered(cfg: Config, r: Round)
    ensures WellOrdered(RoundStep(cfg, r))
  {
    if EntryWritten(cfg, r) {
      EntryThenLinks(cfg, r);
    } else {
      IconOnlyUnlessWritten(cfg, r);
    }
  }

  /** The loop ends at its first pass that does not restart, and keeps the
      icons saved by the passes before it. */
  lemma {:induction false} DriveStopsAtFirstStop(steps: seq<Step>, k: nat)
    requires k < |steps| && steps[k].Stop?
    requires forall j :: 0 <= j < k ==> steps[j].Restart? && WellOrdered(steps[j])
    ensures Drive(steps).outcome == steps[k].outcome
    ensures var all, last := Drive(steps).effects, steps[k].effects;
      |all| >= |last| && all[|all| - |last|..] == last
      && forall j :: 0 <= j < |all| - |last| ==> all[j].SavedIcon?
  {
    if k > 0 {
      DriveStopsAtFirstStop(steps[1..], k - 1);
      var rest := Drive(steps[1..]).effects;
      var all := steps[0].effects + rest;
      assert Drive(steps).effects == all;
      forall j | 0 <= j < |all| - |steps[k].effects| ensures all[j].SavedIcon? {
        if j >= |steps[0].effects| {
          assert all[j] == rest[j - |steps[0].effects|];
        }
      }
    }
  }

  /** A loop whose every pass restarts is still waiting at the query prompt. */
  lemma {:induction false} DriveWaitsWhenAllRestart(steps: seq<Step>)
    requires forall j :: 0 <= j < |steps| ==> steps[j].Restart? && WellOrdered(steps[j])
    ensures Drive(steps).outcome == Waiting
    ensures forall j :: 0 <= j < |Drive(steps).effects| ==> Drive(steps).effects[j].SavedIcon?
  {
    if steps != [] {
      DriveWaitsWhenAllRestart(steps[1..]);
      var rest := Drive(steps[1..]).effects;
      var all := steps[0].effects + rest;
      assert Drive(steps).effects == all;
      forall j | 0 <= j < |all| ensures all[j].SavedIcon? {
        if j >= |steps[0].effects| {
          assert all[j] == rest[j - |steps[0].effects|];
        }
      }
    }
  }

  /** Over the whole loop: an entry is written only in runs that end after
      the entry step. */
  lemma {:induction false} DriveEntryBeforeEnd(steps: seq<Step>)
    requires forall j :: 0 <= j < |steps| ==> WellOrdered(steps[j])
    ensures var res := Drive(steps);
      (exists k :: 0 <= k < |res.effects| && res.effects[k].WroteFile?) ==> AfterEntry(res.outcome)
  {
    if steps != [] && steps[0].Restart? {
      DriveEntryBeforeEnd(steps[1..]);
      var e := steps[0].effects;
      var rest := Drive(steps[1..]);
      var all := e + rest.effects;
      assert Drive(steps) == RunResult(rest.outcome, all);
      if exists k :: 0 <= k < |all| && all[k].WroteFile? {
        var k :| 0 <= k < |all| && all[k].WroteFile?;
        assert rest.effects[k - |e|].WroteFile?;
      }
    } else if steps != [] {
      var e := steps[0].effects;
      if exists k :: 0 <= k < |e| && e[k].WroteFile? {
        assert !IconOnly(e);
      }
    }
  }

  /** Link effects only follow a written entry, and only in a run that
      ends after the symlink step. */
  lemma {:induction false} DriveLinksFollowEntry(steps: seq<Step>)
    requires forall j :: 0 <= j < |steps| ==> WellOrdered(steps[j])
    ensures var res := Drive(steps);
      forall k :: 0 <= k < |res.effects| && IsLinkEffect(res.effects[k]) ==>
        res.outcome.LinkAttempted? && exists j :: 0 <= j < k && res.effects[j].WroteFile?
  {
    if steps != [] && steps[0].Restart? {
      var e := steps[0].effects;
      var rest := Drive(steps[1..]);
      DriveLinksFollowEntry(steps[1..]);
      assert forall k :: 0 <= k < |rest.effects| && IsLinkEffect(rest.effects[k]) ==> rest.outcome.LinkAttempted?
        by { assert rest == Drive(steps[1..]); }
      var all := e + rest.effects;
      assert Drive(steps) == RunResult(rest.outcome, all);
      forall k | 0 <= k < |all| && IsLinkEffect(all[k])
        ensures rest.outcome.LinkAttempted? && exists j :: 0 <= j < k && all[j].WroteFile?
      {
        assert k >= |e|;
        assert rest.effects[k - |e|] == all[k];
        var j :| 0 <= j < k - |e| && rest.effects[j].WroteFile?;
        assert all[j + |e|].WroteFile?;
      }
    } else if steps != [] {
      var e := steps[0].effects;
      forall k | 0 <= k < |e| && IsLinkEffect(e[k])
        ensures steps[0].outcome.LinkAttempted? && exists j :: 0 <= j < k && e[j].WroteFile?
      {
        assert !IconOnly(e) && k >= 2;
        assert e[2..][k - 2] == e[k];
        assert e[1].WroteFile?;
      }
    }
  }

  /** A run that ends in the desktop lookup's exception wrote an entry first. */
  lemma {:induction false} DriveCrashAfterEntry(steps: seq<Step>)
    requires forall j :: 0 <= j < |steps| ==> WellOrdered(steps[j])
    ensures var res := Drive(steps);
      res.outcome == Crashed ==> exists k :: 0 <= k < |res.effects| && res.effects[k].WroteFile?
  {
    if steps != [] && steps[0].Restart? {
      DriveCrashAfterEntry(steps[1..]);
      var e := steps[0].effects;
      var rest := Drive(steps[1..]);
      if rest.outcome == Crashed {
        var k :| 0 <= k < |rest.effects| && rest.effects[k].WroteFile?;
        assert (e + rest.effects)[k + |e|].WroteFile?;
      }
    }
  }

  /** The same facts for a run of `main()` on any script; in particular a
      run exits with code 1 either from the desktop lookup after writing an
      entry, or from a rejected notice before writing any. */
  lemma RunEffectsOrder(cfg: Config, rounds: seq<Round>)
    ensures var res := Run(cfg, rounds);
      (exists k :: 0 <= k < |res.effects| && res.effects[k].WroteFile?) ==>
        AfterEntry(res.outcome)
    ensures var res := Run(cfg, rounds);
      forall k :: 0 <= k < |res.effects| && IsLinkEffect(res.effects[k]) ==>
        res.outcome.LinkAttempted? && exists j :: 0 <= j < k && res.effects[j].WroteFile?
    ensures var res := Run(cfg, rounds);
      ExitCode(res.outcome) == Some(1) ==>
        (res.outcome == Crashed && exists k :: 0 <= k < |res.effects| && res.effects[k].WroteFile?)
        || (res.outcome.MarkupFailed? && forall k :: 0 <= k < |res.effects| ==> !res.effects[k].WroteFile?)
  {
    var steps := Steps(cfg, rounds);
    forall j | 0 <= j < |steps| ensures WellOrdered(steps[j]) {
      RoundWellOrdered(cfg, rounds[j]);
    }
    DriveEntryBeforeEnd(steps);
    DriveLinksFollowEntry(steps);
    DriveCrashAfterEntry(steps);
  }

  /** A run ends at its first round that does not restart. */
  lemma RunStopsAtFirstStop(cfg: Config, rounds: seq<Round>, k: nat)
    requires k < |rounds| && RoundStep(cfg, rounds[k]).Stop?
    requires forall j :: 0 <= j < k ==> RoundStep(cfg, rounds[j]).Restart?
    ensures Run(cfg, rounds).outcome == RoundStep(cfg, rounds[k]).outcome
  {
    var steps := Steps(cfg, rounds);
    forall j | 0 <= j < k ensures steps[j].Restart? && WellOrdered(steps[j]) {
      RoundWellOrdered(cfg, rounds[j]);
    }
    DriveStopsAtFirstStop(steps, k);
  }

  // ---------------------------------------------------------------- the loop

  /** One pass of the loop body, step by step. */
  method PlayRound(cfg: Config, r: Round) returns (step: Step)
    ensures step == RoundStep(cfg, r)
  {
    var gameQuery := Ask(r.query);
    if gameQuery.None? {
      return Stop(Waiting, []);
    }
    if gameQuery.value.None? {
      return Stop(Interrupted(AtQuery), []);
    }
    if IsBlank(gameQuery.value.value) {
      return Restart([]);
    }
    step := SearchAndSelect(cfg, r, gameQuery.value.value);
  }

  /** The search and the selection list of one pass. */
  method SearchAndSelect(cfg: Config, r: Round, gameQuery: string) returns (step: Step)
    ensures step == AfterQuery(cfg, r, gameQuery)
  {
    var foundGames := GetValidGames(r.reply);
    if foundGames == [] {
      if cfg.markupRejects(NoResultsMessage(gameQuery)) {
        return Stop(MarkupFailed(NoResultsNotice), []);
      }
      return Restart([]);
    }
    var choices := Choices(foundGames);
    if r.selection.None? {
      return Stop(NoGameSelected, []);
    }
    if r.selection.value >= |choices| {
      return Stop(Waiting, []);
    }
    step := InstallGame(cfg, r, choices[r.selection.value].value);
  }

  /** The icon, the executable, the runner and the working directory of one
      pass, for the game selected. */
  method InstallGame(cfg: Config, r: Round, selectedGame: Game) returns (step: Step)
    ensures step == AfterSelection(cfg, r, selectedGame)
  {
    if !r.iconFound {
      return Stop(Interrupted(AtIcon), []);
    }
    var iconFilename := IconName(selectedGame.id);
    var effects := [SavedIcon(IconFile(IconsDir(cfg.home), selectedGame.id))];
    if r.picked.None? {
      return Stop(Interrupted(AtPicker), effects);
    }
    var execCmd := r.picked.value;
    var cmdPath := Ask(r.cmdPath);
    if cmdPath.None? {
      return Stop(Waiting, effects);
    }
    if cmdPath.value.None? {
      return Stop(Interrupted(AtCmdPath), effects);
    }
    if IsBlank(cmdPath.value.value) {
      return Restart(effects);
    }
    var finalExecCmd := ExecCommand(r.runner, execCmd);
    var rec := Record(selectedGame.name, finalExecCmd, cmdPath.value.value, iconFilename);
    if TableRejected(cfg, rec) {
      return Stop(MarkupFailed(SummaryTable), effects);
    }
    var outcome, written := SaveEntry(cfg, r, rec);
    return Stop(outcome, effects + written);
  }

  /** The confirmation, the entry write and the optional symlink. */
  method SaveEntry(cfg: Config, r: Round, rec: Record) returns (outcome: Outcome, effects: seq<Effect>)
    ensures RunResult(outcome, effects) == Persist(cfg, r, rec)
  {
    if r.confirmEntry != Some(true) {
      return Canceled, [];
    }
    var written := CreateDesktopEntry(AppsDir(cfg.home), rec.name, rec.exec, rec.path, rec.icon, r.writeOk);
    effects := written.effects;
    if written.entry.None? {
      return EntryFailed, effects;
    }
    var desktopEntry := written.entry.value;
    if r.confirmLink != Some(true) {
      return LinkSkipped(desktopEntry), effects;
    }
    var linked := CreateDesktopSymlink(r.desktop, rec.name, desktopEntry, r.linkFault, cfg.markupRejects);
    if linked.Raised? {
      return Crashed, effects;
    }
    return LinkAttempted(desktopEntry, linked.link), effects + linked.effects;
  }

  /** `main()`: repeats the loop body until a pass leaves the loop, or the
      answers run out. */
  method RunWorkflow(cfg: Config, rounds: seq<Round>) returns (outcome: Outcome, effects: seq<Effect>)
    ensures RunResult(outcome, effects) == Run(cfg, rounds)
  {
    ghost var steps := Steps(cfg, rounds);
    effects := [];
    var i := 0;
    while i < |rounds|
      invariant 0 <= i <= |rounds|
      invariant Drive(steps).outcome == Drive(steps[i..]).outcome
      invariant Drive(steps).effects == effects + Drive(steps[i..]).effects
    {
      var step := PlayRound(cfg, rounds[i]);
      assert steps[i..][1..] == steps[i + 1..];
      if step.Stop? {
        return step.outcome, effects + step.effects;
      }
      effects := effects + step.effects;
      i := i + 1;
    }
    return Waiting, effects;
  }
}
