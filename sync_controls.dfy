/** The controls between the two panes (Sources/SyncControls.swift): the
    direction toggle, the two sync buttons, and the confirmation asked for
    before a whole-directory sync. */
module Controls {
  import opened SyncTypes
  import opened Text
  import opened SyncPlan
  import opened Orchestration
  import opened Listing
  import opened Selection
  import opened Browser

  const WholeDirectoryMessage: string := "Syncing entire directory"

  function DirectionMessage(direction: SyncDirection): (message: string)
  {
    "Direction: " + if direction == LeftToRight then "LEFT → RIGHT" else "RIGHT → LEFT"
  }

  function SelectedCountMessage(n: nat): (message: string) { "Syncing " + NatToString(n) + " selected item(s)" }
  function ArrowMessage(path: string): (message: string) { "  → " + path }

  function Arrows(paths: seq<string>): (log: seq<LogEntry>)
  {
    seq(|paths|, k requires 0 <= k < |paths| => Info(ArrowMessage(paths[k])))
  }

  /** What `executeSync` logs before it calls `sync`. */
  function SelectionLog(direction: SyncDirection, selectedCount: nat, paths: seq<string>): (log: seq<LogEntry>)
  {
    [Info(DirectionMessage(direction)),
     Info(if selectedCount > 0 then SelectedCountMessage(selectedCount) else WholeDirectoryMessage)]
      + Arrows(paths)
  }

  lemma ArrowsStep(paths: seq<string>, i: nat)
    requires i < |paths|
    ensures Arrows(paths[..i + 1]) == Arrows(paths[..i]) + [Info(ArrowMessage(paths[i]))]
  {
    assert paths[..i + 1][..i] == paths[..i];
  }

  /** The two directions are announced by different lines. */
  lemma DirectionMessagesDiffer()
    ensures DirectionMessage(LeftToRight) != DirectionMessage(RightToLeft)
  {
    var n := |"Direction: "|;
    assert DirectionMessage(LeftToRight)[n] == 'L';
    assert DirectionMessage(RightToLeft)[n] == 'R';
  }

  /** A count line is never the whole-directory line, whatever the count. */
  lemma CountLineIsNotWholeDirectory(n: nat)
    ensures SelectedCountMessage(n) != WholeDirectoryMessage
  {
    var m := SelectedCountMessage(n);
    var k := |"Syncing "|;
    NatToStringDigits(n);
    assert m[k] == NatToString(n)[0];
    assert WholeDirectoryMessage[k] == 'e';
  }

  /** The log names the direction, then either the number of selected items
      or the whole directory (never both, whatever the number), then one
      arrow line per path in order; none of these lines is an error. */
  lemma SelectionLogSpec(direction: SyncDirection, selectedCount: nat, paths: seq<string>)
    ensures var log := SelectionLog(direction, selectedCount, paths);
      && |log| == 2 + |paths|
      && log[0] == Info(DirectionMessage(direction))
      && (forall d :: log[0] == Info(DirectionMessage(d)) <==> d == direction)
      && (log[1] == Info(WholeDirectoryMessage) <==> selectedCount == 0)
      && (selectedCount > 0 ==> log[1] == Info(SelectedCountMessage(selectedCount)))
      && (forall k :: 0 <= k < |paths| ==> log[2 + k] == Info(ArrowMessage(paths[k])))
      && (forall i :: 0 <= i < |log| ==> !log[i].isError)
  {
    var log := SelectionLog(direction, selectedCount, paths);
    var arrows := Arrows(paths);
    CountLineIsNotWholeDirectory(selectedCount);
    DirectionMessagesDiffer();
    forall k | 0 <= k < |paths| ensures log[2 + k] == Info(ArrowMessage(paths[k])) {
      assert log[2 + k] == arrows[k];
    }
  }

  /** For a pane whose selection holds only listed items with distinct ids,
      the announced count is the number of arrow lines that follow, and the
      whole directory is announced exactly when no path is passed on. */
  lemma SelectionLogConsistent(direction: SyncDirection, items: seq<Item>, selected: set<nat>, mode: PaneMode)
    requires DistinctIds(items) && selected <= Ids(items)
    ensures var paths := SelectedPaths(items, selected, mode);
      var log := SelectionLog(direction, |selected|, paths);
      && |log| == 2 + |selected|
      && (log[1] == Info(WholeDirectoryMessage) <==> paths == [])
  {
    SelectionCount(items, selected, mode);
    SelectionLogSpec(direction, |selected|, SelectedPaths(items, selected, mode));
  }

  class SyncControls {
    const manager: SyncManager
    const leftBrowser: FileBrowser
    const rightBrowser: FileBrowser
    var direction: SyncDirection
    var showDirectoryConfirm: bool
    var pendingSyncMode: Option<SyncMode>

    constructor (manager: SyncManager, leftBrowser: FileBrowser, rightBrowser: FileBrowser, direction: SyncDirection)
      ensures this.manager == manager && this.leftBrowser == leftBrowser && this.rightBrowser == rightBrowser
      ensures this.direction == direction && !showDirectoryConfirm && pendingSyncMode == None
    {
      this.manager, this.leftBrowser, this.rightBrowser := manager, leftBrowser, rightBrowser;
      this.direction := direction;
      showDirectoryConfirm, pendingSyncMode := false, None;
    }

    /** The pane on the given side. */
    function Pane(side: Side): (b: FileBrowser)
      reads this
    {
      if side == Left then leftBrowser else rightBrowser
    }

    /** The pane whose selection is synced: the direction's source side,
        which is never the side the files go to. */
    function SourceBrowser(): (b: FileBrowser)
      reads this
      ensures b == Pane(SourceSide(direction))
      ensures leftBrowser != rightBrowser ==> b != Pane(DestinationSide(direction))
    {
      if direction == LeftToRight then leftBrowser else rightBrowser
    }

    /** The source pane's selected paths, as `executeSync` builds them. */
    function SelectedSourcePaths(): (paths: seq<string>)
      reads this, leftBrowser, rightBrowser
    {
      var source := SourceBrowser();
      SelectedPaths(source.items, source.selectedItems, source.mode)
    }

    /** The effect of `executeSync(mode)`: both panes' sync paths and the
        source pane's selected paths are handed to the manager, the selection
        log is written, and then `sync` runs; a run in progress makes `sync`
        do nothing. */
    twostate predicate Executed(mode: SyncMode, env: Environment)
      reads this, manager, leftBrowser, rightBrowser
    {
      var paths := SelectedSourcePaths();
      && manager.leftPath == leftBrowser.syncPath
      && manager.rightPath == rightBrowser.syncPath
      && manager.selectedFiles == paths
      && manager.Synced(mode, direction, env, old(manager.syncLogs) + SelectionLog(direction, |SourceBrowser().selectedItems|, paths))
    }

    /** A sync button. It is disabled while a run is in progress. */
    method PressSyncButton(mode: SyncMode, env: Environment)
      modifies this`pendingSyncMode, this`showDirectoryConfirm, manager
      ensures old(manager.isSyncing) ==> unchanged(this, manager)
      ensures !old(manager.isSyncing) && old(SourceBrowser().selectedItems) != {} ==>
        Executed(mode, env) && pendingSyncMode == old(pendingSyncMode) && showDirectoryConfirm == old(showDirectoryConfirm)
      ensures !old(manager.isSyncing) && old(SourceBrowser().selectedItems) == {} ==>
        unchanged(manager) && pendingSyncMode == Some(mode) && showDirectoryConfirm
    {
      if manager.isSyncing {
        return;
      }
      PrepareSyncAndRun(mode, env);
    }

    /** With a selection in the source pane the sync runs at once; without
        one, the mode is kept and the confirmation is shown. */
    method PrepareSyncAndRun(mode: SyncMode, env: Environment)
      modifies this`pendingSyncMode, this`showDirectoryConfirm, manager
      ensures old(SourceBrowser().selectedItems) != {} ==>
        Executed(mode, env) && pendingSyncMode == old(pendingSyncMode) && showDirectoryConfirm == old(showDirectoryConfirm)
      ensures old(SourceBrowser().selectedItems) == {} ==>
        unchanged(manager) && pendingSyncMode == Some(mode) && showDirectoryConfirm
    {
      var sourceBrowser := SourceBrowser();
      var hasSelection := sourceBrowser.selectedItems != {};
      if hasSelection {
        ExecuteSync(mode, env);
      } else {
        pendingSyncMode := Some(mode);
        showDirectoryConfirm := true;
      }
    }

    /** "Cancel" in the confirmation: nothing is synced. */
    method ConfirmCancel()
      modifies this`pendingSyncMode, this`showDirectoryConfirm
      ensures pendingSyncMode == None && !showDirectoryConfirm
    {
      pendingSyncMode := None;
      showDirectoryConfirm := false;
    }

    /** "Sync All" in the confirmation: the kept mode is synced once and forgotten. */
    method ConfirmSyncAll(env: Environment)
      modifies this`pendingSyncMode, this`showDirectoryConfirm, manager
      ensures old(pendingSyncMode).Some? ==> Executed(old(pendingSyncMode).value, env)
      ensures old(pendingSyncMode).None? ==> unchanged(manager)
      ensures pendingSyncMode == None && !showDirectoryConfirm
    {
      if pendingSyncMode.Some? {
        ExecuteSync(pendingSyncMode.value, env);
      }
      pendingSyncMode := None;
      showDirectoryConfirm := false;
    }

    method ExecuteSync(mode: SyncMode, env: Environment)
      modifies manager
      ensures Executed(mode, env)
    {
      manager.leftPath := leftBrowser.syncPath;
      manager.rightPath := rightBrowser.syncPath;

      var sourceBrowser := SourceBrowser();
      var selectedCount := |sourceBrowser.selectedItems|;
      var selectedPaths := SelectedPaths(sourceBrowser.items, sourceBrowser.selectedItems, sourceBrowser.mode);
      LogSelection(selectedCount, selectedPaths);

      manager.selectedFiles := selectedPaths;
      manager.Sync(mode, direction, env);
    }

    /** The lines `executeSync` logs before calling `sync`. */
    method LogSelection(selectedCount: nat, selectedPaths: seq<string>)
      modifies manager`syncLogs
      ensures manager.syncLogs == old(manager.syncLogs) + SelectionLog(direction, selectedCount, selectedPaths)
    {
      ghost var start := manager.syncLogs;
      manager.AddLog(DirectionMessage(direction), false);
      if selectedCount > 0 {
        manager.AddLog(SelectedCountMessage(selectedCount), false);
      } else {
        manager.AddLog(WholeDirectoryMessage, false);
      }
      ghost var before := manager.syncLogs;
      for i := 0 to |selectedPaths|
        invariant manager.syncLogs == before + Arrows(selectedPaths[..i])
      {
        ArrowsStep(selectedPaths, i);
        manager.AddLog(ArrowMessage(selectedPaths[i]), false);
      }
      assert selectedPaths[..|selectedPaths|] == selectedPaths;
      ghost var opening := [Info(DirectionMessage(direction)),
        Info(if selectedCount > 0 then SelectedCountMessage(selectedCount) else WholeDirectoryMessage)];
      assert before == start + opening;
      assert SelectionLog(direction, selectedCount, selectedPaths) == opening + Arrows(selectedPaths);
    }

    /** A tap on the direction toggle. */
    method ToggleDirection()
      modifies this`direction
      ensures direction == Flip(old(direction))
      ensures SourceBrowser() == Pane(DestinationSide(old(direction)))
    {
      direction := Flip(direction);
    }
  }
}
