/** The window (Sources/ContentView.swift): the keyboard shortcuts that start
    a sync without confirmation, and the refresh of the destination pane when
    a sync completes. */
module View {
  import opened SyncTypes
  import opened SyncPlan
  import opened Orchestration
  import opened Selection
  import opened Browser

  /** The four notifications posted by the Sync menu. */
  datatype Shortcut = ForceSync | SlurpSync | ForceSyncReverse | SlurpSyncReverse

  /** The mode and direction each shortcut syncs with. */
  function ShortcutAction(s: Shortcut): (action: (SyncMode, SyncDirection))
  {
    match s
    case ForceSync => (Force, LeftToRight)
    case SlurpSync => (Slurp, LeftToRight)
    case ForceSyncReverse => (Force, RightToLeft)
    case SlurpSyncReverse => (Slurp, RightToLeft)
  }

  /** The shortcut for a mode and a direction. */
  function ShortcutFor(mode: SyncMode, direction: SyncDirection): (shortcut: Shortcut)
  {
    match (mode, direction)
    case (Force, LeftToRight) => ForceSync
    case (Slurp, LeftToRight) => SlurpSync
    case (Force, RightToLeft) => ForceSyncReverse
    case (Slurp, RightToLeft) => SlurpSyncReverse
  }

  /** Every mode and direction has exactly one shortcut: the reverse shortcuts
      sync right to left, and the force shortcuts mirror. */
  lemma ShortcutsBijective(s: Shortcut, mode: SyncMode, direction: SyncDirection)
    ensures ShortcutFor(ShortcutAction(s).0, ShortcutAction(s).1) == s
    ensures ShortcutAction(ShortcutFor(mode, direction)) == (mode, direction)
    ensures ShortcutAction(s).1 == RightToLeft <==> s == ForceSyncReverse || s == SlurpSyncReverse
    ensures ShortcutAction(s).0 == Force <==> s == ForceSync || s == ForceSyncReverse
  {
  }

  /** The pane refreshed when a completion carries the given object: the
      direction's destination pane, or none when the object is not a direction. */
  function RefreshTarget(obj: Option<SyncDirection>): (side: Option<Side>)
  {
    match obj
    case None => None
    case Some(direction) => if direction == LeftToRight then Some(Right) else Some(Left)
  }

  /** A completion refreshes only the pane the files went to, never the one
      they came from. */
  lemma RefreshTargetSpec(obj: Option<SyncDirection>)
    ensures obj.None? <==> RefreshTarget(obj).None?
    ensures obj.Some? ==> RefreshTarget(obj) == Some(DestinationSide(obj.value))
    ensures obj.Some? ==> RefreshTarget(obj) != Some(SourceSide(obj.value))
  {
  }

  class ContentView {
    const manager: SyncManager
    const leftBrowser: FileBrowser
    const rightBrowser: FileBrowser

    /** Both panes open at the home directory. */
    constructor (manager: SyncManager, home: string)
      ensures this.manager == manager && fresh(leftBrowser) && fresh(rightBrowser)
      ensures leftBrowser.currentPath == Some(home) && rightBrowser.currentPath == Some(home)
      ensures leftBrowser != rightBrowser
      ensures leftBrowser.home == home && rightBrowser.home == home
      ensures leftBrowser.Valid() && rightBrowser.Valid()
    {
      this.manager := manager;
      leftBrowser := new FileBrowser(Some(home), home);
      rightBrowser := new FileBrowser(Some(home), home);
    }

    function Browser(side: Side): (b: FileBrowser)
      reads this
    {
      if side == Left then leftBrowser else rightBrowser
    }

    /** The effect of `runSync(mode, direction)`: both panes' sync paths and
        the source pane's selected paths are handed to the manager, and then
        `sync` runs from the log as it was. */
    twostate predicate Ran(mode: SyncMode, direction: SyncDirection, env: Environment)
      reads this, manager, leftBrowser, rightBrowser
    {
      var source := Browser(SourceSide(direction));
      var paths := SelectedPaths(source.items, source.selectedItems, source.mode);
      && manager.leftPath == leftBrowser.syncPath
      && manager.rightPath == rightBrowser.syncPath
      && manager.selectedFiles == paths
      && manager.Synced(mode, direction, env, old(manager.syncLogs))
    }

    /** A shortcut: `sync` runs at once, with no confirmation, even when
        nothing is selected. */
    method RunSync(mode: SyncMode, direction: SyncDirection, env: Environment)
      modifies manager
      ensures Ran(mode, direction, env)
    {
      manager.leftPath := leftBrowser.syncPath;
      manager.rightPath := rightBrowser.syncPath;

      var sourceBrowser := if direction == LeftToRight then leftBrowser else rightBrowser;
      var selectedPaths := SelectedPaths(sourceBrowser.items, sourceBrowser.selectedItems, sourceBrowser.mode);

      manager.selectedFiles := selectedPaths;
      manager.Sync(mode, direction, env);
    }

    /** Each Sync-menu notification runs the sync of its mode and direction. */
    method OnShortcut(s: Shortcut, env: Environment)
      modifies manager
      ensures Ran(ShortcutAction(s).0, ShortcutAction(s).1, env)
    {
      var (mode, direction) := ShortcutAction(s);
      RunSync(mode, direction, env);
    }

    /** A completion notification carrying obj, or None for an object that
        is not a direction. */
    method OnSyncCompleted(obj: Option<SyncDirection>)
      requires leftBrowser != rightBrowser
      modifies leftBrowser`isLoading, leftBrowser`currentPath, leftBrowser`breadcrumbs
      modifies rightBrowser`isLoading, rightBrowser`currentPath, rightBrowser`breadcrumbs
      ensures RefreshTarget(obj) != Some(Left) ==> unchanged(leftBrowser)
      ensures RefreshTarget(obj) != Some(Right) ==> unchanged(rightBrowser)
      ensures forall side :: RefreshTarget(obj) == Some(side) ==>
        var b := Browser(side);
        && b.currentPath == old(b.currentPath)
        && (old(b.currentPath).None? ==> b.isLoading == old(b.isLoading) && b.breadcrumbs == old(b.breadcrumbs))
        && (old(b.currentPath).Some? ==> b.isLoading && b.breadcrumbs == Breadcrumbs(old(b.currentPath).value, b.home))
      ensures old(leftBrowser.Valid()) ==> leftBrowser.Valid()
      ensures old(rightBrowser.Valid()) ==> rightBrowser.Valid()
    {
      if obj.Some? {
        if obj.value == LeftToRight {
          rightBrowser.Refresh();
        } else {
          leftBrowser.Refresh();
        }
      }
    }
  }
}
