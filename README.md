# PairSync sync orchestration in Dafny

PairSync is a two-pane macOS file synchronizer. The left and right panes are
local directories, or the right one is a remote `host:path`, and the program
drives `rsync` between them in one of two modes:

- Force mirrors the source onto the destination and deletes extra files.
- Slurp only copies.

This project models the logic behind that, in the program's own terms.

- **SyncManager** (`Sources/Models.swift`) is a `class` with the same fields.
  - `Sync` turns the endpoint fields, the selected files and the direction into one of two plans:
    - an rsync launch with a source list and a destination (module `SyncPlan`);
    - a single error line.
  - `ExecuteRsync`, `LogHeader` and `LogSources` write the header log, set up the invocation and record a spawn failure.
  - Each rsync callback is a method called in the order the main actor runs it:
    - `OnStandardOutput` takes a standard-output chunk;
    - `OnStandardError` takes a standard-error chunk;
    - `OnTermination` takes the exit status.
  - `CancelSync`, `ClearLogs` and `AddLog` act on the run flag and the append-only log of `LogEntry(message, isError)`.
- **SyncMode** flags and the rsync argument vector are in module `SyncTypes`.
- **Directory order** (the comparator handed to `sorted` in `loadDirectory`) is in module `Listing`.
  - It is a functional insertion sort, proved to yield a permutation.
  - The result is sorted by the comparator, has directories first and has ascending names within each group.
- **FileBrowserViewModel** is the `class` `Browser.FileBrowser`.
  - The methods are navigation, refresh, up, home, the breadcrumb walk (a `while` loop with a `break`), the end of a directory load, and the row-tap selection toggle.
- **Selected paths** (the `filter`/`map` pipeline in `executeSync` and `runSync`) are in module `Selection`.
- **SyncControls** (`Sources/SyncControls.swift`) is the `class` `Controls.SyncControls`.
  - It holds the direction toggle, the sync buttons that are disabled while a run is in progress, and the confirmation asked before a whole-directory sync with its two buttons.
  - `executeSync` is the method `ExecuteSync`: the selection log, then `sync`.
- **ContentView** (`Sources/ContentView.swift`) is the `class` `View.ContentView`.
  - It holds the menu shortcuts, which sync at once without confirmation, and the routing of a completion to the destination pane.

Strings are `seq<char>`. Log ids and timestamps are dropped.

The system around the program is given as inputs:

- the directory test;
- whether `/opt/homebrew/bin/rsync` exists;
- the outcome of `process.run()`;
- the directory enumeration;
- the open panel's answer.

### Behaviours worth knowing

- **`cancelSync`** appends "Sync cancelled" and clears `isSyncing` even when no run is in progress (Sources/Models.swift:371-375).
- **A selected directory** is passed to rsync with a trailing "/" (Sources/Models.swift:287-291).
- **`sync` while a run is in progress** returns without any log line or state change (Sources/Models.swift:233).
- **The menu shortcuts** (`runSync`) start a whole-directory sync without the confirmation that the sync buttons ask for (Sources/ContentView.swift:60-81).
- **No completion event is posted.** Nothing in the program posts `.syncCompleted`, though `ContentView` handles it. `OnSyncCompleted` models the handler alone.
- **Up at the root** goes to "/..", and the breadcrumb walk from there never reaches "/" (see "## Findings").

## Model

| member | source | states |
|---|---|---|
| SyncTypes.RsyncFlags | Sources/Models.swift:190-195 | both flag lists start with `-haz` and have at least two flags |
| SyncTypes.FlagsDeleteIffForce | Sources/Models.swift:190-195 | the flags hold both `--delete` and `--force-delete` iff the mode is Force; Slurp's flags are exactly `["-haz","--info=name"]` and hold no deletion flag |
| SyncTypes.Arguments | Sources/Models.swift:319 | the argument vector has one entry per flag, per source, and one for the destination |
| SyncTypes.ArgumentsRoundTrip | Sources/Models.swift:319 | the argument vector splits back into exactly the sources and the destination; it starts with the mode's flags and ends with the destination |
| SyncTypes.Flip | Sources/SyncControls.swift:158 | the toggle always changes the direction |
| SyncTypes.FlipInvolution | Sources/SyncControls.swift:158 | toggling twice restores the direction |
| SyncTypes.DestinationSide | Sources/Models.swift:245-265 | the destination pane is never the source pane, and it is the source pane of the other direction |
| SyncPlan.SourceArguments | Sources/Models.swift:287-291 | one rsync source per selected path |
| SyncPlan.Location | Sources/Models.swift:247-264 | a ready side's directory ends in "/" |
| SyncPlan.PlanDirectorySpec | Sources/Models.swift:242-267 | a whole-directory sync launches iff both sides are ready; the one source is the source side's directory, the destination is the other side's, and both end in "/"; the source side is checked first, and each missing side gives exactly one error line naming it |
| SyncPlan.PlanDirectorySwap | Sources/Models.swift:245-265 | reversing the direction launches on the same endpoints with source and destination swapped |
| SyncPlan.PlanSelectedSpec | Sources/Models.swift:236-293 | with a selection the sync launches iff the destination side is ready; otherwise it logs that side's one error; one source per selected path, in selection order, a path gets "/" iff it is a directory, and the destination ends in "/" |
| SyncPlan.ExampleWholeDirectoryToRemote | Sources/Models.swift:242-267 | `/home/a` to remote `host:/srv/b` in Slurp mode gives `rsync -haz --info=name /home/a/ host:/srv/b/` |
| SyncPlan.ExampleSelectedFileToRemote | Sources/Models.swift:270-293 | one selected file in Force mode keeps its path without "/" and gets the deletion flags |
| Text.NatToStringDigits | Sources/Models.swift:305 | a count is written in decimal digits with no leading zero |
| Text.NatToStringRoundTrip | Sources/Models.swift:305 | a written count reads back as the same number |
| Text.IntToStringRoundTrip | Sources/Models.swift:360 | a written exit status, negative ones included, reads back as the same number |
| Text.SplitNewlines | Sources/Models.swift:330 | splitting always yields at least one piece |
| Text.SplitNewlinesPiecesAreLines | Sources/Models.swift:330 | no piece holds a newline character |
| Text.JoinSplit | Sources/Models.swift:330 | joining the pieces with '\n' gives the chunk with each newline character replaced by '\n' |
| Text.SplitJoin | Sources/Models.swift:330 | splitting newline-free lines joined with '\n' gives back those lines |
| Text.NonEmpty | Sources/Models.swift:330 | dropping empty lines never adds lines |
| Text.NonEmptyElements | Sources/Models.swift:330 | every kept line is non-empty and is one of the pieces |
| Text.ConcatNonEmpty | Sources/Models.swift:330 | dropping the empty lines does not change their concatenation |
| Text.ConcatSplit | Sources/Models.swift:330 | the pieces concatenate to the chunk without its newline characters |
| Text.NonEmptyLinesSpec | Sources/Models.swift:326-347 | the lines handled are non-empty and newline-free, and together they spell the chunk without its newline characters |
| Text.TrimTrailingSlashes | Sources/Models.swift:307 | the trimmed path is a prefix of the path and does not end in "/" |
| Text.AfterLastSlash | Sources/Models.swift:307 | a last component holds no "/" |
| Text.AfterLastSlashOfName | Sources/Models.swift:307 | the text after the last "/" of `dir/name` is `name` |
| Text.LastPathComponentOfChild | Sources/Models.swift:307 | a bullet names the file or directory itself, with or without the "/" that marks a directory source |
| Orchestration.SourceLinesSpec | Sources/Models.swift:302-307 | one source is announced as "Source: s"; otherwise "Sources: N items" is followed by one bullet per source in order; no line is an error |
| Orchestration.HeaderLogSpec | Sources/Models.swift:301-311 | the header starts with "Starting M sync"; it then has "Source: s" for one source, or "Sources: N items" and one bullet per source in order; it ends with the destination line and "───"; it has no error line |
| Orchestration.StreamStep | Sources/Models.swift:330-333 | each line of a chunk extends the handled lines iff it is non-empty, and it becomes the last handled line |
| Orchestration.StreamEntriesSpec | Sources/Models.swift:326-347 | a stream adds one entry per non-empty line, flagged with the stream it came from, and the entries spell the chunk without newlines |
| Orchestration.TerminationLogSpec | Sources/Models.swift:355-362 | termination logs "───" and then the success line iff the status is 0, or an error line from which the exit status reads back exactly |
| Orchestration.SyncManager.constructor | Sources/Models.swift:219-230 | the manager starts idle, with no endpoints, no selection and an empty log |
| Orchestration.SyncManager.AddLog | Sources/Models.swift:379-381 | appends exactly one entry |
| Orchestration.SyncManager.Sync | Sources/Models.swift:232-268 | while a run is in progress nothing changes; otherwise the log gains the plan's lines; a rejected plan changes nothing else; a launch sets the progress line, shows the log, records the rsync invocation with `flags ++ sources ++ [destination]`, and leaves `isSyncing` set iff the spawn succeeded |
| Orchestration.SyncManager.ExecuteRsync | Sources/Models.swift:296-369 | sets `isSyncing` and the progress line, logs the header, chooses the Homebrew rsync when present, and a spawn failure clears `isSyncing` and logs one error line |
| Orchestration.SyncManager.LogHeader | Sources/Models.swift:301-311 | appends exactly the header lines |
| Orchestration.SyncManager.LogSources | Sources/Models.swift:302-309 | appends the source line, or the count line and one bullet per source in order |
| Orchestration.SyncManager.OnStandardOutput | Sources/Models.swift:326-336 | appends each non-empty line of the chunk as a non-error entry in order; the progress line becomes the last such line, or stays when there is none |
| Orchestration.SyncManager.OnStandardError | Sources/Models.swift:338-347 | appends each non-empty line as an error entry and touches nothing else |
| Orchestration.SyncManager.OnTermination | Sources/Models.swift:349-364 | clears `isSyncing`, appends the termination lines, and sets the progress line to "Sync completed" or "Sync failed" |
| Orchestration.SyncManager.CancelSync | Sources/Models.swift:371-375 | clears `isSyncing` and appends exactly one error entry "Sync cancelled", whether or not a run was in progress |
| Orchestration.SyncManager.ClearLogs | Sources/Models.swift:377 | empties the log |
| Listing.StringLessTrichotomy | Sources/Models.swift:162 | name comparison orders any two different names exactly one way |
| Listing.StringLessTransitive | Sources/Models.swift:162 | name comparison is transitive |
| Listing.BeforeAsymmetric | Sources/Models.swift:160-163 | the comparator never puts an entry before itself, nor each of two entries before the other |
| Listing.NotAfterTransitive | Sources/Models.swift:160-163 | "not after" is transitive, so the comparator is a strict weak order |
| Listing.Insert | Sources/Models.swift:160-163 | inserting adds exactly the one entry |
| Listing.InsertSorted | Sources/Models.swift:160-163 | inserting into a sorted listing keeps it sorted |
| Listing.SortItems | Sources/Models.swift:160-163 | sorting is a permutation of the listing |
| Listing.SortItemsSorted | Sources/Models.swift:160-163 | the sorted listing has no pair of entries out of the comparator's order |
| Listing.SortedGroups | Sources/Models.swift:160-163 | in a sorted listing every directory precedes every file, and lower-cased names never decrease within each group |
| Listing.LoadDirectorySpec | Sources/Models.swift:143-167 | the listing is empty when enumeration fails; otherwise it is a permutation of the entries found, with directories first and ascending case-insensitive names within each group |
| Listing.ExampleOrder | Sources/Models.swift:160-163 | `Zeta`, `beta/` and `Alpha/` are shown as `Alpha/`, `beta/`, `Zeta` |
| Selection.RenderRoundTrip | Sources/SyncControls.swift:109-113 | a remote path is rendered with the `host:` prefix and the path is recoverable from it |
| Selection.RenderInjective | Sources/SyncControls.swift:109-113 | different items never give the same rendered path |
| Selection.PositionsSpec | Sources/SyncControls.swift:106-107 | the selected positions increase strictly and are exactly those whose id is selected |
| Selection.SelectedItemsSpec | Sources/SyncControls.swift:106-107 | the filter is the listing read at the increasing positions of the selected ids: exactly the selected items, in item order |
| Selection.SelectedItemsMembers | Sources/SyncControls.swift:106-107 | an item is passed on iff it is listed and its id is selected |
| Selection.SelectedPathsSpec | Sources/SyncControls.swift:106-114 | one path per selected item in item order, rendered `host:path` for a remote pane and the bare path otherwise |
| Selection.CountSelected | Sources/SyncControls.swift:95-107 | with distinct ids the filter keeps one item per selected id that is listed |
| Selection.SelectionCount | Sources/SyncControls.swift:95-114 | when the selection holds only listed ids, there is one path per selected id, and paths exist iff something is selected |
| Selection.ExampleRemoteSelection | Sources/ContentView.swift:69-77 | the second of three remote items selected gives `["host:/srv/b"]` |
| Browser.Parent | Sources/Models.swift:439 | the parent is "/" or a strictly shorter prefix, so the upward walk ends; `ParentOfChild` pins its value |
| Browser.ParentOfChild | Sources/Models.swift:417 | going up from `dir/name` removes the last component and gives `dir`, or "/" when `dir` is empty |
| Browser.ParentOfRoot | Sources/Models.swift:417 | going up from "/" stays at "/", and every other parent is strictly shorter |
| Browser.ParentAsWritten | Sources/Models.swift:417 | for a path whose last component is "..", going up appends another ".." |
| Browser.RootClimbNeverEnds | Sources/Models.swift:436-440 | as written, the root's parent is "/..", and from there every climb of the breadcrumb loop ends in ".." and is neither "/" nor home, so the loop never exits |
| Browser.ParentOfAbsolute | Sources/Models.swift:439 | the parent of an absolute path is an absolute prefix of it |
| Browser.WalkSpec | Sources/Models.swift:433-440 | the walk never holds "/", ends at the path, climbs one parent per step, meets home only as its first step, and starts at home or at a child of the root |
| Browser.BreadcrumbsSpec | Sources/Models.swift:431-445 | for an absolute path the breadcrumbs start with "/" and end with the path; each crumb is an ancestor prefix of it; the walk above "/" stops at home and meets home nowhere else; a relative path gets no root crumb |
| Browser.BreadcrumbsOfHome | Sources/Models.swift:431-445 | the home directory's breadcrumbs are "/" and home |
| Browser.Toggle | Sources/FileBrowserPane.swift:89 | a tap flips the membership of that one id and no other |
| Browser.ToggleTwice | Sources/FileBrowserPane.swift:89 | tapping twice restores the selection |
| Browser.FileBrowser.constructor | Sources/Models.swift:396-398 | a pane with an initial path starts loading it, with consistent breadcrumbs |
| Browser.FileBrowser.NavigateTo | Sources/Models.swift:400-404 | sets the current path, starts loading, recomputes the breadcrumbs, and keeps the pane consistent |
| Browser.FileBrowser.FinishLoading | Sources/Models.swift:405-413 | the listing becomes the sorted directory contents, loading ends, and the selection is cleared |
| Browser.FileBrowser.Refresh | Sources/Models.swift:416 | reloads the current path, or does nothing without one |
| Browser.FileBrowser.NavigateUp | Sources/Models.swift:417 | navigates to the parent of the current path, or does nothing without one |
| Browser.FileBrowser.NavigateToHome | Sources/Models.swift:418 | navigates to home |
| Browser.FileBrowser.SelectDirectory | Sources/Models.swift:420-429 | navigates to the chosen directory, or does nothing when the panel is dismissed |
| Browser.FileBrowser.ToggleSelection | Sources/FileBrowserPane.swift:89 | toggles one id; a listed id keeps the pane consistent |
| Browser.FileBrowser.UpdateBreadcrumbs | Sources/Models.swift:431-445 | the walking loop computes exactly the breadcrumbs of the current path, or none without one |
| Controls.CountLineIsNotWholeDirectory | Sources/SyncControls.swift:99-103 | a count line is never the whole-directory line |
| Controls.SelectionLogSpec | Sources/SyncControls.swift:95-118 | the log gets the direction (its first line names exactly one direction, so the two directions are announced differently), then the count line iff something is selected or else "Syncing entire directory", then one "  → path" line per path in order, and no error |
| Controls.SelectionLogConsistent | Sources/SyncControls.swift:95-118 | for a pane whose selection holds listed ids, the announced count equals the number of arrow lines, and the whole directory is announced iff no path is passed on |
| Controls.SyncControls.constructor | Sources/SyncControls.swift:10-11 | the controls start with no confirmation alert shown and no pending sync mode, on the given panes and direction |
| Controls.SyncControls.SourceBrowser | Sources/SyncControls.swift:73 | the pane synced from is the pane on the direction's source side, and never the destination pane when the two panes are distinct |
| Controls.SyncControls.PressSyncButton | Sources/SyncControls.swift:26-31 | while a run is in progress a button does nothing; otherwise it acts as `prepareSyncAndRun` |
| Controls.SyncControls.PrepareSyncAndRun | Sources/SyncControls.swift:71-84 | a selection in the source pane syncs at once; without one only the mode is kept and the confirmation shown, and the manager is untouched |
| Controls.SyncControls.ConfirmCancel | Sources/SyncControls.swift:55-57 | forgets the kept mode and closes the alert without syncing |
| Controls.SyncControls.ConfirmSyncAll | Sources/SyncControls.swift:58-63 | syncs the kept mode once if there is one, then forgets it and closes the alert |
| Controls.SyncControls.ExecuteSync | Sources/SyncControls.swift:86-122 | hands over both panes' sync paths and the source pane's selected paths, writes the selection log, then has the manager's `sync` log and start the planned run |
| Controls.SyncControls.LogSelection | Sources/SyncControls.swift:95-118 | appends exactly the selection log, one arrow line per path in order |
| Controls.SyncControls.ToggleDirection | Sources/SyncControls.swift:156-160 | flips the direction; the new source pane is the old destination pane |
| View.ShortcutsBijective | Sources/ContentView.swift:34-45 | forceSync, slurpSync, forceSyncReverse and slurpSyncReverse map one-to-one onto the modes and directions; the reverse ones sync right to left and the force ones mirror |
| View.RefreshTargetSpec | Sources/ContentView.swift:46-55 | a completion refreshes the destination pane of its direction, never the source pane, and nothing when the object is not a direction |
| View.ContentView.constructor | Sources/ContentView.swift:7-8 | two distinct, consistent panes open at the home directory |
| View.ContentView.RunSync | Sources/ContentView.swift:60-81 | hands over both sync paths and the selected paths of the direction's source pane, then `sync` runs with no confirmation, even for an empty selection: every manager field is as `sync` leaves it (remote settings kept; nothing else changes during a run; otherwise the rejection line, or the header, progress line, shown log and rsync invocation of the plan) |
| View.ContentView.OnShortcut | Sources/ContentView.swift:34-45 | each shortcut leaves the manager exactly as `runSync` with its mode and direction does |
| View.ContentView.OnSyncCompleted | Sources/ContentView.swift:46-55 | refreshes only the destination pane of the direction carried, leaving the other pane untouched; the refreshed pane keeps its path, listing, selection and mode, and only its loading flag and breadcrumbs change, and only when it has a path |

## Left out

- Process spawning, pipes, `readabilityHandler`, `terminationHandler` and the `Task { @MainActor }` hops are concurrency and I/O. Each callback is a method called in sequence, and the process itself is not modelled. `syncTask` records the executable and the arguments set up.
- The interleaving of callbacks between runs is not modelled. A late callback from an earlier run would be applied to the current state as it is.
- `FileBrowser.FinishLoading`: a load that finishes after a newer navigation is not shown to be stale.
- The terminate signal sent by `cancelSync` is not modelled; only its effect on the state is.
- Failure to decode a chunk as UTF-8 is not modelled. Chunks are given as strings, and an empty chunk changes nothing in the model as in the source.
- `Text.SplitNewlines`: the newline set is `CharacterSet.newlines` as code points, U+000A–U+000D, U+0085, U+2028 and U+2029. A "\r\n" pair splits into two pieces with an empty one between them, and the empty piece is dropped.
- `Listing.NameAscending` approximates `localizedCaseInsensitiveCompare` by comparing code points after ASCII lower-casing. Locale-aware collation is not modelled.
- `Listing.SortItems`: Swift's `sorted` is not stable. The model fixes one order for entries the comparator ties, and the properties proved hold for any such order.
- `Browser.Parent` cuts at the last "/", and the parent of "/" is "/". Foundation's `deletingLastPathComponent` gives "/.." for "/", and the Up button is enabled at the root (Sources/FileBrowserPane.swift:45). As written, `navigateUp` at "/" then leads to a breadcrumb walk that never reaches "/" (see "## Findings"). `NavigateUp` and `UpdateBreadcrumbs` use the corrected `Parent`. `Browser.ParentAsWritten` models Foundation only at and above the root.
- URL normalisation (`..`, `.`, symbolic links) is not modelled. URL equality with home is modelled as path equality.
- `Browser.FileBrowser`: `mode`, `syncPath` and the pane's `remotePath` are members the views read but no file of the program declares or sets.
  - The model gives the pane `mode` and `syncPath` fields, set outside the model.
  - `leftSyncPath`/`rightSyncPath` are taken as `leftPath`/`rightPath`, and `selectedFilePaths` as `selectedFiles`.
  - The alert's message text, which uses `remotePath`, is presentation and is not modelled.
- `Text.LastPathComponent` is taken as `URL(fileURLWithPath:).lastPathComponent` on the source string: trailing slashes are ignored and a path of only slashes gives "/".
- The directory test `fileExists(isDirectory:)` is an input set of directory paths. The existence test for the Homebrew rsync and the outcome of `process.run()` are inputs too.
- `UUID`s are modelled as natural-number ids that are assumed distinct, and `Date`s are dropped.
- `ThemeManager`, `FileItem` icons, colours and formatters, `NSOpenPanel` and all view layout are presentation.
- The Selection menu's select-all and deselect-all notifications are not modelled. No file of the program receives them.
- The remote pane's `host:path` label (Sources/RemotePane.swift:7-10) repeats the rendering in `Selection.Render`.
- Remote listing, connection state and remote tool probing are not part of this model. The program has none of them.

## Findings

| source | as written | input that shows it | evidently intended | confidence | as-written member | corrected member |
|---|---|---|---|---|---|---|
| Sources/Models.swift:417 | `navigateUp` replaces the current path by its `deletingLastPathComponent()`, which for "/" is "/..", and the Up button is enabled whenever a path is set; the breadcrumb loop at Sources/Models.swift:436-440 then climbs "/..", "/../..", … and never meets "/" or home | current path "/", press Up | the root's parent is the root, so the breadcrumb walk ends | medium, not executed (relies on Foundation appending ".." above the root) | Browser.RootClimbNeverEnds | Browser.Parent |
