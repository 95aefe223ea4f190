/** SyncManager (Sources/Models.swift): the single rsync run, its progress
    line and its append-only log. The rsync process itself is opaque: starting
    it is an Environment input, and each of its callbacks (a chunk on standard
    output or standard error, termination with an exit status) is a method
    called in the order the main actor runs them. */
module Orchestration {
  import opened SyncTypes
  import opened Text
  import opened SyncPlan

  /** What the system around SyncManager answers when asked. */
  datatype SpawnResult = Spawned | SpawnFailed(reason: string)

  datatype Environment = Environment(
    directories: set<string>,  // the paths FileManager reports as directories
    homebrewRsync: bool,       // whether /opt/homebrew/bin/rsync exists
    spawn: SpawnResult)        // the outcome of process.run()

  /** The executable and the arguments rsync was given. */
  datatype Invocation = Invocation(executable: string, arguments: seq<string>)

  const HomebrewRsync: string := "/opt/homebrew/bin/rsync"
  const SystemRsync: string := "/usr/bin/rsync"
  const Separator: string := "───"
  const CancelledMessage: string := "Sync cancelled"
  const SucceededMessage: string := "✓ Sync completed successfully"
  const FailedPrefix: string := "✗ Sync failed (exit: "

  // The messages of the log, one function each.
  function StartMessage(mode: SyncMode): (message: string) { "Starting " + ModeName(mode) + " sync" }
  function StartingProgress(mode: SyncMode): (progress: string) { "Starting " + ModeName(mode) + " sync..." }
  function SourceMessage(source: string): (message: string) { "Source: " + source }
  function CountMessage(n: nat): (message: string) { "Sources: " + NatToString(n) + " items" }
  function BulletMessage(source: string): (message: string) { "  • " + LastPathComponent(source) }
  function DestinationMessage(destination: string): (message: string) { "Destination: " + destination }
  function SpawnFailedMessage(reason: string): (message: string) { "Failed: " + reason }
  function ExitFailedMessage(status: int): (message: string) { FailedPrefix + IntToString(status) + ")" }

  function RsyncPath(homebrewRsync: bool): (path: string)
  {
    if homebrewRsync then HomebrewRsync else SystemRsync
  }

  function Info(message: string): (entry: LogEntry)
  {
    LogEntry(message, false)
  }

  function Error(message: string): (entry: LogEntry)
  {
    LogEntry(message, true)
  }

  // ---------------------------------------------------------------------------
  // The log lines of one run
  // ---------------------------------------------------------------------------

  /** One bullet line per source, naming its last path component. */
  function Bullets(sources: seq<string>): (log: seq<LogEntry>)
  {
    seq(|sources|, i requires 0 <= i < |sources| => Info(BulletMessage(sources[i])))
  }

  /** The lines that announce the sources. */
  function SourceLines(sources: seq<string>): (log: seq<LogEntry>)
  {
    if |sources| == 1 then [Info(SourceMessage(sources[0]))]
    else [Info(CountMessage(|sources|))] + Bullets(sources)
  }

  /** The lines logged when rsync is about to start. */
  function HeaderLog(mode: SyncMode, sources: seq<string>, destination: string): (log: seq<LogEntry>)
  {
    [Info(StartMessage(mode))] + SourceLines(sources)
      + [Info(DestinationMessage(destination)), Info(Separator)]
  }

  /** The line logged when process.run() throws. */
  function SpawnLog(spawn: SpawnResult): (log: seq<LogEntry>)
  {
    match spawn
    case Spawned => []
    case SpawnFailed(reason) => [Error(SpawnFailedMessage(reason))]
  }

  /** Everything `sync` logs once it has checked that no run is in progress. */
  function SyncLog(mode: SyncMode, plan: Plan, spawn: SpawnResult): (log: seq<LogEntry>)
  {
    match plan
    case Reject(message) => [Error(message)]
    case Launch(sources, destination) => HeaderLog(mode, sources, destination) + SpawnLog(spawn)
  }

  /** The given lines as log entries of one stream. */
  function Entries(lines: seq<string>, isError: bool): (log: seq<LogEntry>)
  {
    seq(|lines|, i requires 0 <= i < |lines| => LogEntry(lines[i], isError))
  }

  /** One step of a stream handler's loop. */
  lemma StreamStep(lines: seq<string>, i: nat, isError: bool)
    requires i < |lines|
    ensures NonEmpty(lines[..i + 1]) == NonEmpty(lines[..i]) + (if lines[i] == "" then [] else [lines[i]])
    ensures lines[i] != "" ==>
      Entries(NonEmpty(lines[..i + 1]), isError) == Entries(NonEmpty(lines[..i]), isError) + [LogEntry(lines[i], isError)]
    ensures lines[i] != "" ==> NonEmpty(lines[..i + 1]) != [] && Last(NonEmpty(lines[..i + 1])) == lines[i]
    ensures lines[i] == "" ==> NonEmpty(lines[..i + 1]) == NonEmpty(lines[..i])
  {
    assert lines[..i + 1][..i] == lines[..i];
    if lines[i] != "" {
      var kept := NonEmpty(lines[..i]) + [lines[i]];
      assert kept[..|kept| - 1] == NonEmpty(lines[..i]);
    } else {
      assert NonEmpty(lines[..i]) + [] == NonEmpty(lines[..i]);
    }
  }

  lemma BulletsStep(sources: seq<string>, i: nat)
    requires i < |sources|
    ensures Bullets(sources[..i + 1]) == Bullets(sources[..i]) + [Info(BulletMessage(sources[i]))]
  {
    assert sources[..i + 1][..i] == sources[..i];
  }

  /** The lines logged at termination. */
  function TerminationLog(status: int): (log: seq<LogEntry>)
  {
    [Info(Separator)]
      + if status == 0 then [Info(SucceededMessage)] else [Error(ExitFailedMessage(status))]
  }

  function TerminationProgress(status: int): (progress: string)
  {
    if status == 0 then "Sync completed" else "Sync failed"
  }

  /** Reads the exit code back out of a failure line. */
  function ExitCodeOf(message: string): (code: Option<int>)
  {
    var n := |FailedPrefix|;
    if |message| > n + 1 && message[..n] == FailedPrefix && message[|message| - 1] == ')' then
      Some(ParseInt(message[n..|message| - 1]))
    else None
  }

  // ---------------------------------------------------------------------------
  // Properties of the log
  // ---------------------------------------------------------------------------

  /** The source lines are the source itself when there is one, otherwise
      the number of sources and one bullet per source naming it; none is an
      error line. */
  lemma SourceLinesSpec(sources: seq<string>)
    ensures var lines := SourceLines(sources);
      && |lines| == (if |sources| == 1 then 1 else 1 + |sources|)
      && (|sources| == 1 ==> lines[0] == Info(SourceMessage(sources[0])))
      && (|sources| != 1 ==> lines[0] == Info(CountMessage(|sources|)))
      && (|sources| != 1 ==> forall i :: 0 <= i < |sources| ==> lines[1 + i] == Info(BulletMessage(sources[i])))
      && forall i :: 0 <= i < |lines| ==> !lines[i].isError
  {
    if |sources| != 1 {
      var lines := SourceLines(sources);
      var bullets := Bullets(sources);
      forall i | 0 <= i < |sources| ensures lines[1 + i] == bullets[i] {
      }
    }
  }

  /** The header opens with the mode, announces the sources (the source
      itself when there is one, otherwise their number and one bullet per
      source naming it), ends with the destination and the separator, and
      holds no error line. */
  lemma HeaderLogSpec(mode: SyncMode, sources: seq<string>, destination: string)
    ensures var log := HeaderLog(mode, sources, destination);
      && log[0] == Info(StartMessage(mode))
      && |log| == (if |sources| == 1 then 4 else 4 + |sources|)
      && (|sources| == 1 ==> log[1] == Info(SourceMessage(sources[0])))
      && (|sources| != 1 ==> log[1] == Info(CountMessage(|sources|)))
      && (|sources| != 1 ==> forall i :: 0 <= i < |sources| ==> log[2 + i] == Info(BulletMessage(sources[i])))
      && log[|log| - 2] == Info(DestinationMessage(destination))
      && log[|log| - 1] == Info(Separator)
      && forall i :: 0 <= i < |log| ==> !log[i].isError
  {
    var log := HeaderLog(mode, sources, destination);
    var lines := SourceLines(sources);
    SourceLinesSpec(sources);
    var tail := [Info(DestinationMessage(destination)), Info(Separator)];
    var n := |lines|;
    assert log == [Info(StartMessage(mode))] + lines + tail;
    assert |log| == n + 3 && log[n + 1] == tail[0] && log[n + 2] == tail[1];
    forall k | 0 <= k < n ensures log[1 + k] == lines[k] {
    }
    forall i | 0 <= i < |log| ensures !log[i].isError {
      if 1 <= i <= n {
        assert log[i] == lines[i - 1];
      }
    }
  }

  /** The handler logs each non-empty line of a chunk once, with the flag of
      the stream it came from; together the lines spell the chunk without its
      newline characters. */
  lemma StreamEntriesSpec(chunk: string, isError: bool)
    ensures var log := Entries(NonEmptyLines(chunk), isError);
      && (forall i :: 0 <= i < |log| ==> log[i].isError == isError && log[i].message != "" && NewlineFree(log[i].message))
      && Concat(seq(|log|, i requires 0 <= i < |log| => log[i].message)) == RemoveNewlines(chunk)
  {
    var lines := NonEmptyLines(chunk);
    var log := Entries(lines, isError);
    NonEmptyLinesSpec(chunk);
    assert seq(|log|, i requires 0 <= i < |log| => log[i].message) == lines;
  }

  /** After the separator, success is reported iff the exit status is 0, and
      a failure line carries the exit status verbatim. */
  lemma TerminationLogSpec(status: int)
    ensures var log := TerminationLog(status);
      && |log| == 2 && log[0] == Info(Separator)
      && (log[1] == Info(SucceededMessage) <==> status == 0)
      && (log[1].isError <==> status != 0)
      && (status != 0 ==> ExitCodeOf(log[1].message) == Some(status))
  {
    if status != 0 {
      var m := ExitFailedMessage(status);
      var n := |FailedPrefix|;
      assert m[..n] == FailedPrefix;
      assert m[n..|m| - 1] == IntToString(status);
      IntToStringRoundTrip(status);
      assert m != SucceededMessage by {
        assert m[0] != SucceededMessage[0];
      }
    }
  }

  // ---------------------------------------------------------------------------
  // The manager
  // ---------------------------------------------------------------------------

  class SyncManager {
    var leftPath: Option<string>
    var rightPath: Option<string>
    var selectedFiles: seq<string>
    var isRemoteRight: bool
    var remoteHost: string
    var remotePath: string
    var isSyncing: bool
    var syncProgress: string
    var syncLogs: seq<LogEntry>
    var showingLog: bool
    var syncTask: Option<Invocation>  // the last process set up, started or not

    constructor ()
      ensures leftPath == None && rightPath == None && selectedFiles == []
      ensures !isRemoteRight && remoteHost == "" && remotePath == ""
      ensures !isSyncing && syncProgress == "" && syncLogs == [] && !showingLog && syncTask == None
    {
      leftPath, rightPath, selectedFiles := None, None, [];
      isRemoteRight, remoteHost, remotePath := false, "", "";
      isSyncing, syncProgress, syncLogs, showingLog, syncTask := false, "", [], false, None;
    }

    function Endpoints(): (e: Endpoints)
      reads this
    {
      SyncPlan.Endpoints(leftPath, rightPath, isRemoteRight, remoteHost, remotePath)
    }

    /** Appends one line to the log. */
    method AddLog(message: string, isError: bool)
      modifies this`syncLogs
      ensures syncLogs == old(syncLogs) + [LogEntry(message, isError)]
    {
      syncLogs := syncLogs + [LogEntry(message, isError)];
    }

    /** The state `sync` leaves behind, from the log it appended to: the
        remote settings are kept; while a run was in progress nothing else
        changes either; otherwise the plan built from the endpoints and the
        selection now held is either rejected with its one error line, or
        launched with its header, the run flag set as the spawn went, the
        starting progress line, the log shown and rsync set up with the
        mode's flags, the sources and the destination. */
    twostate predicate Synced(mode: SyncMode, direction: SyncDirection, env: Environment, logged: seq<LogEntry>)
      reads this
    {
      && isRemoteRight == old(isRemoteRight) && remoteHost == old(remoteHost) && remotePath == old(remotePath)
      && (old(isSyncing) ==>
            && syncLogs == logged && isSyncing
            && syncProgress == old(syncProgress) && showingLog == old(showingLog) && syncTask == old(syncTask))
      && (!old(isSyncing) ==>
            var plan := PlanSync(Endpoints(), selectedFiles, direction, env.directories);
            && syncLogs == logged + SyncLog(mode, plan, env.spawn)
            && (plan.Reject? ==>
                  !isSyncing && syncProgress == old(syncProgress)
                  && showingLog == old(showingLog) && syncTask == old(syncTask))
            && (plan.Launch? ==>
                  && isSyncing == env.spawn.Spawned?
                  && syncProgress == StartingProgress(mode)
                  && showingLog
                  && syncTask == Some(Invocation(RsyncPath(env.homebrewRsync), Arguments(mode, plan.sources, plan.destination)))))
    }

    /** While a run is in progress nothing happens at all. Otherwise either
        one error line is logged and nothing starts, or the header is logged
        and rsync is started with the mode's flags, the sources and the
        destination. */
    method Sync(mode: SyncMode, direction: SyncDirection, env: Environment)
      modifies this
      ensures old(isSyncing) ==> unchanged(this)
      ensures Endpoints() == old(Endpoints()) && selectedFiles == old(selectedFiles)
      ensures Synced(mode, direction, env, old(syncLogs))
    {
      if isSyncing {
        return;
      }
      var plan := PlanSync(Endpoints(), selectedFiles, direction, env.directories);
      match plan
      case Reject(message) =>
        AddLog(message, true);
      case Launch(sources, destination) =>
        ExecuteRsync(sources, destination, mode, env);
    }

    /** Logs the header, sets up rsync and starts it. */
    method ExecuteRsync(sources: seq<string>, destination: string, mode: SyncMode, env: Environment)
      modifies this
      ensures Endpoints() == old(Endpoints()) && selectedFiles == old(selectedFiles)
      ensures isSyncing == env.spawn.Spawned?
      ensures syncProgress == StartingProgress(mode)
      ensures showingLog
      ensures syncLogs == old(syncLogs) + HeaderLog(mode, sources, destination) + SpawnLog(env.spawn)
      ensures syncTask == Some(Invocation(RsyncPath(env.homebrewRsync), Arguments(mode, sources, destination)))
    {
      isSyncing := true;
      syncProgress := StartingProgress(mode);
      showingLog := true;

      LogHeader(mode, sources, destination);

      syncTask := Some(Invocation(RsyncPath(env.homebrewRsync), Arguments(mode, sources, destination)));
      if env.spawn.SpawnFailed? {
        isSyncing := false;
        AddLog(SpawnFailedMessage(env.spawn.reason), true);
      }
    }

    /** The lines ExecuteRsync logs before it starts rsync. */
    method LogHeader(mode: SyncMode, sources: seq<string>, destination: string)
      modifies this`syncLogs
      ensures syncLogs == old(syncLogs) + HeaderLog(mode, sources, destination)
    {
      ghost var start := syncLogs;
      AddLog(StartMessage(mode), false);
      ghost var first := syncLogs;
      LogSources(sources);
      ghost var mid := syncLogs;
      AddLog(DestinationMessage(destination), false);
      AddLog(Separator, false);
      ghost var tail := [Info(DestinationMessage(destination)), Info(Separator)];
      assert syncLogs == mid + tail;
      assert mid == first + SourceLines(sources);
      assert first == start + [Info(StartMessage(mode))];
      AppendAssoc3(start, [Info(StartMessage(mode))], SourceLines(sources), tail);
    }

    /** The source line, or the count line and one bullet per source. */
    method LogSources(sources: seq<string>)
      modifies this`syncLogs
      ensures syncLogs == old(syncLogs) + SourceLines(sources)
    {
      ghost var start := syncLogs;
      if |sources| == 1 {
        AddLog(SourceMessage(sources[0]), false);
        assert SourceLines(sources) == [Info(SourceMessage(sources[0]))];
      } else {
        AddLog(CountMessage(|sources|), false);
        ghost var before := syncLogs;
        for i := 0 to |sources|
          invariant syncLogs == before + Bullets(sources[..i])
        {
          BulletsStep(sources, i);
          AddLog(BulletMessage(sources[i]), false);
        }
        assert sources[..|sources|] == sources;
        assert before == start + [Info(CountMessage(|sources|))];
        assert SourceLines(sources) == [Info(CountMessage(|sources|))] + Bullets(sources);
      }
    }

    /** A chunk read from rsync's standard output: each non-empty line is
        logged and becomes the progress line. */
    method OnStandardOutput(chunk: string)
      modifies this`syncLogs, this`syncProgress
      ensures syncLogs == old(syncLogs) + Entries(NonEmptyLines(chunk), false)
      ensures syncProgress == if NonEmptyLines(chunk) == [] then old(syncProgress) else Last(NonEmptyLines(chunk))
    {
      var lines := SplitNewlines(chunk);
      ghost var before := syncLogs;
      for i := 0 to |lines|
        invariant syncLogs == before + Entries(NonEmpty(lines[..i]), false)
        invariant syncProgress == if NonEmpty(lines[..i]) == [] then old(syncProgress) else Last(NonEmpty(lines[..i]))
      {
        StreamStep(lines, i, false);
        if lines[i] != "" {
          AddLog(lines[i], false);
          syncProgress := lines[i];
          assert syncLogs == before + Entries(NonEmpty(lines[..i]), false) + [LogEntry(lines[i], false)];
        }
      }
      assert lines[..|lines|] == lines;
    }

    /** A chunk read from rsync's standard error: each non-empty line is
        logged as an error; the progress line stays. */
    method OnStandardError(chunk: string)
      modifies this`syncLogs
      ensures syncLogs == old(syncLogs) + Entries(NonEmptyLines(chunk), true)
    {
      var lines := SplitNewlines(chunk);
      ghost var before := syncLogs;
      for i := 0 to |lines|
        invariant syncLogs == before + Entries(NonEmpty(lines[..i]), true)
      {
        StreamStep(lines, i, true);
        if lines[i] != "" {
          AddLog(lines[i], true);
          assert syncLogs == before + Entries(NonEmpty(lines[..i]), true) + [LogEntry(lines[i], true)];
        } else {
          assert NonEmpty(lines[..i + 1]) == NonEmpty(lines[..i]);
        }
      }
      assert lines[..|lines|] == lines;
    }

    /** rsync exited with the given status. */
    method OnTermination(status: int)
      modifies this`isSyncing, this`syncLogs, this`syncProgress
      ensures !isSyncing
      ensures syncLogs == old(syncLogs) + TerminationLog(status)
      ensures syncProgress == TerminationProgress(status)
    {
      isSyncing := false;
      AddLog(Separator, false);
      if status == 0 {
        AddLog(SucceededMessage, false);
        syncProgress := "Sync completed";
      } else {
        AddLog(ExitFailedMessage(status), true);
        syncProgress := "Sync failed";
      }
    }

    /** Stops the run (sending the signal is not modelled); one error line is
        logged whether or not a run was in progress. */
    method CancelSync()
      modifies this`isSyncing, this`syncLogs
      ensures !isSyncing
      ensures syncLogs == old(syncLogs) + [Error(CancelledMessage)]
    {
      isSyncing := false;
      AddLog(CancelledMessage, true);
    }

    method ClearLogs()
      modifies this`syncLogs
      ensures syncLogs == []
    {
      syncLogs := [];
    }
  }

  /** Regrouping four concatenated logs. */
  lemma AppendAssoc3(a: seq<LogEntry>, b: seq<LogEntry>, c: seq<LogEntry>, d: seq<LogEntry>)
    ensures a + b + c + d == a + (b + c + d)
  {
  }

  function Last(lines: seq<string>): (line: string)
    requires lines != []
  {
    lines[|lines| - 1]
  }
}
