/** Shared vocabulary of the synchronizer: sync modes and directions, the
    rsync flag sets, the argument vector handed to rsync and log entries. */
module SyncTypes {

  datatype Option<+T> = None | Some(value: T)

  /** Force mirrors the source onto the destination; Slurp only copies. */
  datatype SyncMode = Force | Slurp

  datatype SyncDirection = LeftToRight | RightToLeft

  /** One of the two browsing panes. */
  datatype Side = Left | Right

  /** One line of the sync log; ids and timestamps are not modelled. */
  datatype LogEntry = LogEntry(message: string, isError: bool)

  /** The raw value of a mode, as shown in the log ("Starting Force sync"). */
  function ModeName(mode: SyncMode): (name: string)
  {
    match mode
    case Force => "Force"
    case Slurp => "Slurp"
  }

  /** The flags rsync is started with in each mode. */
  function RsyncFlags(mode: SyncMode): (flags: seq<string>)
    ensures |flags| >= 2 && flags[0] == "-haz"
  {
    match mode
    case Force => ["-haz", "--info=name,del", "--delete", "--force-delete"]
    case Slurp => ["-haz", "--info=name"]
  }

  /** The flags that make rsync remove files from the destination. */
  const DeletionFlags: set<string> := {"--delete", "--force-delete"}

  /** Force mode deletes extraneous destination files; Slurp never does. */
  lemma FlagsDeleteIffForce(mode: SyncMode)
    ensures (forall f :: f in DeletionFlags ==> f in RsyncFlags(mode)) <==> mode == Force
    ensures mode == Slurp ==> RsyncFlags(mode) == ["-haz", "--info=name"]
    ensures mode == Slurp ==> forall f :: f in RsyncFlags(mode) ==> f !in DeletionFlags
  {
    if mode == Slurp {
      assert "--delete" in DeletionFlags && "--delete" !in RsyncFlags(mode);
    } else {
      assert RsyncFlags(mode)[2] == "--delete";
      assert RsyncFlags(mode)[3] == "--force-delete";
    }
  }

  /** The argument vector rsync receives: flags, then sources, then the destination. */
  function Arguments(mode: SyncMode, sources: seq<string>, destination: string): (args: seq<string>)
    ensures |args| == |RsyncFlags(mode)| + |sources| + 1
  {
    RsyncFlags(mode) + sources + [destination]
  }

  /** Reads an argument vector back into its sources and destination, given the mode. */
  function SplitArguments(mode: SyncMode, args: seq<string>): (parts: Option<(seq<string>, string)>)
  {
    var flags := RsyncFlags(mode);
    if |args| < |flags| + 1 || args[..|flags|] != flags then None
    else Some((args[|flags|..|args| - 1], args[|args| - 1]))
  }

  /** The argument vector is exactly the mode's flags, the sources and the destination. */
  lemma ArgumentsRoundTrip(mode: SyncMode, sources: seq<string>, destination: string)
    ensures SplitArguments(mode, Arguments(mode, sources, destination)) == Some((sources, destination))
    ensures Arguments(mode, sources, destination)[..|RsyncFlags(mode)|] == RsyncFlags(mode)
    ensures Arguments(mode, sources, destination)[|Arguments(mode, sources, destination)| - 1] == destination
  {
    var flags := RsyncFlags(mode);
    var args := Arguments(mode, sources, destination);
    assert args[..|flags|] == flags;
    assert args[|flags|..|args| - 1] == sources;
  }

  /** The direction the toggle switches to. */
  function Flip(d: SyncDirection): (r: SyncDirection)
    ensures r != d
  {
    match d
    case LeftToRight => RightToLeft
    case RightToLeft => LeftToRight
  }

  lemma FlipInvolution(d: SyncDirection)
    ensures Flip(Flip(d)) == d
  {
  }

  /** The pane whose files are sent. */
  function SourceSide(d: SyncDirection): (side: Side)
  {
    if d == LeftToRight then Left else Right
  }

  /** The pane whose directory receives the files. */
  function DestinationSide(d: SyncDirection): (s: Side)
    ensures s != SourceSide(d)
    ensures s == SourceSide(Flip(d))
  {
    if d == LeftToRight then Right else Left
  }
}
