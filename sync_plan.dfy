/** How SyncManager turns its endpoint fields, the selected files and the
    direction into the sources and the destination given to rsync
    (Sources/Models.swift, `sync` and `syncSelectedFiles`). */
module SyncPlan {
  import opened SyncTypes
  import opened Text

  /** The SyncManager fields that describe the two endpoints: the left and
      right directories, and whether the right side is a remote host. */
  datatype Endpoints = Endpoints(
    leftPath: Option<string>,
    rightPath: Option<string>,
    isRemoteRight: bool,
    remoteHost: string,
    remotePath: string)

  /** Either rsync is started with these sources and destination, or one error
      line is logged and nothing starts. */
  datatype Plan = Launch(sources: seq<string>, destination: string) | Reject(message: string)

  const NoSource: string := "No source selected"
  const NoDestination: string := "No destination selected"
  const RemoteNotConfigured: string := "Remote not configured"

  /** The directory string of one side, or the error logged when it is missing. */
  datatype Located = Found(location: string) | Missing(message: string)

  /** `host:path/` for the remote right side. */
  function RemoteLocation(e: Endpoints): (location: string)
  {
    e.remoteHost + ":" + e.remotePath + "/"
  }

  function LeftDirectory(e: Endpoints, missing: string): (located: Located)
  {
    match e.leftPath
    case None => Missing(missing)
    case Some(left) => Found(left + "/")
  }

  function RightDirectory(e: Endpoints, missing: string): (located: Located)
  {
    if e.isRemoteRight then
      if e.remoteHost == "" || e.remotePath == "" then Missing(RemoteNotConfigured)
      else Found(RemoteLocation(e))
    else
      match e.rightPath
      case None => Missing(missing)
      case Some(right) => Found(right + "/")
  }

  /** Whole-directory sync: the contents of the source directory go into the
      destination directory. */
  function PlanDirectory(e: Endpoints, direction: SyncDirection): (plan: Plan)
  {
    if direction == LeftToRight then
      match LeftDirectory(e, NoSource)
      case Missing(m) => Reject(m)
      case Found(source) =>
        match RightDirectory(e, NoDestination)
        case Missing(m) => Reject(m)
        case Found(destination) => Launch([source], destination)
    else
      match RightDirectory(e, NoSource)
      case Missing(m) => Reject(m)
      case Found(source) =>
        match LeftDirectory(e, NoDestination)
        case Missing(m) => Reject(m)
        case Found(destination) => Launch([source], destination)
  }

  /** A selected path as an rsync source: a slash is added to directories. */
  function SourceArgument(path: string, directories: set<string>): (source: string)
  {
    if path in directories then path + "/" else path
  }

  function SourceArguments(selected: seq<string>, directories: set<string>): (sources: seq<string>)
    ensures |sources| == |selected|
  {
    seq(|selected|, i requires 0 <= i < |selected| => SourceArgument(selected[i], directories))
  }

  /** Selection sync: one source per selected path, into the destination directory. */
  function PlanSelected(e: Endpoints, selected: seq<string>, direction: SyncDirection, directories: set<string>): (plan: Plan)
  {
    var destination := if direction == LeftToRight then RightDirectory(e, NoDestination) else LeftDirectory(e, NoDestination);
    match destination
    case Missing(m) => Reject(m)
    case Found(d) => Launch(SourceArguments(selected, directories), d)
  }

  /** What `sync` does once it has checked that no run is in progress. */
  function PlanSync(e: Endpoints, selected: seq<string>, direction: SyncDirection, directories: set<string>): (plan: Plan)
  {
    if selected != [] then PlanSelected(e, selected, direction, directories) else PlanDirectory(e, direction)
  }

  // ---------------------------------------------------------------------------
  // The same rules stated per side
  // ---------------------------------------------------------------------------

  /** A side can take part in a sync: a local directory is set, or the remote
      host and path are both non-empty. */
  predicate Ready(e: Endpoints, side: Side)
  {
    match side
    case Left => e.leftPath.Some?
    case Right => if e.isRemoteRight then e.remoteHost != "" && e.remotePath != "" else e.rightPath.Some?
  }

  /** The directory string of a ready side. */
  function Location(e: Endpoints, side: Side): (loc: string)
    requires Ready(e, side)
    ensures EndsWithSlash(loc)
  {
    match side
    case Left => e.leftPath.value + "/"
    case Right => if e.isRemoteRight then RemoteLocation(e) else e.rightPath.value + "/"
  }

  /** The error logged for a side that is not ready, in the role it plays. */
  function Problem(e: Endpoints, side: Side, role: string): (message: string)
  {
    if side == Right && e.isRemoteRight then RemoteNotConfigured else role
  }

  lemma LeftDirectoryReady(e: Endpoints, missing: string)
    ensures LeftDirectory(e, missing) == if Ready(e, Left) then Found(Location(e, Left)) else Missing(missing)
  {
  }

  lemma RightDirectoryReady(e: Endpoints, missing: string)
    ensures RightDirectory(e, missing) == if Ready(e, Right) then Found(Location(e, Right)) else Missing(Problem(e, Right, missing))
  {
  }

  /** Whole-directory sync starts iff both sides are ready, whatever the
      direction; the source is the direction's source side and the
      destination its destination side, both ending in '/'; otherwise the
      source side is checked first and exactly one error names the problem. */
  lemma PlanDirectorySpec(e: Endpoints, direction: SyncDirection)
    ensures PlanDirectory(e, direction).Launch? <==> Ready(e, Left) && Ready(e, Right)
    ensures PlanDirectory(e, direction).Launch? ==>
      && PlanDirectory(e, direction).sources == [Location(e, SourceSide(direction))]
      && PlanDirectory(e, direction).destination == Location(e, DestinationSide(direction))
      && EndsWithSlash(PlanDirectory(e, direction).sources[0])
      && EndsWithSlash(PlanDirectory(e, direction).destination)
    ensures !Ready(e, SourceSide(direction)) ==>
      PlanDirectory(e, direction) == Reject(Problem(e, SourceSide(direction), NoSource))
    ensures Ready(e, SourceSide(direction)) && !Ready(e, DestinationSide(direction)) ==>
      PlanDirectory(e, direction) == Reject(Problem(e, DestinationSide(direction), NoDestination))
  {
    LeftDirectoryReady(e, NoSource);
    LeftDirectoryReady(e, NoDestination);
    RightDirectoryReady(e, NoSource);
    RightDirectoryReady(e, NoDestination);
  }

  /** Reversing the direction swaps the source and the destination. */
  lemma PlanDirectorySwap(e: Endpoints)
    ensures PlanDirectory(e, LeftToRight).Launch? <==> PlanDirectory(e, RightToLeft).Launch?
    ensures PlanDirectory(e, LeftToRight).Launch? ==>
      && PlanDirectory(e, RightToLeft).sources == [PlanDirectory(e, LeftToRight).destination]
      && PlanDirectory(e, RightToLeft).destination == PlanDirectory(e, LeftToRight).sources[0]
  {
    PlanDirectorySpec(e, LeftToRight);
    PlanDirectorySpec(e, RightToLeft);
  }

  /** Selection sync starts iff the destination side is ready (the source side
      is not checked); it has one source per selected path in selection order,
      with a '/' added exactly to the directories, and the same destination as
      a whole-directory sync. */
  lemma PlanSelectedSpec(e: Endpoints, selected: seq<string>, direction: SyncDirection, directories: set<string>)
    requires selected != []
    ensures var plan := PlanSync(e, selected, direction, directories);
      && (plan.Launch? <==> Ready(e, DestinationSide(direction)))
      && (plan.Reject? ==> plan.message == Problem(e, DestinationSide(direction), NoDestination))
      && (plan.Launch? ==>
        && |plan.sources| == |selected|
        && plan.destination == Location(e, DestinationSide(direction))
        && EndsWithSlash(plan.destination)
        && forall i :: 0 <= i < |selected| ==>
             && (plan.sources[i] == selected[i] + "/" <==> selected[i] in directories)
             && (selected[i] !in directories ==> plan.sources[i] == selected[i]))
  {
    LeftDirectoryReady(e, NoDestination);
    RightDirectoryReady(e, NoDestination);
    var plan := PlanSync(e, selected, direction, directories);
    if plan.Launch? {
      forall i | 0 <= i < |selected|
        ensures plan.sources[i] == selected[i] + "/" <==> selected[i] in directories
      {
        if selected[i] !in directories {
          assert |plan.sources[i]| != |selected[i] + "/"|;
        }
      }
    }
  }

  /** Local left directory, remote right, copy mode, nothing selected. */
  lemma ExampleWholeDirectoryToRemote()
    ensures var e := Endpoints(Some("/home/a"), None, true, "host", "/srv/b");
      var plan := PlanSync(e, [], LeftToRight, {});
      plan == Launch(["/home/a/"], "host:/srv/b/")
      && Arguments(Slurp, plan.sources, plan.destination) == ["-haz", "--info=name", "/home/a/", "host:/srv/b/"]
  {
    var e := Endpoints(Some("/home/a"), None, true, "host", "/srv/b");
    assert RemoteLocation(e) == "host:/srv/b/";
    assert "/home/a" + "/" == "/home/a/";
  }

  /** The same endpoints, mirror mode, one selected file. */
  lemma ExampleSelectedFileToRemote()
    ensures var e := Endpoints(Some("/home/a"), None, true, "host", "/srv/b");
      var plan := PlanSync(e, ["/home/a/report.pdf"], LeftToRight, {"/home/a"});
      plan == Launch(["/home/a/report.pdf"], "host:/srv/b/")
      && Arguments(Force, plan.sources, plan.destination)
         == ["-haz", "--info=name,del", "--delete", "--force-delete", "/home/a/report.pdf", "host:/srv/b/"]
  {
  }
}
