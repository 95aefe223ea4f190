/** FileBrowserViewModel (Sources/Models.swift): one pane's current
    directory, its sorted listing, the selected item ids and the breadcrumb
    trail from the root down to the current directory. Paths are the strings
    a file URL's path yields; the directory enumeration is an input. */
module Browser {
  import opened SyncTypes
  import opened Text
  import opened Listing
  import opened Selection

  predicate IsAbsolute(p: string)
  {
    |p| > 0 && p[0] == '/'
  }

  /** The index of the last '/' in q, or -1 when there is none. */
  function LastSlash(q: string): (k: int)
    ensures -1 <= k < |q|
    ensures k >= 0 ==> q[k] == '/'
  {
    if q == [] then -1
    else if q[|q| - 1] == '/' then |q| - 1
    else LastSlash(q[..|q| - 1])
  }

  /** The parent directory of a path: the path up to its last '/',
      ignoring trailing slashes; "/" when that leaves nothing. */
  function Parent(p: string): (r: string)
    ensures r == "/" || (|r| < |p| && r < p)
  {
    var q := TrimTrailingSlashes(p);
    var k := LastSlash(q);
    if k <= 0 then "/" else q[..k]
  }

  /** The parent of an absolute path is an absolute prefix of it. */
  lemma ParentOfAbsolute(p: string)
    requires IsAbsolute(p)
    ensures IsAbsolute(Parent(p)) && Parent(p) <= p
  {
    var q := TrimTrailingSlashes(p);
    var k := LastSlash(q);
    if k > 0 {
      assert q[0] == p[0];
    }
  }

  /** In dir/name the last '/' is the one just before the name. */
  lemma {:induction false} LastSlashOfChild(dir: string, name: string)
    requires '/' !in name
    ensures LastSlash(dir + "/" + name) == |dir|
    decreases |name|
  {
    var p := dir + "/" + name;
    if name == [] {
      assert p[|p| - 1] == '/';
    } else {
      var shorter := name[..|name| - 1];
      assert p[|p| - 1] == name[|name| - 1];
      assert p[..|p| - 1] == dir + "/" + shorter;
      LastSlashOfChild(dir, shorter);
    }
  }

  /** Going up from dir/name removes the last component and gives dir,
      or "/" when dir is empty (name sits directly under the root). */
  lemma ParentOfChild(dir: string, name: string)
    requires name != "" && '/' !in name
    ensures Parent(dir + "/" + name) == if dir == "" then "/" else dir
  {
    var p := dir + "/" + name;
    assert p[|p| - 1] == name[|name| - 1];
    assert TrimTrailingSlashes(p) == p;
    LastSlashOfChild(dir, name);
    assert p[..|dir|] == dir;
  }

  /** The root stays where it is: going up from "/" gives "/" again, so the
      upward walk and the breadcrumb loop always reach the root. */
  lemma ParentOfRoot()
    ensures Parent("/") == "/"
    ensures forall p :: Parent(p) != "/" ==> |Parent(p)| < |p|
  {
    assert TrimTrailingSlashes("/") == TrimTrailingSlashes("");
  }

  // ---------------------------------------------------------------------------
  // The parent as Foundation computes it at the root
  // ---------------------------------------------------------------------------

  /** The last component is "..". */
  predicate EndsWithDotDot(p: string)
  {
    |p| >= 3 && p[|p| - 3..] == "/.."
  }

  /** The parent directory as Foundation computes it for the paths at and
      above the root: the parent of "/" is "/..", and a path
      whose last component is ".." gains another "..". Elsewhere it is Parent. */
  function ParentAsWritten(p: string): (r: string)
    ensures EndsWithDotDot(p) ==> r == p + "/.."
  {
    var q := TrimTrailingSlashes(p);
    if q == [] && p != [] then "/.."
    else if EndsWithDotDot(q) then q + "/.."
    else Parent(p)
  }

  /** The url of the breadcrumb loop after n climbs, as written. */
  function ClimbAsWritten(url: string, n: nat): (r: string)
    decreases n
  {
    if n == 0 then url else ClimbAsWritten(ParentAsWritten(url), n - 1)
  }

  /** Going up from the root, as written, leaves "/" for "/..", and from there
      the breadcrumb loop never meets "/" or a home that does not end in "..":
      after any number of climbs its url is neither, so the loop never exits. */
  lemma {:induction false} RootClimbNeverEnds(url: string, home: string, n: nat)
    requires url == "/.." || EndsWithDotDot(url)
    requires !EndsWithDotDot(home)
    ensures ParentAsWritten("/") == "/.."
    ensures var u := ClimbAsWritten(url, n); u != "/" && u != home && EndsWithDotDot(u)
    decreases n
  {
    assert TrimTrailingSlashes("/") == TrimTrailingSlashes("");
    assert EndsWithDotDot(url);
    if n > 0 {
      var up := url + "/..";
      assert up[|up| - 3..] == "/..";
      RootClimbNeverEnds(up, home, n - 1);
    }
  }

  /** The upward walk of `updateBreadcrumbs`: the directories from the first
      of home or a child of the root down to url, stopping early at home. */
  function Walk(url: string, home: string): (crumbs: seq<string>)
    decreases if url == "/" then 0 else |url| + 1
  {
    if url == "/" then []
    else if url == home then [url]
    else Walk(Parent(url), home) + [url]
  }

  /** The breadcrumbs shown for the current path: the walk, behind "/" when
      the path is absolute. */
  function Breadcrumbs(current: string, home: string): (crumbs: seq<string>)
  {
    var crumbs := Walk(current, home);
    if (crumbs == [] || crumbs[0] != "/") && IsAbsolute(current) then ["/"] + crumbs else crumbs
  }

  function BreadcrumbsOf(currentPath: Option<string>, home: string): (crumbs: seq<string>)
  {
    match currentPath
    case None => []
    case Some(current) => Breadcrumbs(current, home)
  }

  /** The walk never contains "/", ends at url, climbs one parent per step,
      passes home only as its first element, starts at home or at a child
      of the root, and for an absolute url consists of absolute prefixes of url. */
  lemma {:induction false} WalkSpec(url: string, home: string)
    ensures var w := Walk(url, home);
      && (forall i :: 0 <= i < |w| ==> w[i] != "/")
      && (url != "/" ==> w != [] && w[|w| - 1] == url)
      && (forall i :: 0 < i < |w| ==> w[i] != home && w[i - 1] == Parent(w[i]))
      && (w != [] ==> w[0] == home || Parent(w[0]) == "/")
      && (IsAbsolute(url) ==> forall i :: 0 <= i < |w| ==> IsAbsolute(w[i]) && w[i] <= url)
    decreases if url == "/" then 0 else |url| + 1
  {
    if url != "/" && url != home {
      var up := Parent(url);
      WalkSpec(up, home);
      var w0 := Walk(up, home);
      var w := Walk(url, home);
      assert w == w0 + [url];
      if up != "/" {
        assert w0[|w0| - 1] == up;
        assert w[|w| - 2] == up;
      } else {
        assert w0 == [];
      }
      if IsAbsolute(url) {
        ParentOfAbsolute(url);
      }
    }
  }

  /** For an absolute path the breadcrumbs open with "/" and close with the
      path itself; each later crumb is a directory on the way down to the
      path, the first of them home or a child of the root, and home occurs
      only there. A path that is not absolute gets no root crumb. */
  lemma BreadcrumbsSpec(current: string, home: string)
    ensures !IsAbsolute(current) ==> Breadcrumbs(current, home) == Walk(current, home)
    ensures IsAbsolute(current) ==>
      var b := Breadcrumbs(current, home);
      && b == ["/"] + Walk(current, home)
      && b[0] == "/" && b[|b| - 1] == current
      && (forall i :: 0 <= i < |b| ==> IsAbsolute(b[i]) && b[i] <= current)
      && (forall i :: 1 < i < |b| ==> b[i] != home && b[i - 1] == Parent(b[i]))
      && (|b| > 1 ==> b[1] == home || Parent(b[1]) == "/")
  {
    WalkSpec(current, home);
    var w := Walk(current, home);
    if IsAbsolute(current) {
      var b := ["/"] + w;
      assert w != [] ==> w[0] != "/";
      forall i | 1 <= i < |b| ensures b[i] == w[i - 1] {
      }
    }
  }

  /** Going up from home leaves the walk at the root: home's breadcrumbs are
      the root and home. */
  lemma BreadcrumbsOfHome(home: string)
    requires IsAbsolute(home) && home != "/"
    ensures Breadcrumbs(home, home) == ["/", home]
  {
  }

  /** The symmetric difference of a selection with one id. */
  function Toggle(selected: set<nat>, id: nat): (r: set<nat>)
    ensures id in r <==> id !in selected
    ensures forall other :: other != id ==> (other in r <==> other in selected)
  {
    if id in selected then selected - {id} else selected + {id}
  }

  lemma ToggleTwice(selected: set<nat>, id: nat)
    ensures Toggle(Toggle(selected, id), id) == selected
  {
  }

  class FileBrowser {
    var currentPath: Option<string>
    var items: seq<Item>
    var selectedItems: set<nat>
    var isLoading: bool
    var breadcrumbs: seq<string>
    /** The user's home directory, where the upward walk stops. */
    const home: string
    /** Whether the pane shows a remote host, and the path a sync uses for
        it; both are set by code that is not part of this model. */
    var mode: PaneMode
    var syncPath: Option<string>

    /** The pane's consistent states: a sorted listing with distinct ids, a
        selection of listed ids, and the breadcrumbs of the current path. */
    ghost predicate Valid()
      reads this
    {
      && Sorted(items)
      && DistinctIds(items)
      && selectedItems <= Ids(items)
      && breadcrumbs == BreadcrumbsOf(currentPath, home)
    }

    constructor (initialPath: Option<string>, home: string)
      ensures this.home == home && currentPath == initialPath
      ensures items == [] && selectedItems == {} && mode == Local && syncPath == None
      ensures isLoading == initialPath.Some?
      ensures breadcrumbs == BreadcrumbsOf(initialPath, home)
      ensures Valid()
    {
      this.home := home;
      currentPath, items, selectedItems, isLoading, breadcrumbs := None, [], {}, false, [];
      mode, syncPath := Local, None;
      new;
      if initialPath.Some? {
        NavigateTo(initialPath.value);
      }
    }

    /** Starts loading url: the listing and the selection stay until the
        load finishes. */
    method NavigateTo(url: string)
      modifies this`isLoading, this`currentPath, this`breadcrumbs
      ensures isLoading && currentPath == Some(url)
      ensures breadcrumbs == Breadcrumbs(url, home)
      ensures old(Valid()) ==> Valid()
    {
      isLoading := true;
      currentPath := Some(url);
      UpdateBreadcrumbs();
    }

    /** The detached load of `navigateTo` delivering its listing, or None
        when the directory could not be read. */
    method FinishLoading(listing: Option<seq<Item>>)
      modifies this`items, this`isLoading, this`selectedItems
      ensures items == LoadDirectory(listing) && !isLoading && selectedItems == {}
      ensures Sorted(items)
      ensures breadcrumbs == BreadcrumbsOf(currentPath, home) && (listing.None? || DistinctIds(listing.value)) ==> Valid()
    {
      items := LoadDirectory(listing);
      isLoading := false;
      selectedItems := {};
      LoadDirectorySpec(listing);
      if listing.Some? && DistinctIds(listing.value) {
        DistinctIdsPermutation(listing.value, items);
      }
    }

    method Refresh()
      modifies this`isLoading, this`currentPath, this`breadcrumbs
      ensures currentPath == old(currentPath)
      ensures old(currentPath).None? ==> isLoading == old(isLoading) && breadcrumbs == old(breadcrumbs)
      ensures old(currentPath).Some? ==> isLoading && breadcrumbs == Breadcrumbs(old(currentPath).value, home)
      ensures old(Valid()) ==> Valid()
    {
      if currentPath.Some? {
        NavigateTo(currentPath.value);
      }
    }

    method NavigateUp()
      modifies this`isLoading, this`currentPath, this`breadcrumbs
      ensures old(currentPath).None? ==> currentPath == None && isLoading == old(isLoading) && breadcrumbs == old(breadcrumbs)
      ensures old(currentPath).Some? ==>
        isLoading && currentPath == Some(Parent(old(currentPath).value))
        && breadcrumbs == Breadcrumbs(Parent(old(currentPath).value), home)
      ensures old(Valid()) ==> Valid()
    {
      if currentPath.Some? {
        NavigateTo(Parent(currentPath.value));
      }
    }

    method NavigateToHome()
      modifies this`isLoading, this`currentPath, this`breadcrumbs
      ensures isLoading && currentPath == Some(home) && breadcrumbs == Breadcrumbs(home, home)
      ensures old(Valid()) ==> Valid()
    {
      NavigateTo(home);
    }

    /** The directory chosen in the open panel, or None when it was dismissed. */
    method SelectDirectory(chosen: Option<string>)
      modifies this`isLoading, this`currentPath, this`breadcrumbs
      ensures chosen.None? ==> currentPath == old(currentPath) && isLoading == old(isLoading) && breadcrumbs == old(breadcrumbs)
      ensures chosen.Some? ==> isLoading && currentPath == chosen && breadcrumbs == Breadcrumbs(chosen.value, home)
      ensures old(Valid()) ==> Valid()
    {
      if chosen.Some? {
        NavigateTo(chosen.value);
      }
    }

    /** A tap on a row adds its id to the selection or removes it. */
    method ToggleSelection(id: nat)
      modifies this`selectedItems
      ensures selectedItems == Toggle(old(selectedItems), id)
      ensures old(Valid()) && id in Ids(items) ==> Valid()
    {
      selectedItems := Toggle(selectedItems, id);
    }

    /** Recomputes the breadcrumbs by walking up from the current path. */
    method UpdateBreadcrumbs()
      modifies this`breadcrumbs
      ensures breadcrumbs == BreadcrumbsOf(currentPath, home)
    {
      if currentPath.None? {
        breadcrumbs := [];
        return;
      }
      var current := currentPath.value;
      var crumbs: seq<string> := [];
      var url := current;
      while url != "/"
        invariant Walk(current, home) == Walk(url, home) + crumbs
        decreases if url == "/" then 0 else |url| + 1
      {
        crumbs := [url] + crumbs;
        if url == home {
          break;
        }
        url := Parent(url);
      }
      assert crumbs == Walk(current, home);
      if (crumbs == [] || crumbs[0] != "/") && IsAbsolute(current) {
        crumbs := ["/"] + crumbs;
      }
      breadcrumbs := crumbs;
    }
  }
}
