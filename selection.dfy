/** The paths handed to SyncManager for the items selected in a pane
    (Sources/SyncControls.swift, `executeSync`, and Sources/ContentView.swift,
    `runSync`): the listed items whose id is selected, in listing order, each
    rendered as `host:path` when the pane shows a remote host. */
module Selection {
  import opened SyncTypes
  import opened Listing

  /** What a pane shows: the local file system or a remote host. */
  datatype PaneMode = Local | Remote(host: string)

  /** How an item's path is given to rsync from a pane in the given mode. */
  function Render(path: string, mode: PaneMode): (rendered: string)
  {
    match mode
    case Local => path
    case Remote(host) => host + ":" + path
  }

  /** Recovers the path from a rendered string, if it was rendered in this mode. */
  function Unrender(rendered: string, mode: PaneMode): (path: Option<string>)
  {
    match mode
    case Local => Some(rendered)
    case Remote(host) =>
      var n := |host| + 1;
      if |rendered| >= n && rendered[..n] == host + ":" then Some(rendered[n..]) else None
  }

  /** Rendering can be undone, so two different items never give the same argument. */
  lemma RenderRoundTrip(path: string, mode: PaneMode)
    ensures Unrender(Render(path, mode), mode) == Some(path)
    ensures mode.Remote? ==> Render(path, mode)[..|mode.host| + 1] == mode.host + ":"
  {
    if mode.Remote? {
      var r := Render(path, mode);
      var n := |mode.host| + 1;
      assert r[..n] == mode.host + ":";
      assert r[n..] == path;
    }
  }

  lemma RenderInjective(p: string, q: string, mode: PaneMode)
    requires Render(p, mode) == Render(q, mode)
    ensures p == q
  {
    RenderRoundTrip(p, mode);
    RenderRoundTrip(q, mode);
  }

  /** The listed items whose id is selected, in listing order. */
  function SelectedItems(items: seq<Item>, selected: set<nat>): (r: seq<Item>)
    ensures |r| <= |items|
  {
    if items == [] then []
    else
      var last := items[|items| - 1];
      SelectedItems(items[..|items| - 1], selected) + (if last.id in selected then [last] else [])
  }

  /** The selected items rendered for rsync, in listing order. */
  function SelectedPaths(items: seq<Item>, selected: set<nat>, mode: PaneMode): (paths: seq<string>)
  {
    var chosen := SelectedItems(items, selected);
    seq(|chosen|, k requires 0 <= k < |chosen| => Render(chosen[k].path, mode))
  }

  /** The positions in the listing of the selected items. */
  function Positions(items: seq<Item>, selected: set<nat>): (pos: seq<nat>)
    ensures forall k :: 0 <= k < |pos| ==> pos[k] < |items|
  {
    if items == [] then []
    else
      var n := |items| - 1;
      Positions(items[..n], selected) + (if items[n].id in selected then [n] else [])
  }

  /** The positions are strictly increasing and are exactly those of the
      items whose id is selected. */
  lemma {:induction false} PositionsSpec(items: seq<Item>, selected: set<nat>)
    ensures var pos := Positions(items, selected);
      && (forall k, l :: 0 <= k < l < |pos| ==> pos[k] < pos[l])
      && (forall i :: 0 <= i < |items| ==> (i in pos <==> items[i].id in selected))
  {
    if items != [] {
      var n := |items| - 1;
      var init := items[..n];
      PositionsSpec(init, selected);
      var pos0 := Positions(init, selected);
      var pos := Positions(items, selected);
      assert pos == pos0 + (if items[n].id in selected then [n] else []);
      assert n !in pos0;
      forall i | 0 <= i < n ensures i in pos <==> items[i].id in selected {
        assert items[i] == init[i];
      }
    }
  }

  /** The filter keeps exactly the items whose id is selected, in the order of
      the listing: it is the listing read at the strictly increasing positions
      of the selected items. */
  lemma {:induction false} SelectedItemsSpec(items: seq<Item>, selected: set<nat>)
    ensures var pos := Positions(items, selected);
      && |SelectedItems(items, selected)| == |pos|
      && (forall k :: 0 <= k < |pos| ==> SelectedItems(items, selected)[k] == items[pos[k]])
      && (forall k, l :: 0 <= k < l < |pos| ==> pos[k] < pos[l])
      && (forall i :: 0 <= i < |items| ==> (i in pos <==> items[i].id in selected))
  {
    PositionsSpec(items, selected);
    if items != [] {
      var n := |items| - 1;
      var init := items[..n];
      SelectedItemsSpec(init, selected);
      var pos0 := Positions(init, selected);
      var r0 := SelectedItems(init, selected);
      var pos := Positions(items, selected);
      var r := SelectedItems(items, selected);
      var chosen := items[n].id in selected;
      assert pos == pos0 + (if chosen then [n] else []);
      assert r == r0 + (if chosen then [items[n]] else []);
      forall k | 0 <= k < |pos| ensures r[k] == items[pos[k]] {
        if k < |pos0| {
          assert r[k] == r0[k] == init[pos0[k]];
        }
      }
    }
  }

  /** Membership: an item is passed on iff it is listed and its id is selected. */
  lemma SelectedItemsMembers(items: seq<Item>, selected: set<nat>)
    ensures forall x :: x in SelectedItems(items, selected) <==> x in items && x.id in selected
  {
    SelectedItemsSpec(items, selected);
    var pos := Positions(items, selected);
    var r := SelectedItems(items, selected);
    forall x ensures x in r <==> x in items && x.id in selected {
      if x in r {
        var k :| 0 <= k < |r| && r[k] == x;
        assert items[pos[k]] == x;
      }
      if x in items && x.id in selected {
        var i :| 0 <= i < |items| && items[i] == x;
        assert i in pos;
        var k :| 0 <= k < |pos| && pos[k] == i;
        assert r[k] == x;
      }
    }
  }

  /** The rendered paths follow the selected items one for one. */
  lemma SelectedPathsSpec(items: seq<Item>, selected: set<nat>, mode: PaneMode)
    ensures var pos := Positions(items, selected);
      var paths := SelectedPaths(items, selected, mode);
      && |paths| == |pos|
      && forall k :: 0 <= k < |pos| ==>
           && paths[k] == Render(items[pos[k]].path, mode)
           && Unrender(paths[k], mode) == Some(items[pos[k]].path)
  {
    SelectedItemsSpec(items, selected);
    var pos := Positions(items, selected);
    forall k | 0 <= k < |pos| ensures Unrender(Render(items[pos[k]].path, mode), mode) == Some(items[pos[k]].path) {
      RenderRoundTrip(items[pos[k]].path, mode);
    }
  }

  // ---------------------------------------------------------------------------
  // Selections of listed items
  // ---------------------------------------------------------------------------

  function Ids(items: seq<Item>): (ids: set<nat>)
  {
    set x | x in items :: x.id
  }

  /** Every listed item carries its own id (ids are fresh UUIDs), and no item
      is listed twice. Stated on the multiset, so any reordering keeps it. */
  predicate DistinctIds(items: seq<Item>)
  {
    && (forall a, b :: a in multiset(items) && b in multiset(items) && a.id == b.id ==> a == b)
    && (forall a :: a in multiset(items) ==> multiset(items)[a] == 1)
  }

  lemma DistinctIdsSnoc(init: seq<Item>, x: Item)
    requires DistinctIds(init + [x])
    ensures DistinctIds(init) && x.id !in Ids(init)
  {
    var items := init + [x];
    assert multiset(items) == multiset(init) + multiset{x};
    forall a | a in multiset(init) ensures multiset(init)[a] == 1 {
      assert multiset(items)[a] == multiset(init)[a] + multiset{x}[a];
    }
    assert x !in multiset(init) by {
      assert multiset(items)[x] == multiset(init)[x] + 1;
    }
    forall y | y in init ensures y.id != x.id {
      assert y in multiset(items) && x in multiset(items);
    }
  }

  lemma IdsSnoc(init: seq<Item>, x: Item)
    ensures Ids(init + [x]) == Ids(init) + {x.id}
  {
    assert forall y :: y in init + [x] <==> y in init || y == x;
  }

  lemma {:induction false} CountSelected(items: seq<Item>, selected: set<nat>)
    requires DistinctIds(items)
    ensures |SelectedItems(items, selected)| == |selected * Ids(items)|
  {
    if items == [] {
      assert selected * Ids(items) == {};
    } else {
      var n := |items| - 1;
      var init := items[..n];
      var x := items[n];
      assert items == init + [x];
      DistinctIdsSnoc(init, x);
      IdsSnoc(init, x);
      CountSelected(init, selected);
      var before := selected * Ids(init);
      assert |SelectedItems(items, selected)| == |before| + (if x.id in selected then 1 else 0);
      if x.id in selected {
        assert selected * Ids(items) == before + {x.id};
        assert x.id !in before;
        assert |before + {x.id}| == |before| + 1;
      } else {
        assert selected * Ids(items) == before;
      }
    }
  }

  /** When every selected id belongs to a listed item, one path is passed on
      per selected id; in particular there are paths iff something is selected. */
  lemma SelectionCount(items: seq<Item>, selected: set<nat>, mode: PaneMode)
    requires DistinctIds(items) && selected <= Ids(items)
    ensures |SelectedPaths(items, selected, mode)| == |selected|
    ensures SelectedPaths(items, selected, mode) != [] <==> selected != {}
  {
    CountSelected(items, selected);
    assert selected * Ids(items) == selected;
  }

  /** A permutation of a listing with distinct ids has distinct ids. */
  lemma DistinctIdsPermutation(s: seq<Item>, t: seq<Item>)
    requires multiset(s) == multiset(t) && DistinctIds(s)
    ensures DistinctIds(t)
  {
  }

  /** A remote pane with the second of three items selected. */
  lemma ExampleRemoteSelection()
    ensures SelectedPaths([Item(1, "/srv/a", "a", false), Item(2, "/srv/b", "b", true), Item(3, "/srv/c", "c", false)], {2}, Remote("host"))
      == ["host:/srv/b"]
  {
    var items := [Item(1, "/srv/a", "a", false), Item(2, "/srv/b", "b", true), Item(3, "/srv/c", "c", false)];
    assert items[..2][..1] == [Item(1, "/srv/a", "a", false)];
    assert items[..2] == [Item(1, "/srv/a", "a", false), Item(2, "/srv/b", "b", true)];
    assert SelectedItems(items[..2][..1], {2}) == [];
    assert SelectedItems(items[..2], {2}) == [Item(2, "/srv/b", "b", true)];
    assert SelectedItems(items, {2}) == [Item(2, "/srv/b", "b", true)];
    assert Render("/srv/b", Remote("host")) == "host:/srv/b";
    assert SelectedPaths(items, {2}, Remote("host"))[0] == "host:/srv/b";
  }
}
