/** The order in which a directory listing is shown (Sources/Models.swift,
    `loadDirectory`): directories before files, then names in ascending
    case-insensitive order. Case-insensitive comparison is modelled as
    comparison after ASCII lower-casing. */
module Listing {
  import opened SyncTypes

  /** One entry of a directory listing. The id stands for the entry's UUID;
      size, date and icon are presentation and are not modelled. */
  datatype Item = Item(id: nat, path: string, name: string, isDirectory: bool)

  function LowerChar(c: char): (l: char)
    ensures !('A' <= l <= 'Z')
  {
    if 'A' <= c <= 'Z' then (c as int + 32) as char else c
  }

  function Lower(s: string): (l: string)
    ensures |l| == |s|
  {
    seq(|s|, i requires 0 <= i < |s| => LowerChar(s[i]))
  }

  /** Strict lexicographic order on strings, character by character. */
  predicate StringLess(a: string, b: string)
  {
    if a == [] then b != []
    else if b == [] then false
    else if a[0] != b[0] then a[0] < b[0]
    else StringLess(a[1..], b[1..])
  }

  /** Name a sorts strictly before name b when case is ignored. */
  predicate NameAscending(a: string, b: string)
  {
    StringLess(Lower(a), Lower(b))
  }

  /** The comparator handed to `sorted`: true when a is shown before b. */
  predicate Before(a: Item, b: Item)
  {
    if a.isDirectory != b.isDirectory then a.isDirectory else NameAscending(a.name, b.name)
  }

  /** a may be shown before b: the comparator does not put b first. */
  predicate NotAfter(a: Item, b: Item)
  {
    !Before(b, a)
  }

  /** No two entries are out of the comparator's order. */
  predicate Sorted(s: seq<Item>)
  {
    forall i, j :: 0 <= i < j < |s| ==> NotAfter(s[i], s[j])
  }

  // ---------------------------------------------------------------------------
  // The comparator is a strict weak order
  // ---------------------------------------------------------------------------

  lemma {:induction false} StringLessIrreflexive(a: string)
    ensures !StringLess(a, a)
    decreases |a|
  {
    if a != [] {
      StringLessIrreflexive(a[1..]);
    }
  }

  lemma {:induction false} StringLessTrichotomy(a: string, b: string)
    ensures a == b || StringLess(a, b) || StringLess(b, a)
    ensures !(StringLess(a, b) && StringLess(b, a))
    decreases |a|
  {
    if a != [] && b != [] && a[0] == b[0] {
      StringLessTrichotomy(a[1..], b[1..]);
      if a[1..] == b[1..] {
        assert a == [a[0]] + a[1..] && b == [b[0]] + b[1..];
      }
    }
  }

  lemma {:induction false} StringLessTransitive(a: string, b: string, c: string)
    requires StringLess(a, b) && StringLess(b, c)
    ensures StringLess(a, c)
    decreases |a|
  {
    if a != [] && a[0] == b[0] && b[0] == c[0] {
      StringLessTransitive(a[1..], b[1..], c[1..]);
    }
  }

  /** The comparator never puts an item before itself, and never puts each of
      two items before the other. */
  lemma BeforeAsymmetric(a: Item, b: Item)
    ensures !Before(a, a)
    ensures Before(a, b) ==> !Before(b, a)
  {
    StringLessIrreflexive(Lower(a.name));
    StringLessTrichotomy(Lower(a.name), Lower(b.name));
  }

  /** Either order of two items is allowed by the comparator in at least one direction. */
  lemma NotAfterTotal(a: Item, b: Item)
    ensures NotAfter(a, b) || NotAfter(b, a)
  {
    BeforeAsymmetric(a, b);
  }

  lemma NotAfterTransitive(a: Item, b: Item, c: Item)
    requires NotAfter(a, b) && NotAfter(b, c)
    ensures NotAfter(a, c)
  {
    if a.isDirectory == c.isDirectory && a.isDirectory == b.isDirectory {
      var la, lb, lc := Lower(a.name), Lower(b.name), Lower(c.name);
      StringLessTrichotomy(la, lb);
      StringLessTrichotomy(lb, lc);
      if StringLess(lc, la) {
        if la == lb {
        } else if lb == lc {
        } else {
          StringLessTransitive(la, lb, lc);
          StringLessTrichotomy(la, lc);
        }
      }
    }
  }

  // ---------------------------------------------------------------------------
  // Sorting
  // ---------------------------------------------------------------------------

  /** Puts x in front of the first entry it is not after. */
  function Insert(x: Item, s: seq<Item>): (r: seq<Item>)
    ensures multiset(r) == multiset(s) + multiset{x}
  {
    if s == [] then [x]
    else if Before(s[0], x) then
      assert s == [s[0]] + s[1..];
      [s[0]] + Insert(x, s[1..])
    else [x] + s
  }

  /** The listing in display order. */
  function SortItems(s: seq<Item>): (r: seq<Item>)
    ensures multiset(r) == multiset(s)
  {
    if s == [] then []
    else
      assert s == [s[0]] + s[1..];
      Insert(s[0], SortItems(s[1..]))
  }

  lemma SortedTail(s: seq<Item>)
    requires Sorted(s) && s != []
    ensures Sorted(s[1..])
  {
    forall i, j | 0 <= i < j < |s[1..]| ensures NotAfter(s[1..][i], s[1..][j]) {
      assert s[1..][i] == s[i + 1] && s[1..][j] == s[j + 1];
    }
  }

  /** A sorted sequence stays sorted behind an item that may precede all of it. */
  lemma SortedCons(x: Item, s: seq<Item>)
    requires Sorted(s)
    requires forall j :: 0 <= j < |s| ==> NotAfter(x, s[j])
    ensures Sorted([x] + s)
  {
    var r := [x] + s;
    forall i, j | 0 <= i < j < |r| ensures NotAfter(r[i], r[j]) {
      assert r[j] == s[j - 1];
      if i > 0 {
        assert r[i] == s[i - 1];
      }
    }
  }

  lemma {:induction false} InsertSorted(x: Item, s: seq<Item>)
    requires Sorted(s)
    ensures Sorted(Insert(x, s))
  {
    if s == [] {
    } else if Before(s[0], x) {
      var rest := Insert(x, s[1..]);
      SortedTail(s);
      InsertSorted(x, s[1..]);
      forall j | 0 <= j < |rest| ensures NotAfter(s[0], rest[j]) {
        assert rest[j] in multiset(rest);
        if rest[j] == x {
          BeforeAsymmetric(s[0], x);
        } else {
          assert rest[j] in multiset(s[1..]);
          var k :| 0 <= k < |s[1..]| && s[1..][k] == rest[j];
          assert s[k + 1] == rest[j];
        }
      }
      SortedCons(s[0], rest);
    } else {
      forall j | 0 <= j < |s| ensures NotAfter(x, s[j]) {
        NotAfterTotal(x, s[0]);
        if j > 0 {
          NotAfterTransitive(x, s[0], s[j]);
        }
      }
      SortedCons(x, s);
    }
  }

  lemma {:induction false} SortItemsSorted(s: seq<Item>)
    ensures Sorted(SortItems(s))
  {
    if s != [] {
      SortItemsSorted(s[1..]);
      InsertSorted(s[0], SortItems(s[1..]));
    }
  }

  /** In a sorted listing every directory comes before every file, and within
      each group the lower-cased names never decrease. */
  lemma SortedGroups(s: seq<Item>)
    requires Sorted(s)
    ensures forall i, j :: 0 <= i < j < |s| && s[j].isDirectory ==> s[i].isDirectory
    ensures forall i, j :: 0 <= i < j < |s| && s[i].isDirectory == s[j].isDirectory ==>
      !StringLess(Lower(s[j].name), Lower(s[i].name))
  {
  }

  /** A listing as `loadDirectory` returns it: the entries the enumeration
      produced, in display order, or nothing when enumeration fails. */
  function LoadDirectory(listing: Option<seq<Item>>): (items: seq<Item>)
  {
    match listing
    case None => []
    case Some(entries) => SortItems(entries)
  }

  /** The listing shown is a permutation of the entries found, with every
      directory first and names ascending within each group. */
  lemma LoadDirectorySpec(listing: Option<seq<Item>>)
    ensures listing.None? ==> LoadDirectory(listing) == []
    ensures listing.Some? ==> multiset(LoadDirectory(listing)) == multiset(listing.value)
    ensures Sorted(LoadDirectory(listing))
    ensures var items := LoadDirectory(listing);
      && (forall i, j :: 0 <= i < j < |items| && items[j].isDirectory ==> items[i].isDirectory)
      && (forall i, j :: 0 <= i < j < |items| && items[i].isDirectory == items[j].isDirectory ==>
            !StringLess(Lower(items[j].name), Lower(items[i].name)))
  {
    if listing.Some? {
      SortItemsSorted(listing.value);
    }
    SortedGroups(LoadDirectory(listing));
  }

  /** `Zeta`, a file, `beta/` and `Alpha/` are shown as `Alpha/`, `beta/`, `Zeta`. */
  lemma ExampleOrder()
    ensures SortItems([Item(0, "/h/Zeta", "Zeta", false), Item(1, "/h/beta", "beta", true), Item(2, "/h/Alpha", "Alpha", true)])
      == [Item(2, "/h/Alpha", "Alpha", true), Item(1, "/h/beta", "beta", true), Item(0, "/h/Zeta", "Zeta", false)]
  {
    assert Lower("Alpha") == "alpha" && Lower("beta") == "beta";
  }
}
