/** The nested tree of a revision: paths inserted one after the other into directories
    of directories, and the tree objects built from it. */
module PathTree {
  import opened Checked
  import opened Strings
  import opened Paths
  import Sorting

  type Oid = int

  /** A dictionary keeps its names in the order they were first set. */
  datatype Node = Blob(oid: Oid) | Dir(entries: seq<Entry>)

  datatype Entry = Entry(name: string, node: Node)

  datatype File = File(path: string, oid: Oid)

  function Lookup(entries: seq<Entry>, name: string): Option<Node> {
    if entries == [] then None
    else if entries[0].name == name then Some(entries[0].node)
    else Lookup(entries[1..], name)
  }

  function Put(entries: seq<Entry>, name: string, node: Node): seq<Entry> {
    if entries == [] then [Entry(name, node)]
    else if entries[0].name == name then [Entry(name, node)] + entries[1..]
    else [entries[0]] + Put(entries[1..], name, node)
  }

  /** Descends by the components, creating directories on the way; a blob on the way
      stops it, anything at the end is replaced. */
  function Insert(entries: seq<Entry>, components: seq<string>, oid: Oid): Option<seq<Entry>>
    requires components != []
    decreases |components|
  {
    var name := components[0];
    if |components| == 1 then Some(Put(entries, name, Blob(oid)))
    else
      var below := match Lookup(entries, name)
                   case None => Insert([], components[1..], oid)
                   case Some(Dir(sub)) => Insert(sub, components[1..], oid)
                   case Some(Blob(_)) => None;
      match below
      case None => None
      case Some(sub) => Some(Put(entries, name, Dir(sub)))
  }

  function InsertAll(files: seq<File>, n: nat): Option<seq<Entry>>
    requires n <= |files|
  {
    if n == 0 then Some([])
    else
      match InsertAll(files, n - 1)
      case None => None
      case Some(entries) =>
        var components := Split(files[n - 1].path);
        SplitGives(files[n - 1].path);
        Insert(entries, components, files[n - 1].oid)
  }

  /** The order of the loop: by path, compared character by character. */
  predicate TextBefore(a: string, b: string) {
    if b == "" then false
    else if a == "" then true
    else if a[0] != b[0] then a[0] < b[0]
    else TextBefore(a[1..], b[1..])
  }

  predicate FileBefore(a: File, b: File) { TextBefore(a.path, b.path) }

  function SortedFiles(files: seq<File>): seq<File> { Sorting.Sort(files, FileBefore) }

  function CreateTree(files: seq<File>): Option<seq<Entry>> {
    var sorted := SortedFiles(files);
    InsertAll(sorted, |sorted|)
  }

  method BuildNestedTree(files: seq<File>) returns (tree: Option<seq<Entry>>)
    ensures tree == CreateTree(files)
  {
    var sorted := SortedFiles(files);
    var entries := [];
    for i := 0 to |sorted|
      invariant InsertAll(sorted, i) == Some(entries)
    {
      SplitGives(sorted[i].path);
      var next := Insert(entries, Split(sorted[i].path), sorted[i].oid);
      if next.None? { InsertStops(sorted, i + 1, |sorted|); return None; }
      entries := next.value;
    }
    return Some(entries);
  }

  lemma {:induction false} InsertStops(files: seq<File>, m: nat, n: nat)
    requires m <= n <= |files| && InsertAll(files, m) == None
    ensures InsertAll(files, n) == None
  {
    if m < n { InsertStops(files, m, n - 1); }
  }

  // ---- what a tree holds ----

  function Find(entries: seq<Entry>, components: seq<string>): Option<Oid>
    requires components != []
    decreases |components|
  {
    match Lookup(entries, components[0])
    case None => None
    case Some(Blob(oid)) => if |components| == 1 then Some(oid) else None
    case Some(Dir(sub)) => if |components| == 1 then None else Find(sub, components[1..])
  }

  lemma {:induction false} PutLooksUp(entries: seq<Entry>, name: string, node: Node, other: string)
    ensures Lookup(Put(entries, name, node), other) == if other == name then Some(node) else Lookup(entries, other)
  {
    if entries != [] && entries[0].name != name {
      PutLooksUp(entries[1..], name, node, other);
      assert Put(entries, name, node)[1..] == Put(entries[1..], name, node);
    }
  }

  /** a is a proper beginning of b. */
  predicate Above(a: seq<string>, b: seq<string>) { |a| < |b| && b[..|a|] == a }

  ghost predicate BlocksOn(entries: seq<Entry>, components: seq<string>) {
    exists i :: 1 <= i < |components| && Find(entries, components[..i]).Some?
  }

  lemma {:induction false} FindNothing(components: seq<string>)
    requires components != []
    ensures Find([], components) == None && !BlocksOn([], components)
  {
  }

  /** A blob is in the way in a directory exactly when it is in the way further down. */
  lemma {:induction false} BlocksBelow(entries: seq<Entry>, components: seq<string>, sub: seq<Entry>)
    requires |components| > 1 && Lookup(entries, components[0]) == Some(Dir(sub))
    ensures BlocksOn(entries, components) <==> BlocksOn(sub, components[1..])
  {
    if BlocksOn(entries, components) {
      var i :| 1 <= i < |components| && Find(entries, components[..i]).Some?;
      assert components[..i][0] == components[0];
      assert i > 1 && components[..i][1..] == components[1..][..i - 1];
      assert Find(sub, components[1..][..i - 1]).Some?;
    }
    if BlocksOn(sub, components[1..]) {
      var i :| 1 <= i < |components[1..]| && Find(sub, components[1..][..i]).Some?;
      assert components[..i + 1][1..] == components[1..][..i];
      assert Find(entries, components[..i + 1]).Some?;
    }
  }

  lemma {:induction false} BlocksHere(entries: seq<Entry>, components: seq<string>)
    requires |components| > 1
    ensures Lookup(entries, components[0]) == None ==> !BlocksOn(entries, components)
    ensures Lookup(entries, components[0]).Some? && Lookup(entries, components[0]).value.Blob? ==>
              BlocksOn(entries, components)
  {
    if Lookup(entries, components[0]) == None {
      forall i | 1 <= i < |components| ensures Find(entries, components[..i]).None? {
        assert components[..i][0] == components[0];
      }
    } else if Lookup(entries, components[0]).value.Blob? {
      assert components[..1][0] == components[0] && |components[..1]| == 1;
      assert Find(entries, components[..1]).Some?;
    }
  }

  /** An insertion fails exactly when a blob stands on the way. */
  lemma {:induction false} InsertFailsExactly(entries: seq<Entry>, components: seq<string>, oid: Oid)
    requires components != []
    ensures Insert(entries, components, oid).None? <==> BlocksOn(entries, components)
    decreases |components|
  {
    if |components| > 1 {
      BlocksHere(entries, components);
      match Lookup(entries, components[0])
      case None => FindNothing(components[1..]); InsertFailsExactly([], components[1..], oid);
      case Some(Dir(sub)) => BlocksBelow(entries, components, sub); InsertFailsExactly(sub, components[1..], oid);
      case Some(Blob(_)) =>
    }
  }

  /** Otherwise it adds one file, and takes away what stood below that file's path. */
  lemma {:induction false} InsertFinds(entries: seq<Entry>, components: seq<string>, oid: Oid, other: seq<string>)
    requires components != [] && other != [] && Insert(entries, components, oid).Some?
    ensures Find(Insert(entries, components, oid).value, other) ==
            if other == components then Some(oid)
            else if Above(components, other) then None
            else Find(entries, other)
    decreases |components|
  {
    var name := components[0];
    if |components| == 1 {
      PutLooksUp(entries, name, Blob(oid), other[0]);
      assert Above(components, other) <==> |other| > 1 && other[0] == name;
      assert other == components <==> |other| == 1 && other[0] == name;
    } else {
      var sub := match Lookup(entries, name) case Some(Dir(inner)) => inner case _ => [];
      var below := Insert(sub, components[1..], oid).value;
      assert Insert(entries, components, oid).value == Put(entries, name, Dir(below));
      PutLooksUp(entries, name, Dir(below), other[0]);
      if other[0] == name && |other| > 1 {
        InsertFinds(sub, components[1..], oid, other[1..]);
        FindThrough(entries, other, sub);
        SameBelow(components, other);
      } else {
        assert other != components && !Above(components, other) by {
          if other[0] != name { assert components[0] == name; }
        }
        if other[0] == name { InsertNeedsDir(entries, components, oid); }
      }
    }
  }

  lemma {:induction false} InsertNeedsDir(entries: seq<Entry>, components: seq<string>, oid: Oid)
    requires |components| > 1 && Insert(entries, components, oid).Some?
    ensures Find(entries, [components[0]]).None?
  {
  }

  lemma {:induction false} FindThrough(entries: seq<Entry>, other: seq<string>, sub: seq<Entry>)
    requires |other| > 1
    requires match Lookup(entries, other[0])
             case Some(Dir(inner)) => inner == sub
             case Some(Blob(_)) => false
             case None => sub == []
    ensures Find(entries, other) == Find(sub, other[1..])
  {
  }

  lemma {:induction false} SameBelow(a: seq<string>, b: seq<string>)
    requires |a| > 1 && |b| > 1 && a[0] == b[0]
    ensures a == b <==> a[1..] == b[1..]
    ensures Above(a, b) <==> Above(a[1..], b[1..])
  {
    assert a == [a[0]] + a[1..] && b == [b[0]] + b[1..];
    if Above(a, b) { assert b[1..][..|a[1..]|] == b[..|a|][1..]; }
    if Above(a[1..], b[1..]) { assert b[..|a|] == [b[0]] + b[1..][..|a[1..]|]; }
  }

  // ---- sorted insertion ----

  lemma {:induction false} TextOrder(a: string, b: string, c: string)
    ensures !TextBefore(a, a)
    ensures a != b ==> TextBefore(a, b) != TextBefore(b, a)
    ensures TextBefore(a, b) && TextBefore(b, c) ==> TextBefore(a, c)
    decreases |a|
  {
    if a != "" {
      TextOrder(a[1..], if b == "" then "" else b[1..], if c == "" then "" else c[1..]);
      if b != "" && a[0] == b[0] { assert a[1..] == b[1..] ==> a == [a[0]] + b[1..] == b; }
    }
  }

  lemma {:induction false} DifferInPath(files: seq<File>, a: File, b: File)
    requires DistinctPaths(files) && a in files && b in files
    ensures a.path == b.path ==> a == b
  {
    var i :| 0 <= i < |files| && files[i] == a;
    var j :| 0 <= j < |files| && files[j] == b;
  }

  lemma {:induction false} FilesAreOrdered(files: seq<File>)
    requires DistinctPaths(files)
    ensures Sorting.StrictTotalOrder((set f | f in files), FileBefore)
    ensures Sorting.Ordered(SortedFiles(files), FileBefore)
    ensures multiset(SortedFiles(files)) == multiset(files)
  {
    var dom := set f | f in files;
    forall a, b, c | a in dom && b in dom && c in dom
      ensures !FileBefore(a, a) && (a != b ==> FileBefore(a, b) != FileBefore(b, a))
      ensures FileBefore(a, b) && FileBefore(b, c) ==> FileBefore(a, c)
    {
      TextOrder(a.path, b.path, c.path);
      DifferInPath(files, a, b);
    }
    Sorting.SortPermutes(files, FileBefore);
    forall i | 0 <= i < |files| ensures files[i] in dom { }
    Sorting.SortOrders(files, FileBefore, dom);
  }

  ghost predicate DistinctPaths(files: seq<File>) {
    forall i, j :: 0 <= i < j < |files| ==> files[i].path != files[j].path
  }

  /** A path comes before everything below it. */
  lemma {:induction false} AncestorsFirst(p: string, q: string)
    requires StartsBelow(p, q)
    ensures TextBefore(p, q)
  {
    if p != "" {
      assert q[0] == p[0];
      assert p[1..] + "/" == (p + "/")[1..];
      AncestorsFirst(p[1..], q[1..]);
    }
  }

  lemma {:induction false} BelowIsAbove(p: string, q: string)
    requires StartsBelow(p, q)
    ensures Above(Split(p), Split(q))
  {
    var rest := q[|p| + 1..];
    assert q == p + "/" + rest;
    SplitJoined(p, rest);
    SplitGives(rest);
    assert Split(q)[..|Split(p)|] == Split(p);
  }

  /** The components of p are a proper beginning of those of q exactly when q starts
      below p. */
  lemma {:induction false} AboveIsBelow(p: string, q: string)
    ensures Above(Split(p), Split(q)) <==> StartsBelow(p, q)
  {
    SplitGives(p);
    SplitGives(q);
    TestsAgree(p, q);
    if Above(Split(p), Split(q)) {
      assert JoinPath(Split(q)[..|Split(p)|]) == p;
    }
    if StartsBelow(p, q) { BelowIsAbove(p, q); }
  }

  ghost predicate SomeCollide(files: seq<File>, n: nat)
    requires n <= |files|
  {
    exists i, j :: 0 <= i < n && 0 <= j < n && StartsBelow(files[i].path, files[j].path)
  }

  /** The tree holds the first n files and nothing else. */
  ghost predicate Holds(entries: seq<Entry>, files: seq<File>, n: nat)
    requires n <= |files|
  {
    && (forall i ::
          0 <= i < n ==> Split(files[i].path) != [] && Find(entries, Split(files[i].path)) == Some(files[i].oid))
    && forall cs {:trigger Find(entries, cs)} :: cs != [] && Find(entries, cs).Some? ==>
         exists i :: 0 <= i < n && Split(files[i].path) == cs
  }

  lemma {:induction false} BlockIsAncestor(entries: seq<Entry>, files: seq<File>, n: nat, path: string)
    requires n <= |files| && Holds(entries, files, n) && BlocksOn(entries, Split(path))
    ensures exists i :: 0 <= i < n && StartsBelow(files[i].path, path)
  {
    var components := Split(path);
    var k :| 1 <= k < |components| && Find(entries, components[..k]).Some?;
    var i :| 0 <= i < n && Split(files[i].path) == components[..k];
    AboveIsBelow(files[i].path, path);
  }

  lemma {:induction false} AncestorBlocks(entries: seq<Entry>, files: seq<File>, n: nat, path: string, i: nat)
    requires n <= |files| && Holds(entries, files, n) && i < n && StartsBelow(files[i].path, path)
    ensures BlocksOn(entries, Split(path))
  {
    var components, above := Split(path), Split(files[i].path);
    AboveIsBelow(files[i].path, path);
    assert 1 <= |above| < |components| && components[..|above|] == above;
    assert Find(entries, components[..|above|]).Some?;
  }

  lemma {:induction false} BlockedByAncestor(entries: seq<Entry>, files: seq<File>, n: nat, path: string)
    requires n <= |files| && Holds(entries, files, n)
    ensures BlocksOn(entries, Split(path)) <==> exists i :: 0 <= i < n && StartsBelow(files[i].path, path)
  {
    if BlocksOn(entries, Split(path)) { BlockIsAncestor(entries, files, n, path); }
    if exists i :: 0 <= i < n && StartsBelow(files[i].path, path) {
      var i :| 0 <= i < n && StartsBelow(files[i].path, path);
      AncestorBlocks(entries, files, n, path, i);
    }
  }

  lemma {:induction false} InsertHolds(entries: seq<Entry>, files: seq<File>, n: nat)
    requires n < |files| && Sorting.Ordered(files, FileBefore) && Holds(entries, files, n)
    requires Split(files[n].path) != [] && Insert(entries, Split(files[n].path), files[n].oid).Some?
    ensures Holds(Insert(entries, Split(files[n].path), files[n].oid).value, files, n + 1)
  {
    var cs := Split(files[n].path);
    var next := Insert(entries, cs, files[n].oid).value;
    forall i | 0 <= i < n + 1
      ensures Split(files[i].path) != [] && Find(next, Split(files[i].path)) == Some(files[i].oid)
    {
      InsertFinds(entries, cs, files[n].oid, Split(files[i].path));
      if i < n { NeitherSameNorAbove(files, i, n); }
    }
    forall other: seq<string> | other != [] && Find(next, other).Some?
      ensures exists i :: 0 <= i < n + 1 && Split(files[i].path) == other
    {
      InsertFinds(entries, cs, files[n].oid, other);
      if other != cs {
        var i :| 0 <= i < n && Split(files[i].path) == other;
      }
    }
  }

  lemma {:induction false} NeitherSameNorAbove(files: seq<File>, i: nat, n: nat)
    requires i < n < |files| && Sorting.Ordered(files, FileBefore)
    ensures Split(files[i].path) != Split(files[n].path)
    ensures !Above(Split(files[n].path), Split(files[i].path))
  {
    var p, q := files[i].path, files[n].path;
    assert FileBefore(files[i], files[n]);
    SplitGives(p);
    SplitGives(q);
    TextOrder(p, q, p);
    AboveIsBelow(q, p);
    if StartsBelow(q, p) { AncestorsFirst(q, p); }
  }

  lemma {:induction false} NextInsertion(files: seq<File>, n: nat, entries: seq<Entry>)
    requires n < |files| && Sorting.Ordered(files, FileBefore) && Holds(entries, files, n)
    requires Split(files[n].path) != []
    ensures var next := Insert(entries, Split(files[n].path), files[n].oid);
            && (next.None? <==> exists i :: 0 <= i < n && StartsBelow(files[i].path, files[n].path))
            && (next.Some? ==> Holds(next.value, files, n + 1))
  {
    InsertFailsExactly(entries, Split(files[n].path), files[n].oid);
    BlockedByAncestor(entries, files, n, files[n].path);
    if Insert(entries, Split(files[n].path), files[n].oid).Some? { InsertHolds(entries, files, n); }
  }

  lemma {:induction false} EmptyHolds(files: seq<File>)
    ensures Holds([], files, 0)
  {
    forall cs: seq<string> | cs != [] ensures Find([], cs).None? { FindNothing(cs); }
  }

  /** What is known after n insertions. */
  ghost predicate Inserted(r: Option<seq<Entry>>, files: seq<File>, n: nat)
    requires n <= |files|
  {
    (r.None? <==> SomeCollide(files, n)) && (r.Some? ==> Holds(r.value, files, n))
  }

  lemma {:induction false} InsertedNext(files: seq<File>, n: nat, entries: seq<Entry>)
    requires 0 < n <= |files| && Sorting.Ordered(files, FileBefore)
    requires Inserted(Some(entries), files, n - 1) && Split(files[n - 1].path) != []
    ensures Inserted(Insert(entries, Split(files[n - 1].path), files[n - 1].oid), files, n)
  {
    NextInsertion(files, n - 1, entries);
    CollideNext(files, n);
    var next := Insert(entries, Split(files[n - 1].path), files[n - 1].oid);
    assert next.None? <==> SomeCollide(files, n);
  }

  /** Inserted in order, the paths meet a blob exactly when one of them is below
      another; otherwise the tree holds exactly the files. */
  lemma {:induction false} SortedInsertion(files: seq<File>, n: nat)
    requires n <= |files| && Sorting.Ordered(files, FileBefore)
    ensures Inserted(InsertAll(files, n), files, n)
  {
    if n == 0 {
      EmptyHolds(files);
    } else {
      SortedInsertion(files, n - 1);
      if InsertAll(files, n - 1).Some? {
        var entries := InsertAll(files, n - 1).value;
        InsertAllNext(files, n, entries);
        InsertedNext(files, n, entries);
      } else {
        CollideNext(files, n);
      }
    }
  }

  lemma {:induction false} InsertAllNext(files: seq<File>, n: nat, entries: seq<Entry>)
    requires 0 < n <= |files| && InsertAll(files, n - 1) == Some(entries)
    ensures Split(files[n - 1].path) != []
    ensures InsertAll(files, n) == Insert(entries, Split(files[n - 1].path), files[n - 1].oid)
  {
    SplitGives(files[n - 1].path);
  }

  lemma {:induction false} CollideNext(files: seq<File>, n: nat)
    requires 0 < n <= |files| && Sorting.Ordered(files, FileBefore)
    ensures SomeCollide(files, n) <==>
              (SomeCollide(files, n - 1) || exists i :: 0 <= i < n - 1 && StartsBelow(files[i].path, files[n - 1].path))
  {
    if SomeCollide(files, n) {
      var i, j :| 0 <= i < n && 0 <= j < n && StartsBelow(files[i].path, files[j].path);
      AncestorsFirst(files[i].path, files[j].path);
      TextOrder(files[i].path, files[j].path, files[i].path);
      assert i >= j ==> i == j || FileBefore(files[j], files[i]);
    }
  }

  // ---- tree objects ----

  datatype Object = BlobObject(oid: Oid) | TreeObject(items: seq<Item>)

  datatype Item = Item(name: string, content: Object)

  predicate NameBefore(a: Item, b: Item) { TextBefore(a.name, b.name) }

  /** Depth first, the names of every directory in order. */
  function Build(node: Node): Object {
    match node
    case Blob(oid) => BlobObject(oid)
    case Dir(entries) => TreeObject(Sorting.Sort(BuildEach(entries), NameBefore))
  }

  function BuildEach(entries: seq<Entry>): seq<Item> {
    if entries == [] then [] else [Item(entries[0].name, Build(entries[0].node))] + BuildEach(entries[1..])
  }

  datatype Listed = Listed(components: seq<string>, oid: Oid)

  /** The files of a tree object, by components. */
  function Listing(items: seq<Item>): seq<Listed> {
    if items == [] then [] else ListItem(items[0]) + Listing(items[1..])
  }

  function ListItem(item: Item): seq<Listed> {
    match item.content
    case BlobObject(oid) => [Listed([item.name], oid)]
    case TreeObject(items) => Beneath(item.name, Listing(items))
  }

  function Beneath(name: string, listing: seq<Listed>): seq<Listed> {
    if listing == [] then [] else [Listed([name] + listing[0].components, listing[0].oid)] + Beneath(name, listing[1..])
  }

  lemma {:induction false} ListedBeneath(name: string, listing: seq<Listed>, x: Listed)
    ensures x in Beneath(name, listing) <==>
              x.components != [] && x.components[0] == name && Listed(x.components[1..], x.oid) in listing
  {
    if listing != [] {
      ListedBeneath(name, listing[1..], x);
      var first := Listed([name] + listing[0].components, listing[0].oid);
      assert first.components[1..] == listing[0].components;
      if x.components != [] && x.components[0] == name {
        assert x.components == [name] + x.components[1..];
      }
      assert x == first
             <==> x.components != [] && x.components[0] == name && Listed(x.components[1..], x.oid) == listing[0];
    }
  }

  lemma {:induction false} ListedSomewhere(items: seq<Item>, x: Listed)
    ensures x in Listing(items) <==> exists i :: 0 <= i < |items| && x in ListItem(items[i])
  {
    if items != [] {
      ListedSomewhere(items[1..], x);
      if x in Listing(items[1..]) {
        var i :| 0 <= i < |items[1..]| && x in ListItem(items[1..][i]);
        assert items[i + 1] == items[1..][i];
      }
      if exists i :: 0 <= i < |items| && x in ListItem(items[i]) {
        var i :| 0 <= i < |items| && x in ListItem(items[i]);
        if i > 0 { assert items[1..][i - 1] == items[i]; }
      }
    }
  }

  /** The order of the items does not change what is listed. */
  lemma {:induction false} ListingPermutes(items: seq<Item>, others: seq<Item>, x: Listed)
    requires multiset(items) == multiset(others)
    ensures x in Listing(items) <==> x in Listing(others)
  {
    ListedSomewhere(items, x);
    ListedSomewhere(others, x);
    forall i | 0 <= i < |items| ensures items[i] in others { assert items[i] in multiset(others); }
    forall i | 0 <= i < |others| ensures others[i] in items { assert others[i] in multiset(items); }
  }

  /** Names occur once in every directory, as keys of a dictionary do. */
  predicate Keyed(entries: seq<Entry>) {
    entries == [] ||
    (&& Lookup(entries[1..], entries[0].name) == None && KeyedNode(entries[0].node) && Keyed(entries[1..]))
  }

  predicate KeyedNode(node: Node) {
    match node
    case Blob(_) => true
    case Dir(entries) => Keyed(entries)
  }

  lemma {:induction false} LookupKeyed(entries: seq<Entry>, name: string)
    requires Keyed(entries) && Lookup(entries, name).Some?
    ensures KeyedNode(Lookup(entries, name).value)
  {
    if entries[0].name != name { LookupKeyed(entries[1..], name); }
  }

  lemma {:induction false} PutKeyed(entries: seq<Entry>, name: string, node: Node)
    requires Keyed(entries) && KeyedNode(node)
    ensures Keyed(Put(entries, name, node))
  {
    if entries != [] && entries[0].name != name {
      PutKeyed(entries[1..], name, node);
      PutLooksUp(entries[1..], name, node, entries[0].name);
      assert Put(entries, name, node)[1..] == Put(entries[1..], name, node);
    } else if entries != [] {
      assert Put(entries, name, node)[1..] == entries[1..];
    }
  }

  lemma {:induction false} InsertKeyed(entries: seq<Entry>, components: seq<string>, oid: Oid)
    requires Keyed(entries) && components != []
    ensures Insert(entries, components, oid).Some? ==> Keyed(Insert(entries, components, oid).value)
    decreases |components|
  {
    var name := components[0];
    if |components| == 1 {
      PutKeyed(entries, name, Blob(oid));
    } else {
      var sub := match Lookup(entries, name) case Some(Dir(inner)) => inner case _ => [];
      if Lookup(entries, name).Some? { LookupKeyed(entries, name); }
      InsertKeyed(sub, components[1..], oid);
      if Insert(entries, components, oid).Some? {
        PutKeyed(entries, name, Dir(Insert(sub, components[1..], oid).value));
      }
    }
  }

  lemma {:induction false} InsertAllKeyed(files: seq<File>, n: nat)
    requires n <= |files|
    ensures InsertAll(files, n).Some? ==> Keyed(InsertAll(files, n).value)
  {
    if n > 0 {
      InsertAllKeyed(files, n - 1);
      SplitGives(files[n - 1].path);
      if InsertAll(files, n - 1).Some? {
        InsertKeyed(InsertAll(files, n - 1).value, Split(files[n - 1].path), files[n - 1].oid);
      }
    }
  }

  /** The objects list what the tree holds, in one directory and below. */
  lemma {:induction false} ListsWhatIsFound(entries: seq<Entry>, x: Listed)
    requires Keyed(entries)
    ensures x in Listing(BuildEach(entries)) <==> x.components != [] && Find(entries, x.components) == Some(x.oid)
    decreases entries
  {
    if entries != [] {
      var first, rest := entries[0], entries[1..];
      var item := Item(first.name, Build(first.node));
      assert Listing(BuildEach(entries)) == ListItem(item) + Listing(BuildEach(rest)) by {
        assert ([item] + BuildEach(rest))[1..] == BuildEach(rest);
      }
      ListsWhatIsFound(rest, x);
      ItemLists(first, x);
      if x.components != [] {
        if x.components[0] == first.name {
          assert Find(rest, x.components) == None;
        } else {
          FindInRest(entries, x.components);
        }
      }
    }
  }

  lemma {:induction false} FindInRest(entries: seq<Entry>, components: seq<string>)
    requires entries != [] && components != [] && components[0] != entries[0].name
    ensures Find(entries, components) == Find(entries[1..], components)
  {
  }

  lemma {:induction false} ItemLists(entry: Entry, x: Listed)
    requires KeyedNode(entry.node)
    ensures x in ListItem(Item(entry.name, Build(entry.node))) <==>
              && x.components != [] && x.components[0] == entry.name
              && match entry.node
                 case Blob(oid) => |x.components| == 1 && x.oid == oid
                 case Dir(sub) => |x.components| > 1 && Find(sub, x.components[1..]) == Some(x.oid)
    decreases entry, 0
  {
    match entry.node
    case Blob(oid) =>
      if x.components != [] && |x.components| == 1 { assert x.components == [x.components[0]]; }
    case Dir(sub) =>
      var items := Sorting.Sort(BuildEach(sub), NameBefore);
      ListedBeneath(entry.name, Listing(items), x);
      if x.components != [] {
        var below := Listed(x.components[1..], x.oid);
        Sorting.SortPermutes(BuildEach(sub), NameBefore);
        ListingPermutes(BuildEach(sub), items, below);
        ListsWhatIsFound(sub, below);
      }
  }

  // ---- the round trip ----

  function FilesMap(files: seq<File>): map<string, Oid> {
    if files == [] then map[] else FilesMap(files[..|files| - 1])[files[|files| - 1].path := files[|files| - 1].oid]
  }

  /** Flattening: every listed file under its joined path. */
  function Flatten(listing: seq<Listed>): map<string, Oid> {
    if listing == [] then map[]
    else Flatten(listing[..|listing| - 1])[JoinPath(listing[|listing| - 1].components) := listing[|listing| - 1].oid]
  }

  lemma {:induction false} FilesMapIs(files: seq<File>, path: string)
    requires DistinctPaths(files)
    ensures path in FilesMap(files) <==> exists i :: 0 <= i < |files| && files[i].path == path
    ensures forall i ::
              0 <= i < |files| && files[i].path == path ==>
                path in FilesMap(files) && FilesMap(files)[path] == files[i].oid
  {
    if files != [] {
      var n := |files| - 1;
      FilesMapIs(files[..n], path);
      forall i | 0 <= i < |files| && files[i].path == path
        ensures path in FilesMap(files) && FilesMap(files)[path] == files[i].oid
      {
        if i < n { assert files[..n][i] == files[i]; assert files[i].path != files[n].path; }
      }
      if path in FilesMap(files[..n]) {
        var i :| 0 <= i < n && files[..n][i].path == path;
        assert files[i].path == path;
      }
    }
  }

  /** A listing that spells each path once, as a map. */
  lemma {:induction false} FlattenIs(listing: seq<Listed>, path: string)
    ensures path in Flatten(listing) <==> exists i :: 0 <= i < |listing| && JoinPath(listing[i].components) == path
    ensures path in Flatten(listing) ==>
              exists i ::
                0 <= i < |listing| && JoinPath(listing[i].components) == path
                && listing[i].oid == Flatten(listing)[path]
  {
    if listing != [] {
      var n := |listing| - 1;
      FlattenIs(listing[..n], path);
      if path in Flatten(listing[..n]) {
        var i :| 0 <= i < n && JoinPath(listing[..n][i].components) == path
                 && listing[..n][i].oid == Flatten(listing[..n])[path];
        assert listing[i] == listing[..n][i];
      }
      if exists i :: 0 <= i < |listing| && JoinPath(listing[i].components) == path {
        var i :| 0 <= i < |listing| && JoinPath(listing[i].components) == path;
        if i < n { assert listing[..n][i] == listing[i]; }
      }
    }
  }

  ghost predicate SamePermutation(files: seq<File>, sorted: seq<File>) {
    multiset(files) == multiset(sorted)
  }

  lemma {:induction false} InBoth(files: seq<File>, sorted: seq<File>, f: File)
    requires SamePermutation(files, sorted)
    ensures f in files <==> f in sorted
  {
    assert f in multiset(files) <==> f in multiset(sorted);
  }

  lemma {:induction false} CollideInBoth(files: seq<File>, sorted: seq<File>)
    requires SamePermutation(files, sorted)
    ensures SomeCollide(files, |files|) <==> SomeCollide(sorted, |sorted|)
  {
    if SomeCollide(files, |files|) {
      var i, j :| 0 <= i < |files| && 0 <= j < |files| && StartsBelow(files[i].path, files[j].path);
      InBoth(files, sorted, files[i]);
      InBoth(files, sorted, files[j]);
      var k :| 0 <= k < |sorted| && sorted[k] == files[i];
      var l :| 0 <= l < |sorted| && sorted[l] == files[j];
    }
    if SomeCollide(sorted, |sorted|) {
      var i, j :| 0 <= i < |sorted| && 0 <= j < |sorted| && StartsBelow(sorted[i].path, sorted[j].path);
      InBoth(files, sorted, sorted[i]);
      InBoth(files, sorted, sorted[j]);
      var k :| 0 <= k < |files| && files[k] == sorted[i];
      var l :| 0 <= l < |files| && files[l] == sorted[j];
    }
  }

  /** Building the nested tree meets a blob where it descends exactly when some path is
      below another. */
  lemma {:induction false} TreeFailsExactly(files: seq<File>)
    requires DistinctPaths(files)
    ensures CreateTree(files).None?
            <==> exists i, j :: 0 <= i < |files| && 0 <= j < |files| && IsAncestor(files[i].path, files[j].path)
  {
    FilesAreOrdered(files);
    var sorted := SortedFiles(files);
    SortedInsertion(sorted, |sorted|);
    CollideInBoth(files, sorted);
    if SomeCollide(files, |files|) {
      var i, j :| 0 <= i < |files| && 0 <= j < |files| && StartsBelow(files[i].path, files[j].path);
      TestsAgree(files[i].path, files[j].path);
    }
    if exists i, j :: 0 <= i < |files| && 0 <= j < |files| && IsAncestor(files[i].path, files[j].path) {
      var i, j :| 0 <= i < |files| && 0 <= j < |files| && IsAncestor(files[i].path, files[j].path);
      TestsAgree(files[i].path, files[j].path);
      assert SomeCollide(files, |files|);
    }
  }

  lemma {:induction false} FoundIsFile(files: seq<File>, entries: seq<Entry>, path: string, cs: seq<string>, oid: Oid)
    requires Sorting.Ordered(files, FileBefore) && Holds(entries, files, |files|)
    requires cs != [] && JoinPath(cs) == path && Find(entries, cs) == Some(oid)
    ensures File(path, oid) in files
  {
    var i :| 0 <= i < |files| && Split(files[i].path) == cs;
    SplitGives(files[i].path);
    assert files[i] == File(path, oid);
  }

  /** For every accepted set of files the tree is built, and flattening the tree objects
      gives back exactly the map from paths to blobs. */
  lemma {:induction false} TreeRoundTrip(files: seq<File>)
    requires DistinctPaths(files) && Accepted(set i | 0 <= i < |files| :: files[i].path)
    ensures CreateTree(files).Some?
    ensures Build(Dir(CreateTree(files).value)).TreeObject?
    ensures Flatten(Listing(Build(Dir(CreateTree(files).value)).items)) == FilesMap(files)
  {
    var paths := set i | 0 <= i < |files| :: files[i].path;
    TreeFailsExactly(files);
    forall i, j | 0 <= i < |files| && 0 <= j < |files| ensures !IsAncestor(files[i].path, files[j].path) {
      assert files[i].path in paths && files[j].path in paths;
    }
    var tree := CreateTree(files).value;
    var flat, all := Flatten(Listing(Build(Dir(tree)).items)), FilesMap(files);
    forall path ensures path in flat <==> path in all
                ensures path in all ==> path in flat && flat[path] == all[path]
    {
      PathRoundTrip(files, tree, path);
    }
  }

  lemma {:induction false} FileIsListed(files: seq<File>, sorted: seq<File>, tree: seq<Entry>, f: File)
    requires SamePermutation(files, sorted) && Holds(tree, sorted, |sorted|) && Keyed(tree) && f in files
    ensures f.path in Flatten(Listing(Build(Dir(tree)).items))
  {
    var listing := Listing(Build(Dir(tree)).items);
    InBoth(files, sorted, f);
    var k :| 0 <= k < |sorted| && sorted[k] == f;
    SplitGives(f.path);
    ListedIffFound(tree, Listed(Split(f.path), f.oid));
    var n :| 0 <= n < |listing| && listing[n] == Listed(Split(f.path), f.oid);
    FlattenIs(listing, f.path);
  }

  lemma {:induction false} ListedIsFile(files: seq<File>, sorted: seq<File>, tree: seq<Entry>, path: string)
    requires SamePermutation(files, sorted) && Sorting.Ordered(sorted, FileBefore)
    requires Holds(tree, sorted, |sorted|) && Keyed(tree)
    requires path in Flatten(Listing(Build(Dir(tree)).items))
    ensures File(path, Flatten(Listing(Build(Dir(tree)).items))[path]) in files
  {
    var listing := Listing(Build(Dir(tree)).items);
    FlattenIs(listing, path);
    var n :| 0 <= n < |listing| && JoinPath(listing[n].components) == path && listing[n].oid == Flatten(listing)[path];
    ListedIffFound(tree, listing[n]);
    FoundIsFile(sorted, tree, path, listing[n].components, listing[n].oid);
    InBoth(files, sorted, File(path, listing[n].oid));
  }

  lemma {:induction false} PathRoundTrip(files: seq<File>, tree: seq<Entry>, path: string)
    requires DistinctPaths(files) && CreateTree(files) == Some(tree)
    ensures var flat, all := Flatten(Listing(Build(Dir(tree)).items)), FilesMap(files);
            && (path in flat <==> path in all)
            && (path in all ==> path in flat && flat[path] == all[path])
  {
    var sorted, listing := SortedFiles(files), Listing(Build(Dir(tree)).items);
    FilesAreOrdered(files);
    SortedInsertion(sorted, |sorted|);
    InsertAllKeyed(sorted, |sorted|);
    FilesMapIs(files, path);
    if path in FilesMap(files) {
      var i :| 0 <= i < |files| && files[i].path == path;
      FileIsListed(files, sorted, tree, files[i]);
    }
    if path in Flatten(listing) {
      ListedIsFile(files, sorted, tree, path);
      var i :| 0 <= i < |files| && files[i] == File(path, Flatten(listing)[path]);
    }
  }

  lemma {:induction false} ListedIffFound(tree: seq<Entry>, x: Listed)
    requires Keyed(tree)
    ensures x in Listing(Build(Dir(tree)).items) <==> x.components != [] && Find(tree, x.components) == Some(x.oid)
  {
    ListsWhatIsFound(tree, x);
    Sorting.SortPermutes(BuildEach(tree), NameBefore);
    ListingPermutes(BuildEach(tree), Sorting.Sort(BuildEach(tree), NameBefore), x);
  }
}
