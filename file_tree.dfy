/**
 * The folder tree of the file explorer (src/components/file-explorer.tsx):
 * `buildFolderStructure` turns flat slash-separated paths into nodes linked to
 * their parents, `filterFiles` prunes the tree by a search query, and
 * `flattenFiles` lists it in pre-order through the expanded folders.
 */
module FileTree {
  import opened Wrappers
  import opened Strings

  /** A file handed to the explorer; its `size` and `modified` date are display-only. */
  datatype FileItem = FileItem(name: string, path: string, extension: Option<string>)

  /** A node object created by the first pass; its `id` equals its `path`. */
  datatype Entry = Entry(name: string, isFile: bool, path: string, extension: Option<string>)

  /** The `structure` dictionary, and the order in which its entries were created. */
  datatype Table = Table(nodes: map<string, Entry>, order: seq<string>)

  predicate NoDuplicates(s: seq<string>)
  {
    forall i, j :: 0 <= i < j < |s| ==> s[i] != s[j]
  }

  // ---------------------------------------------------------------------------
  // First pass: one node per non-empty path prefix

  /** `pathParts.slice(0, i + 1).join("/")`. */
  function PrefixKey(parts: seq<string>, i: nat): string
    requires i < |parts|
  {
    Join(parts[..i + 1], '/')
  }

  /** The node the first pass creates for segment `i` of file `f`. */
  function EntryFor(f: FileItem, parts: seq<string>, i: nat): Entry
    requires i < |parts|
  {
    var isFile := i == |parts| - 1;
    Entry(parts[i], isFile, PrefixKey(parts, i), if isFile then f.extension else None)
  }

  /** The members every plain object inherits from Object.prototype. */
  const InheritedMembers: set<string> := {
    "constructor", "__defineGetter__", "__defineSetter__", "hasOwnProperty",
    "__lookupGetter__", "__lookupSetter__", "isPrototypeOf", "propertyIsEnumerable",
    "toString", "valueOf", "__proto__", "toLocaleString"}

  /**
   * `structure[currentPath]` is truthy. As written (`asWritten`), the plain-object
   * dictionary also answers for inherited members; as intended, only for created nodes.
   */
  predicate Occupied(t: Table, key: string, asWritten: bool)
  {
    key in t.nodes || (asWritten && key in InheritedMembers)
  }

  /** One step of the inner loop: create the node for segment `i` unless its path is taken. */
  function Visit(t: Table, f: FileItem, parts: seq<string>, i: nat, asWritten: bool): Table
    requires i < |parts|
  {
    var key := PrefixKey(parts, i);
    if Occupied(t, key, asWritten) then t
    else Table(t.nodes[key := EntryFor(f, parts, i)], t.order + [key])
  }

  /** The inner loop after its first `n` segments. */
  function VisitFirst(t: Table, f: FileItem, parts: seq<string>, n: nat, asWritten: bool): Table
    requires n <= |parts|
  {
    if n == 0 then t else Visit(VisitFirst(t, f, parts, n - 1, asWritten), f, parts, n - 1, asWritten)
  }

  function AddFile(t: Table, f: FileItem, asWritten: bool): Table
  {
    var parts := Segments(f.path);
    VisitFirst(t, f, parts, |parts|, asWritten)
  }

  /** The table after the first pass over `files` (a left fold in array order). */
  function FirstPass(files: seq<FileItem>, asWritten: bool): Table
  {
    if files == [] then Table(map[], [])
    else AddFile(FirstPass(files[..|files| - 1], asWritten), files[|files| - 1], asWritten)
  }

  /** The invariant of the table: creation order lists each node once, and a node's path is its key. */
  ghost predicate WellFormed(t: Table)
  {
    && NoDuplicates(t.order)
    && (forall k :: k in t.order ==> k in t.nodes)
    && (forall k :: k in t.nodes ==> k in t.order)
    && (forall k :: k in t.nodes ==> t.nodes[k].path == k)
  }

  lemma VisitFirstWellFormed(t: Table, f: FileItem, parts: seq<string>, n: nat, asWritten: bool)
    requires n <= |parts|
    requires WellFormed(t)
    ensures WellFormed(VisitFirst(t, f, parts, n, asWritten))
  {
    if n > 0 {
      VisitFirstWellFormed(t, f, parts, n - 1, asWritten);
    }
  }

  /** The first pass always produces a well-formed table. */
  lemma {:induction false} FirstPassWellFormed(files: seq<FileItem>, asWritten: bool)
    ensures WellFormed(FirstPass(files, asWritten))
  {
    if files != [] {
      FirstPassWellFormed(files[..|files| - 1], asWritten);
      var f := files[|files| - 1];
      VisitFirstWellFormed(FirstPass(files[..|files| - 1], asWritten), f, Segments(f.path), |Segments(f.path)|, asWritten);
    }
  }

  /** Segment `i` of file `j` has the path `k`. */
  predicate CreatedAt(files: seq<FileItem>, j: int, i: int, k: string)
  {
    0 <= j < |files| && 0 <= i < |Segments(files[j].path)| && PrefixKey(Segments(files[j].path), i) == k
  }

  /** The segments of a prefix path are the segments it was joined from. */
  lemma SegmentsOfPrefixKey(parts: seq<string>, i: nat)
    requires i < |parts|
    requires forall m :: 0 <= m < |parts| ==> parts[m] != "" && '/' !in parts[m]
    ensures Segments(PrefixKey(parts, i)) == parts[..i + 1]
  {
    SegmentsOfJoin(parts[..i + 1]);
  }

  /** Visiting more segments only adds nodes; a created node is never replaced. */
  lemma VisitFirstKeeps(t: Table, f: FileItem, parts: seq<string>, n: nat, asWritten: bool, k: string)
    requires n <= |parts|
    requires k in t.nodes
    ensures k in VisitFirst(t, f, parts, n, asWritten).nodes
    ensures VisitFirst(t, f, parts, n, asWritten).nodes[k] == t.nodes[k]
  {
    if n > 0 {
      VisitFirstKeeps(t, f, parts, n - 1, asWritten, k);
    }
  }

  /** The first pass over one more file is the table of the shorter prefix with that file added. */
  lemma FirstPassStep(files: seq<FileItem>, m: nat, asWritten: bool)
    requires m < |files|
    ensures FirstPass(files[..m + 1], asWritten) == AddFile(FirstPass(files[..m], asWritten), files[m], asWritten)
  {
    assert files[..m + 1][..m] == files[..m];
  }

  /** The first pass over one more file at the end. */
  lemma FirstPassSnoc(files: seq<FileItem>, f: FileItem, asWritten: bool)
    ensures FirstPass(files + [f], asWritten) == AddFile(FirstPass(files, asWritten), f, asWritten)
  {
    assert (files + [f])[..|files|] == files;
  }

  /** A node of the first pass over `a` is still there, unchanged, after more files `b`. */
  lemma {:induction false} FirstPassKeepsAppend(a: seq<FileItem>, b: seq<FileItem>, k: string)
    requires k in FirstPass(a, false).nodes
    ensures k in FirstPass(a + b, false).nodes
    ensures FirstPass(a + b, false).nodes[k] == FirstPass(a, false).nodes[k]
  {
    if b == [] {
      assert a + b == a;
    } else {
      var init := b[..|b| - 1];
      var f := b[|b| - 1];
      assert a + b == (a + init) + [f];
      FirstPassKeepsAppend(a, init, k);
      FirstPassSnoc(a + init, f, false);
      AddFileKeeps(FirstPass(a + init, false), f, k);
    }
  }

  /** Adding a file keeps every node there was. */
  lemma AddFileKeeps(t: Table, f: FileItem, k: string)
    requires k in t.nodes
    ensures k in AddFile(t, f, false).nodes && AddFile(t, f, false).nodes[k] == t.nodes[k]
  {
    VisitFirstKeeps(t, f, Segments(f.path), |Segments(f.path)|, false, k);
  }

  /** Later files never replace or remove a node. */
  lemma FirstPassKeeps(files: seq<FileItem>, m: nat, k: string)
    requires m <= |files|
    requires k in FirstPass(files[..m], false).nodes
    ensures k in FirstPass(files, false).nodes
    ensures FirstPass(files, false).nodes[k] == FirstPass(files[..m], false).nodes[k]
  {
    FirstPassKeepsAppend(files[..m], files[m..], k);
    assert files[..m] + files[m..] == files;
  }

  /** The inner loop's keys: those it started with plus one per visited segment. */
  lemma VisitFirstKeys(t: Table, f: FileItem, parts: seq<string>, n: nat, k: string)
    requires n <= |parts|
    ensures k in VisitFirst(t, f, parts, n, false).nodes <==>
            k in t.nodes || exists i :: 0 <= i < n && PrefixKey(parts, i) == k
  {
    if n > 0 {
      VisitFirstKeys(t, f, parts, n - 1, k);
    }
  }

  /** Every node of the first pass comes from a segment of some input path. */
  lemma {:induction false} FirstPassKeysCreated(files: seq<FileItem>, k: string) returns (j: nat, i: nat)
    requires k in FirstPass(files, false).nodes
    ensures CreatedAt(files, j, i, k)
  {
    var init := files[..|files| - 1];
    var f := files[|files| - 1];
    var parts := Segments(f.path);
    var t := FirstPass(init, false);
    assert FirstPass(files, false) == VisitFirst(t, f, parts, |parts|, false);
    VisitFirstKeys(t, f, parts, |parts|, k);
    if k in t.nodes {
      j, i := FirstPassKeysCreated(init, k);
      assert init[j] == files[j];
    } else {
      i :| 0 <= i < |parts| && PrefixKey(parts, i) == k;
      j := |files| - 1;
    }
  }

  /** Every segment of every input path gets a node. */
  lemma {:induction false} CreatedIsKey(files: seq<FileItem>, j: nat, i: nat, k: string)
    requires CreatedAt(files, j, i, k)
    ensures k in FirstPass(files, false).nodes
  {
    var init := files[..|files| - 1];
    var f := files[|files| - 1];
    var parts := Segments(f.path);
    var t := FirstPass(init, false);
    assert FirstPass(files, false) == VisitFirst(t, f, parts, |parts|, false);
    VisitFirstKeys(t, f, parts, |parts|, k);
    if j < |init| {
      assert init[j] == files[j];
      CreatedIsKey(init, j, i, k);
    } else {
      assert PrefixKey(parts, i) == k;
    }
  }

  /** Exactly the non-empty prefixes of the input paths get nodes. */
  lemma FirstPassKeys(files: seq<FileItem>, k: string)
    ensures k in FirstPass(files, false).nodes <==> exists j, i :: CreatedAt(files, j, i, k)
  {
    if k in FirstPass(files, false).nodes {
      var j, i := FirstPassKeysCreated(files, k);
    }
    if exists j, i :: CreatedAt(files, j, i, k) {
      var j, i :| CreatedAt(files, j, i, k);
      CreatedIsKey(files, j, i, k);
    }
  }

  /** Inside one path, different segments have different prefix paths. */
  lemma PrefixKeysDiffer(parts: seq<string>, i: nat, i': nat)
    requires i < |parts| && i' < |parts| && i != i'
    requires forall m :: 0 <= m < |parts| ==> parts[m] != "" && '/' !in parts[m]
    ensures PrefixKey(parts, i) != PrefixKey(parts, i')
  {
    SegmentsOfPrefixKey(parts, i);
    SegmentsOfPrefixKey(parts, i');
  }

  /** The inner loop creates the node of segment `i` when its path was free before. */
  lemma VisitFirstCreates(t: Table, f: FileItem, parts: seq<string>, n: nat, i: nat)
    requires i < n <= |parts|
    requires forall m :: 0 <= m < |parts| ==> parts[m] != "" && '/' !in parts[m]
    requires PrefixKey(parts, i) !in t.nodes
    ensures PrefixKey(parts, i) in VisitFirst(t, f, parts, n, false).nodes
    ensures VisitFirst(t, f, parts, n, false).nodes[PrefixKey(parts, i)] == EntryFor(f, parts, i)
  {
    var k := PrefixKey(parts, i);
    if n - 1 == i {
      VisitFirstKeys(t, f, parts, i, k);
      forall i' | 0 <= i' < i
        ensures PrefixKey(parts, i') != k
      {
        PrefixKeysDiffer(parts, i, i');
      }
    } else {
      VisitFirstCreates(t, f, parts, n - 1, i);
    }
  }

  /**
   * The first creation of a prefix wins: the node of a path is the one made for
   * the earliest file and segment that produce it.
   */
  lemma FirstCreationWins(files: seq<FileItem>, j: nat, i: nat, k: string)
    requires CreatedAt(files, j, i, k)
    requires forall j', i' :: 0 <= j' < j ==> !CreatedAt(files, j', i', k)
    ensures k in FirstPass(files, false).nodes
    ensures FirstPass(files, false).nodes[k] == EntryFor(files[j], Segments(files[j].path), i)
  {
    var before := files[..j];
    FirstPassStep(files, j, false);
    var f := files[j];
    var parts := Segments(f.path);
    FirstPassKeys(before, k);
    assert forall j', i' :: CreatedAt(before, j', i', k) ==> CreatedAt(files, j', i', k);
    VisitFirstCreates(FirstPass(before, false), f, parts, |parts|, i);
    FirstPassKeeps(files, j + 1, k);
  }

  /** Every node is named after the last segment of its path, which has at least one segment. */
  lemma NodeNamedByLastSegment(files: seq<FileItem>, k: string)
    requires k in FirstPass(files, false).nodes
    ensures |Segments(k)| >= 1
    ensures FirstPass(files, false).nodes[k].name == Last(Segments(k))
    ensures FirstPass(files, false).nodes[k].path == k
  {
    FirstPassKeys(files, k);
    var j, i :| CreatedAt(files, j, i, k);
    var first, i0 := FirstCreator(files, k, j, i);
    var parts := Segments(files[first].path);
    SegmentsOfPrefixKey(parts, i0);
    assert Segments(k) == parts[..i0 + 1];
    assert Last(Segments(k)) == parts[i0];
  }

  /** The earliest file and segment that produce `k`; its node is the one kept. */
  lemma FirstCreator(files: seq<FileItem>, k: string, j: nat, i: nat) returns (first: nat, i0: nat)
    requires CreatedAt(files, j, i, k)
    ensures first <= j && CreatedAt(files, first, i0, k)
    ensures k in FirstPass(files, false).nodes
    ensures FirstPass(files, false).nodes[k] == EntryFor(files[first], Segments(files[first].path), i0)
  {
    if exists j', i' :: 0 <= j' < j && CreatedAt(files, j', i', k) {
      var j', i' :| 0 <= j' < j && CreatedAt(files, j', i', k);
      first, i0 := FirstCreator(files, k, j', i');
    } else {
      FirstCreationWins(files, j, i, k);
      first, i0 := j, i;
    }
  }

  // ---------------------------------------------------------------------------
  // Second pass: link every node to its parent

  /** The parent path the second pass looks up, or None for a root (exactly one segment). */
  function ParentKey(path: string): Option<string>
  {
    var parts := Segments(path);
    if |parts| == 1 then None
    else Some(Join(parts[..if |parts| > 0 then |parts| - 1 else 0], '/'))
  }

  predicate IsRoot(path: string)
  {
    |Segments(path)| == 1
  }

  /** The nodes the second pass pushes onto `result`, in visiting order. */
  function RootsIn(order: seq<string>): seq<string>
  {
    if order == [] then []
    else
      var init := RootsIn(order[..|order| - 1]);
      var k := order[|order| - 1];
      if IsRoot(k) then init + [k] else init
  }

  /** The roots are exactly the visited single-segment paths, each listed once. */
  lemma {:induction false} RootsInMembers(order: seq<string>)
    ensures forall k :: k in RootsIn(order) <==> k in order && IsRoot(k)
    ensures NoDuplicates(order) ==> NoDuplicates(RootsIn(order))
  {
    if order != [] {
      var init := order[..|order| - 1];
      var last := order[|order| - 1];
      assert order == init + [last];
      RootsInMembers(init);
      if NoDuplicates(order) {
        assert NoDuplicates(init) by {
          forall i, j | 0 <= i < j < |init| ensures init[i] != init[j] {
            assert init[i] == order[i] && init[j] == order[j];
          }
        }
        assert last !in init by {
          forall i | 0 <= i < |init| ensures init[i] != last {
            assert init[i] == order[i];
          }
        }
      }
    }
  }

  /** The nodes the second pass pushes onto the children of folder `p`, in visiting order. */
  function ChildrenIn(order: seq<string>, p: string): seq<string>
  {
    if order == [] then []
    else
      var init := ChildrenIn(order[..|order| - 1], p);
      var k := order[|order| - 1];
      if ParentKey(k) == Some(p) then init + [k] else init
  }

  /** A folder's children are exactly the visited paths whose parent is that folder, each listed once. */
  lemma {:induction false} ChildrenInMembers(order: seq<string>, p: string)
    ensures forall k :: k in ChildrenIn(order, p) <==> k in order && ParentKey(k) == Some(p)
    ensures NoDuplicates(order) ==> NoDuplicates(ChildrenIn(order, p))
  {
    if order != [] {
      var init := order[..|order| - 1];
      var last := order[|order| - 1];
      assert order == init + [last];
      ChildrenInMembers(init, p);
      if NoDuplicates(order) {
        assert NoDuplicates(init) by {
          forall i, j | 0 <= i < j < |init| ensures init[i] != init[j] {
            assert init[i] == order[i] && init[j] == order[j];
          }
        }
        assert last !in init by {
          forall i | 0 <= i < |init| ensures init[i] != last {
            assert init[i] == order[i];
          }
        }
      }
    }
  }

  /** The children list of every folder node after visiting `order`. */
  function ChildLists(nodes: map<string, Entry>, order: seq<string>): map<string, seq<string>>
  {
    map p | p in nodes && !nodes[p].isFile :: ChildrenIn(order, p)
  }

  /** One step of the second pass over the children lists. */
  lemma ChildListsStep(nodes: map<string, Entry>, order: seq<string>, j: nat)
    requires j < |order|
    ensures ChildLists(nodes, order[..j + 1]) ==
            (var pk := ParentKey(order[j]);
             if pk.Some? && pk.value in nodes && !nodes[pk.value].isFile
             then ChildLists(nodes, order[..j])[pk.value := ChildLists(nodes, order[..j])[pk.value] + [order[j]]]
             else ChildLists(nodes, order[..j]))
  {
    var pk := ParentKey(order[j]);
    var before := ChildLists(nodes, order[..j]);
    var after := ChildLists(nodes, order[..j + 1]);
    var expected := if pk.Some? && pk.value in nodes && !nodes[pk.value].isFile
                    then before[pk.value := before[pk.value] + [order[j]]] else before;
    assert after.Keys == expected.Keys;
    forall p | p in after
      ensures after[p] == expected[p]
    {
      ChildrenStep(order, j, p);
    }
    assert after == expected;
  }

  /** One step of the second pass over the children list of one folder. */
  lemma ChildrenStep(order: seq<string>, j: nat, p: string)
    requires j < |order|
    ensures ChildrenIn(order[..j + 1], p) ==
            if ParentKey(order[j]) == Some(p) then ChildrenIn(order[..j], p) + [order[j]] else ChildrenIn(order[..j], p)
  {
    assert order[..j + 1][..j] == order[..j];
  }

  lemma RootsStep(order: seq<string>, j: nat)
    requires j < |order|
    ensures RootsIn(order[..j + 1]) == if IsRoot(order[j]) then RootsIn(order[..j]) + [order[j]] else RootsIn(order[..j])
  {
    assert order[..j + 1][..j] == order[..j];
  }

  /** Before the second pass every folder has an empty children list. */
  lemma ChildListsEmpty(nodes: map<string, Entry>, order: seq<string>)
    ensures ChildLists(nodes, order[..0]) == map p | p in nodes && !nodes[p].isFile :: []
  {
    assert order[..0] == [];
  }

  /** The first pass of `buildFolderStructure`: the nested loops that create the nodes. */
  method CreateNodes(flatFiles: seq<FileItem>) returns (structure: map<string, Entry>, order: seq<string>)
    ensures Table(structure, order) == FirstPass(flatFiles, false)
  {
    structure := map[];
    order := [];
    for j := 0 to |flatFiles|
      invariant Table(structure, order) == FirstPass(flatFiles[..j], false)
    {
      var file := flatFiles[j];
      var pathParts := Segments(file.path);
      ghost var start := Table(structure, order);
      for i := 0 to |pathParts|
        invariant Table(structure, order) == VisitFirst(start, file, pathParts, i, false)
      {
        var currentPath := Join(pathParts[..i + 1], '/');
        var isFile := i == |pathParts| - 1;
        if currentPath !in structure {
          structure := structure[currentPath := Entry(pathParts[i], isFile, currentPath,
                                                      if isFile then file.extension else None)];
          order := order + [currentPath];
        }
      }
      FirstPassStep(flatFiles, j, false);
    }
    assert flatFiles[..|flatFiles|] == flatFiles;
  }

  /**
   * The second pass of `buildFolderStructure`: every node, in creation order, is
   * pushed onto `result` when it has one segment, and otherwise onto the
   * children of its parent when that parent exists and is a folder.
   */
  method LinkNodes(t: Table) returns (roots: seq<string>, children: map<string, seq<string>>)
    requires WellFormed(t)
    ensures roots == RootsIn(t.order)
    ensures children == ChildLists(t.nodes, t.order)
  {
    var structure, order := t.nodes, t.order;
    roots := [];
    children := map p | p in structure && !structure[p].isFile :: [];
    ChildListsEmpty(structure, order);
    for j := 0 to |order|
      invariant roots == RootsIn(order[..j])
      invariant children == ChildLists(structure, order[..j])
    {
      var node := structure[order[j]];
      assert node.path == order[j];
      RootsStep(order, j);
      ChildListsStep(structure, order, j);
      var pathParts := Segments(node.path);
      if |pathParts| == 1 {
        roots := roots + [node.path];
      } else {
        var parentPath := Join(pathParts[..if |pathParts| > 0 then |pathParts| - 1 else 0], '/');
        if parentPath in structure && !structure[parentPath].isFile {
          children := children[parentPath := children[parentPath] + [node.path]];
        }
      }
    }
    assert order[..|order|] == order;
  }

  /**
   * `buildFolderStructure(flatFiles)`. The node objects are shared between the
   * dictionary, `result` and the parents' `children` arrays; the model names each
   * node by its id: `nodes` is the dictionary, `roots` the ids in `result`, and
   * `children` the ids in each folder's `children` array.
   */
  method BuildFolderStructure(flatFiles: seq<FileItem>)
    returns (nodes: map<string, Entry>, roots: seq<string>, children: map<string, seq<string>>)
    ensures nodes == FirstPass(flatFiles, false).nodes
    ensures roots == RootsIn(FirstPass(flatFiles, false).order)
    ensures children == ChildLists(nodes, FirstPass(flatFiles, false).order)
  {
    var order;
    nodes, order := CreateNodes(flatFiles);
    FirstPassWellFormed(flatFiles, false);
    roots, children := LinkNodes(Table(nodes, order));
  }

  /** A non-root node's parent path is itself a node: the first pass is closed under prefixes. */
  lemma ParentIsNode(files: seq<FileItem>, k: string)
    requires k in FirstPass(files, false).nodes
    requires ParentKey(k).Some?
    ensures ParentKey(k).value in FirstPass(files, false).nodes
  {
    FirstPassKeys(files, k);
    var j, i :| CreatedAt(files, j, i, k);
    var parts := Segments(files[j].path);
    SegmentsOfPrefixKey(parts, i);
    assert i >= 1;
    assert parts[..i + 1][..i] == parts[..i];
    assert CreatedAt(files, j, i - 1, ParentKey(k).value);
    FirstPassKeys(files, ParentKey(k).value);
  }

  /** The roots are exactly the single-segment nodes, each listed once. */
  lemma RootsAreSingleSegmentNodes(files: seq<FileItem>, k: string)
    ensures var t := FirstPass(files, false);
            NoDuplicates(RootsIn(t.order)) && (k in RootsIn(t.order) <==> k in t.nodes && IsRoot(k))
  {
    FirstPassWellFormed(files, false);
    RootsInMembers(FirstPass(files, false).order);
  }

  /**
   * The children of a folder are exactly the nodes whose parent path is that
   * folder, each listed once, so no node is in two children lists or both a root
   * and a child.
   */
  lemma ChildrenOfFolder(files: seq<FileItem>, p: string, k: string)
    ensures var t := FirstPass(files, false);
            var lists := ChildLists(t.nodes, t.order);
            p in lists ==> NoDuplicates(lists[p]) && (k in lists[p] <==> k in t.nodes && ParentKey(k) == Some(p))
    ensures IsRoot(k) ==> ParentKey(k).None?
  {
    FirstPassWellFormed(files, false);
    ChildrenInMembers(FirstPass(files, false).order, p);
  }

  /**
   * Every node that is not a root is placed under its parent, which always
   * exists, unless that parent is a file, in which case the node is in no list.
   */
  lemma NonRootPlacement(files: seq<FileItem>, k: string)
    requires k in FirstPass(files, false).nodes && !IsRoot(k)
    ensures var t := FirstPass(files, false);
            var lists := ChildLists(t.nodes, t.order);
            && ParentKey(k).Some? && ParentKey(k).value in t.nodes
            && (!t.nodes[ParentKey(k).value].isFile ==> ParentKey(k).value in lists && k in lists[ParentKey(k).value])
            && (t.nodes[ParentKey(k).value].isFile ==> k !in RootsIn(t.order) && forall p :: p in lists ==> k !in lists[p])
  {
    var t := FirstPass(files, false);
    var lists := ChildLists(t.nodes, t.order);
    FirstPassWellFormed(files, false);
    ParentIsNode(files, k);
    RootsInMembers(t.order);
    ChildrenInMembers(t.order, ParentKey(k).value);
    forall p | p in lists
      ensures t.nodes[ParentKey(k).value].isFile ==> k !in lists[p]
    {
      ChildrenInMembers(t.order, p);
    }
  }

  // ---------------------------------------------------------------------------
  // The finding: a path named after an inherited member never gets a node

  /** As written, a file at the path "toString" is missing from the tree; as intended it is a root. */
  lemma InheritedMemberPathIsDropped()
    ensures FirstPass([FileItem("toString", "toString", None)], true).nodes == map[]
    ensures "toString" in FirstPass([FileItem("toString", "toString", None)], false).nodes
  {
    SegmentsOfJoin(["toString"]);
    assert Join(["toString"], '/') == "toString";
    assert Segments("toString") == ["toString"];
    assert PrefixKey(["toString"], 0) == "toString";
    var files := [FileItem("toString", "toString", None)];
    assert files[..0] == [];
  }

  // ---------------------------------------------------------------------------
  // The tree as `filterFiles` and `flattenFiles` see it

  datatype FileNode =
    | FileLeaf(id: string, name: string, path: string, extension: Option<string>)
    | Folder(id: string, name: string, path: string, children: seq<FileNode>)

  /** `node.name.toLowerCase().includes(searchQuery.toLowerCase())`. */
  predicate Matches(name: string, query: string)
  {
    Contains(Lower(name), Lower(query))
  }

  /** `filterFiles(nodes)`: the kept nodes in order, a kept folder carrying its filtered children. */
  function FilterFiles(nodes: seq<FileNode>, query: string): (r: seq<FileNode>)
    ensures |r| <= |nodes|
  {
    if nodes == [] then []
    else FilterNode(nodes[0], query) + FilterFiles(nodes[1..], query)
  }

  /** What the reducer pushes for one node: nothing, the file itself, or the folder with filtered children. */
  function FilterNode(node: FileNode, query: string): (r: seq<FileNode>)
    ensures |r| <= 1
  {
    match node
    case FileLeaf(_, name, _, _) =>
      if Matches(name, query) then [node] else []
    case Folder(id, name, path, children) =>
      var filteredChildren := FilterFiles(children, query);
      if |filteredChildren| > 0 || Matches(name, query) then [Folder(id, name, path, filteredChildren)] else []
  }

  /** `filteredFiles`: the tree itself for an empty query. */
  function FilteredFiles(tree: seq<FileNode>, query: string): (r: seq<FileNode>)
    ensures query == "" ==> r == tree
    ensures |r| <= |tree|
  {
    if query == "" then tree else FilterFiles(tree, query)
  }

  /** The node or something below it matches the query. */
  predicate SomeMatch(node: FileNode, query: string)
  {
    Matches(node.name, query) || (node.Folder? && SomeMatchIn(node.children, query))
  }

  predicate SomeMatchIn(nodes: seq<FileNode>, query: string)
  {
    nodes != [] && (SomeMatch(nodes[0], query) || SomeMatchIn(nodes[1..], query))
  }

  /** A node survives the filter exactly when it or one of its descendants matches. */
  lemma {:induction false} KeptIffSomeMatch(node: FileNode, query: string)
    ensures |FilterNode(node, query)| == 1 <==> SomeMatch(node, query)
  {
    if node.Folder? {
      KeptIffSomeMatchIn(node.children, query);
    }
  }

  lemma {:induction false} KeptIffSomeMatchIn(nodes: seq<FileNode>, query: string)
    ensures |FilterFiles(nodes, query)| > 0 <==> SomeMatchIn(nodes, query)
  {
    if nodes != [] {
      KeptIffSomeMatch(nodes[0], query);
      KeptIffSomeMatchIn(nodes[1..], query);
    }
  }

  /** Every string contains the empty string. */
  lemma ContainsEmpty(s: string)
    ensures Contains(s, "")
  {
    assert OccursAt(s, "", 0);
  }

  /** With an empty query nothing is removed, so the early return changes nothing. */
  lemma {:induction false} FilterEmptyQuery(nodes: seq<FileNode>)
    ensures FilterFiles(nodes, "") == nodes
  {
    if nodes != [] {
      FilterNodeEmptyQuery(nodes[0]);
      FilterEmptyQuery(nodes[1..]);
      assert [nodes[0]] + nodes[1..] == nodes;
    }
  }

  lemma {:induction false} FilterNodeEmptyQuery(node: FileNode)
    ensures FilterNode(node, "") == [node]
  {
    ContainsEmpty(Lower(node.name));
    assert Lower("") == "";
    if node.Folder? {
      FilterEmptyQuery(node.children);
    }
  }

  /** Filtering an already filtered tree by the same query changes nothing. */
  lemma {:induction false} FilterIdempotent(nodes: seq<FileNode>, query: string)
    ensures FilterFiles(FilterFiles(nodes, query), query) == FilterFiles(nodes, query)
  {
    if nodes != [] {
      FilterNodeIdempotent(nodes[0], query);
      FilterIdempotent(nodes[1..], query);
      FilterFilesAppend(FilterNode(nodes[0], query), FilterFiles(nodes[1..], query), query);
    }
  }

  lemma {:induction false} FilterNodeIdempotent(node: FileNode, query: string)
    ensures FilterFiles(FilterNode(node, query), query) == FilterNode(node, query)
  {
    var r := FilterNode(node, query);
    if r != [] {
      assert r[1..] == [];
      if node.Folder? {
        FilterIdempotent(node.children, query);
      }
      assert FilterNode(r[0], query) == r;
    }
  }

  lemma {:induction false} FilterFilesAppend(a: seq<FileNode>, b: seq<FileNode>, query: string)
    ensures FilterFiles(a + b, query) == FilterFiles(a, query) + FilterFiles(b, query)
  {
    if a != [] {
      FilterFilesAppend(a[1..], b, query);
      assert (a + b)[1..] == a[1..] + b;
    } else {
      assert a + b == b;
    }
  }

  /** The files of a tree in pre-order. */
  function FilesIn(nodes: seq<FileNode>): seq<FileNode>
  {
    if nodes == [] then []
    else
      (match nodes[0]
       case FileLeaf(_, _, _, _) => [nodes[0]]
       case Folder(_, _, _, children) => FilesIn(children))
      + FilesIn(nodes[1..])
  }

  /** The files whose names match, in order. */
  function MatchingFiles(files: seq<FileNode>, query: string): seq<FileNode>
  {
    if files == [] then []
    else (if Matches(files[0].name, query) then [files[0]] else []) + MatchingFiles(files[1..], query)
  }

  lemma {:induction false} FilesInAppend(a: seq<FileNode>, b: seq<FileNode>)
    ensures FilesIn(a + b) == FilesIn(a) + FilesIn(b)
  {
    if a != [] {
      FilesInAppend(a[1..], b);
      assert (a + b)[1..] == a[1..] + b;
    } else {
      assert a + b == b;
    }
  }

  lemma {:induction false} MatchingFilesAppend(a: seq<FileNode>, b: seq<FileNode>, query: string)
    ensures MatchingFiles(a + b, query) == MatchingFiles(a, query) + MatchingFiles(b, query)
  {
    if a != [] {
      MatchingFilesAppend(a[1..], b, query);
      assert (a + b)[1..] == a[1..] + b;
    } else {
      assert a + b == b;
    }
  }

  /** The files left in the filtered tree are exactly the matching files of the tree, in order. */
  lemma {:induction false} FilteredFilesAreMatchingFiles(nodes: seq<FileNode>, query: string)
    ensures FilesIn(FilterFiles(nodes, query)) == MatchingFiles(FilesIn(nodes), query)
  {
    if nodes != [] {
      FilteredNodeFiles(nodes[0], query);
      FilteredFilesAreMatchingFiles(nodes[1..], query);
      FilesInAppend(FilterNode(nodes[0], query), FilterFiles(nodes[1..], query));
      FilesInAppend([nodes[0]], nodes[1..]);
      assert [nodes[0]] + nodes[1..] == nodes;
      MatchingFilesAppend(FilesIn([nodes[0]]), FilesIn(nodes[1..]), query);
    }
  }

  lemma {:induction false} FilteredNodeFiles(node: FileNode, query: string)
    ensures FilesIn(FilterNode(node, query)) == MatchingFiles(FilesIn([node]), query)
  {
    assert [node][1..] == [];
    match node
    case FileLeaf(_, _, _, _) =>
      assert FilesIn([node]) == [node];
      assert MatchingFiles([node], query) == (if Matches(node.name, query) then [node] else []) + MatchingFiles([], query);
    case Folder(id, name, path, children) =>
      FilteredFilesAreMatchingFiles(children, query);
      assert FilesIn([node]) == FilesIn(children);
      var fc := FilterFiles(children, query);
      if |fc| > 0 || Matches(name, query) {
        assert FilterNode(node, query) == [Folder(id, name, path, fc)];
        assert [Folder(id, name, path, fc)][1..] == [];
      } else {
        KeptIffSomeMatchIn(children, query);
        NoMatchNoFiles(children, query);
      }
  }

  /** With no match anywhere in a forest there is no matching file in it. */
  lemma {:induction false} NoMatchNoFiles(nodes: seq<FileNode>, query: string)
    requires !SomeMatchIn(nodes, query)
    ensures MatchingFiles(FilesIn(nodes), query) == []
  {
    if nodes != [] {
      NoMatchNoFiles(nodes[1..], query);
      FilesInAppend([nodes[0]], nodes[1..]);
      assert [nodes[0]] + nodes[1..] == nodes;
      assert [nodes[0]][1..] == [];
      MatchingFilesAppend(FilesIn([nodes[0]]), FilesIn(nodes[1..]), query);
      if nodes[0].Folder? {
        NoMatchNoFiles(nodes[0].children, query);
        assert FilesIn([nodes[0]]) == FilesIn(nodes[0].children);
      } else {
        assert FilesIn([nodes[0]]) == [nodes[0]];
        assert MatchingFiles([nodes[0]], query) == [] + MatchingFiles([], query);
      }
    }
  }

  // ---------------------------------------------------------------------------
  // flattenFiles

  /** `flattenFiles(nodes)`: pre-order, descending into a folder only when its id is expanded. */
  function FlattenFiles(nodes: seq<FileNode>, expanded: set<string>): (r: seq<FileNode>)
    ensures |r| >= |nodes|
  {
    if nodes == [] then []
    else
      [nodes[0]]
      + (if nodes[0].Folder? && nodes[0].id in expanded then FlattenFiles(nodes[0].children, expanded) else [])
      + FlattenFiles(nodes[1..], expanded)
  }

  /** Every node of a forest in pre-order. */
  function PreOrder(nodes: seq<FileNode>): seq<FileNode>
  {
    if nodes == [] then []
    else [nodes[0]] + (if nodes[0].Folder? then PreOrder(nodes[0].children) else []) + PreOrder(nodes[1..])
  }

  /** The ids of every folder in a forest. */
  function FolderIds(nodes: seq<FileNode>): set<string>
  {
    if nodes == [] then {}
    else (if nodes[0].Folder? then {nodes[0].id} + FolderIds(nodes[0].children) else {}) + FolderIds(nodes[1..])
  }

  /** With nothing expanded only the top-level nodes are listed. */
  lemma {:induction false} FlattenNothingExpanded(nodes: seq<FileNode>)
    ensures FlattenFiles(nodes, {}) == nodes
  {
    if nodes != [] {
      FlattenNothingExpanded(nodes[1..]);
      assert [nodes[0]] + nodes[1..] == nodes;
    }
  }

  /** With every folder expanded the list is the whole tree in pre-order. */
  lemma {:induction false} FlattenAllExpanded(nodes: seq<FileNode>, expanded: set<string>)
    requires FolderIds(nodes) <= expanded
    ensures FlattenFiles(nodes, expanded) == PreOrder(nodes)
  {
    if nodes != [] {
      FlattenAllExpanded(nodes[1..], expanded);
      if nodes[0].Folder? {
        FlattenAllExpanded(nodes[0].children, expanded);
      }
    }
  }

  /** Every listed node is a node of the tree. */
  lemma {:induction false} FlattenListsTreeNodes(nodes: seq<FileNode>, expanded: set<string>, x: FileNode)
    requires x in FlattenFiles(nodes, expanded)
    ensures x in PreOrder(nodes)
  {
    if nodes != [] {
      if x == nodes[0] {
      } else if nodes[0].Folder? && nodes[0].id in expanded && x in FlattenFiles(nodes[0].children, expanded) {
        FlattenListsTreeNodes(nodes[0].children, expanded, x);
      } else {
        FlattenListsTreeNodes(nodes[1..], expanded, x);
      }
    }
  }
}
