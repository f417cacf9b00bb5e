/**
 * The state the file explorer (src/components/file-explorer.tsx) keeps between
 * renders: the expanded folders, the breadcrumb, the open tabs, the active tab
 * and the file whose content is shown. Each React state variable is a field;
 * each handler is a method that sets the fields its `set…` calls set.
 */
module FileExplorer {
  import opened Wrappers
  import opened Strings
  import opened FileTree

  /** `toggleFolder`'s new set: exactly `id` changes membership. */
  function Toggled(expanded: set<string>, id: string): (r: set<string>)
    ensures id in r <==> id !in expanded
    ensures forall x :: x != id ==> (x in r <==> x in expanded)
  {
    if id in expanded then expanded - {id} else expanded + {id}
  }

  /** Toggling the same folder twice restores the expanded set. */
  lemma ToggleTwice(expanded: set<string>, id: string)
    ensures Toggled(Toggled(expanded, id), id) == expanded
  {
  }

  /** Some node of the list has that path (`nodes.some((f) => f.path === path)`). */
  predicate HasPath(nodes: seq<FileNode>, path: string)
  {
    exists i :: 0 <= i < |nodes| && nodes[i].path == path
  }

  /** No two nodes of the list share a path. */
  predicate DistinctPaths(nodes: seq<FileNode>)
  {
    forall i, j :: 0 <= i < j < |nodes| ==> nodes[i].path != nodes[j].path
  }

  /** `nodes.findIndex((f) => f.path === path)`. */
  function IndexOfPath(nodes: seq<FileNode>, path: string): (r: int)
    ensures -1 <= r < |nodes|
    ensures r == -1 <==> !HasPath(nodes, path)
    ensures r >= 0 ==> nodes[r].path == path && forall k :: 0 <= k < r ==> nodes[k].path != path
  {
    if nodes == [] then -1
    else if nodes[0].path == path then 0
    else
      var rest := IndexOfPath(nodes[1..], path);
      assert forall k :: 0 < k < |nodes| ==> nodes[k] == nodes[1..][k - 1];
      if rest == -1 then -1 else rest + 1
  }

  /** `nodes.find((f) => f.path === path)`: the first node with that path, if any. */
  function FindByPath(nodes: seq<FileNode>, path: string): (r: Option<FileNode>)
    ensures r.None? <==> !HasPath(nodes, path)
    ensures r.Some? ==> r.value.path == path && r.value == nodes[IndexOfPath(nodes, path)]
  {
    var i := IndexOfPath(nodes, path);
    if i < 0 then None else Some(nodes[i])
  }

  lemma HasPathCons(x: FileNode, rest: seq<FileNode>, p: string)
    ensures HasPath([x] + rest, p) <==> x.path == p || HasPath(rest, p)
  {
    var r := [x] + rest;
    if x.path == p {
      assert r[0].path == p;
    }
    if HasPath(r, p) && x.path != p {
      var i :| 0 <= i < |r| && r[i].path == p;
      assert rest[i - 1].path == p;
    }
    if HasPath(rest, p) {
      var i :| 0 <= i < |rest| && rest[i].path == p;
      assert r[i + 1].path == p;
    }
  }

  /** `nodes.filter((f) => f.path !== path)`. */
  function WithoutPath(nodes: seq<FileNode>, path: string): (r: seq<FileNode>)
    ensures forall x :: x in r <==> x in nodes && x.path != path
    ensures |r| <= |nodes|
  {
    if nodes == [] then []
    else
      var rest := WithoutPath(nodes[1..], path);
      assert nodes == [nodes[0]] + nodes[1..];
      if nodes[0].path == path then rest else [nodes[0]] + rest
  }

  /** After closing, exactly the other paths are still open. */
  lemma {:induction false} WithoutPathPaths(nodes: seq<FileNode>, path: string, p: string)
    ensures HasPath(WithoutPath(nodes, path), p) <==> HasPath(nodes, p) && p != path
  {
    if nodes != [] {
      WithoutPathPaths(nodes[1..], path, p);
      assert nodes == [nodes[0]] + nodes[1..];
      HasPathCons(nodes[0], nodes[1..], p);
      HasPathCons(nodes[0], WithoutPath(nodes[1..], path), p);
    }
  }

  /** Closing a path that is not open changes nothing. */
  lemma {:induction false} WithoutAbsentPath(nodes: seq<FileNode>, path: string)
    requires !HasPath(nodes, path)
    ensures WithoutPath(nodes, path) == nodes
  {
    if nodes != [] {
      assert nodes == [nodes[0]] + nodes[1..];
      HasPathCons(nodes[0], nodes[1..], path);
      WithoutAbsentPath(nodes[1..], path);
    }
  }

  /** A list is path-distinct iff its tail is and the head's path is not in the tail. */
  lemma DistinctPathsCons(x: FileNode, rest: seq<FileNode>)
    ensures DistinctPaths([x] + rest) <==> !HasPath(rest, x.path) && DistinctPaths(rest)
  {
    var r := [x] + rest;
    if DistinctPaths(r) {
      forall i | 0 <= i < |rest| ensures rest[i].path != x.path {
        assert r[0] == x && r[i + 1] == rest[i];
        assert r[0].path != r[i + 1].path;
      }
      forall i, j | 0 <= i < j < |rest| ensures rest[i].path != rest[j].path {
        assert r[i + 1] == rest[i] && r[j + 1] == rest[j];
      }
    }
    if !HasPath(rest, x.path) && DistinctPaths(rest) {
      forall i, j | 0 <= i < j < |r| ensures r[i].path != r[j].path {
        assert r[j] == rest[j - 1];
        if i > 0 {
          assert r[i] == rest[i - 1];
        }
      }
    }
  }

  /** Closing keeps the open paths distinct. */
  lemma {:induction false} WithoutPathDistinct(nodes: seq<FileNode>, path: string)
    requires DistinctPaths(nodes)
    ensures DistinctPaths(WithoutPath(nodes, path))
  {
    if nodes != [] {
      assert nodes == [nodes[0]] + nodes[1..];
      DistinctPathsCons(nodes[0], nodes[1..]);
      WithoutPathDistinct(nodes[1..], path);
      if nodes[0].path != path {
        WithoutPathPaths(nodes[1..], path, nodes[0].path);
        DistinctPathsCons(nodes[0], WithoutPath(nodes[1..], path));
      }
    }
  }

  /** Closing a tab twice is the same as closing it once. */
  lemma CloseTwice(nodes: seq<FileNode>, path: string)
    ensures WithoutPath(WithoutPath(nodes, path), path) == WithoutPath(nodes, path)
  {
    WithoutPathPaths(nodes, path, path);
    WithoutAbsentPath(WithoutPath(nodes, path), path);
  }

  class Explorer {
    /** The flat `files` prop. */
    const files: seq<FileNode>
    var expandedFolders: set<string>
    var currentPath: seq<string>
    var selectedFileContent: Option<FileNode>
    var openFiles: seq<FileNode>
    var activeFileTab: string

    /**
     * The tab state stays consistent: each path is open at most once, and either
     * no tab is active and nothing is shown, or the shown file is the open file
     * of the active path.
     */
    ghost predicate Valid()
      reads this
    {
      && DistinctPaths(openFiles)
      && ((activeFileTab == "" && selectedFileContent == None) ||
          (selectedFileContent.Some? && selectedFileContent.value.path == activeFileTab &&
           HasPath(openFiles, activeFileTab)))
    }

    /** The initial state of the `useState` hooks. */
    constructor(files: seq<FileNode>)
      ensures this.files == files
      ensures expandedFolders == {} && currentPath == [""]
      ensures selectedFileContent == None && openFiles == [] && activeFileTab == ""
      ensures Valid()
    {
      this.files := files;
      expandedFolders := {};
      currentPath := [""];
      selectedFileContent := None;
      openFiles := [];
      activeFileTab := "";
    }

    /** `toggleFolder(folder)`. */
    method ToggleFolder(folder: FileNode)
      modifies this
      requires Valid()
      ensures expandedFolders == Toggled(old(expandedFolders), folder.id)
      ensures currentPath == old(currentPath) && openFiles == old(openFiles)
      ensures activeFileTab == old(activeFileTab) && selectedFileContent == old(selectedFileContent)
      ensures Valid()
    {
      var newExpanded := expandedFolders;
      if folder.id in newExpanded {
        newExpanded := newExpanded - {folder.id};
      } else {
        newExpanded := newExpanded + {folder.id};
      }
      expandedFolders := newExpanded;
    }

    /**
     * `handleFileClick(file)`: a folder toggles and becomes the breadcrumb; a file
     * is replaced by the flat entry with its path when there is one, opened in a
     * new tab unless its path is open already, and made the active tab.
     */
    method HandleFileClick(file: FileNode)
      modifies this
      requires Valid()
      ensures file.Folder? ==>
                && expandedFolders == Toggled(old(expandedFolders), file.id)
                && currentPath == [""] + Segments(file.path)
                && openFiles == old(openFiles) && activeFileTab == old(activeFileTab)
                && selectedFileContent == old(selectedFileContent)
      ensures file.FileLeaf? ==>
                var original := FindByPath(files, file.path).GetOr(file);
                && original.path == file.path
                && expandedFolders == old(expandedFolders) && currentPath == old(currentPath)
                && openFiles == (if HasPath(old(openFiles), original.path) then old(openFiles)
                                 else old(openFiles) + [original])
                && activeFileTab == file.path
                && selectedFileContent == Some(original)
      ensures Valid()
    {
      if file.Folder? {
        ToggleFolder(file);
        var pathSegments := Segments(file.path);
        currentPath := [""] + pathSegments;
      } else {
        var found := FindByPath(files, file.path);
        var originalFile := if found.Some? then found.value else file;
        if !HasPath(openFiles, originalFile.path) {
          assert (openFiles + [originalFile])[|openFiles|].path == originalFile.path;
          openFiles := openFiles + [originalFile];
        }
        activeFileTab := originalFile.path;
        selectedFileContent := Some(originalFile);
      }
    }

    /**
     * `handleFileRemove(filePath)`: every tab with that path closes; when it was
     * the active one, the last remaining tab becomes active, or none when no tab
     * remains.
     */
    method HandleFileRemove(filePath: string)
      modifies this
      requires Valid()
      ensures openFiles == WithoutPath(old(openFiles), filePath)
      ensures expandedFolders == old(expandedFolders) && currentPath == old(currentPath)
      ensures old(activeFileTab) != filePath ==>
                activeFileTab == old(activeFileTab) && selectedFileContent == old(selectedFileContent)
      ensures old(activeFileTab) == filePath && openFiles != [] ==>
                selectedFileContent == Some(openFiles[|openFiles| - 1]) &&
                activeFileTab == openFiles[|openFiles| - 1].path
      ensures old(activeFileTab) == filePath && openFiles == [] ==>
                activeFileTab == "" && selectedFileContent == None
      ensures Valid()
    {
      var remainingFiles := WithoutPath(openFiles, filePath);
      WithoutPathDistinct(openFiles, filePath);
      WithoutPathPaths(openFiles, filePath, activeFileTab);
      openFiles := remainingFiles;
      if activeFileTab == filePath {
        if |remainingFiles| > 0 {
          var newActiveFile := remainingFiles[|remainingFiles| - 1];
          activeFileTab := newActiveFile.path;
          selectedFileContent := Some(newActiveFile);
        } else {
          activeFileTab := "";
          selectedFileContent := None;
        }
      }
    }

    /** `handleTabChange(filePath)`: switches to the open tab with that path, and does nothing otherwise. */
    method HandleTabChange(filePath: string)
      modifies this
      requires Valid()
      ensures HasPath(old(openFiles), filePath) ==>
                activeFileTab == filePath && selectedFileContent == FindByPath(old(openFiles), filePath)
      ensures !HasPath(old(openFiles), filePath) ==>
                activeFileTab == old(activeFileTab) && selectedFileContent == old(selectedFileContent)
      ensures openFiles == old(openFiles) && expandedFolders == old(expandedFolders) && currentPath == old(currentPath)
      ensures Valid()
    {
      var file := FindByPath(openFiles, filePath);
      if file.Some? {
        activeFileTab := filePath;
        selectedFileContent := file;
      }
    }
  }

  /** Clicking the same folder twice leaves the expanded set as it was. */
  method FolderClickedTwice(e: Explorer, folder: FileNode)
    modifies e
    requires e.Valid() && folder.Folder?
    ensures e.expandedFolders == old(e.expandedFolders)
    ensures e.openFiles == old(e.openFiles) && e.activeFileTab == old(e.activeFileTab)
  {
    e.HandleFileClick(folder);
    e.HandleFileClick(folder);
    ToggleTwice(old(e.expandedFolders), folder.id);
  }

  /** Clicking a file and then closing its tab leaves no tab with its path open. */
  method OpenThenClose(e: Explorer, file: FileNode)
    modifies e
    requires e.Valid() && file.FileLeaf?
    ensures !HasPath(e.openFiles, file.path)
    ensures e.Valid()
  {
    e.HandleFileClick(file);
    e.HandleFileRemove(file.path);
    WithoutPathPaths(old(e.openFiles) + [], file.path, file.path);
  }
}
