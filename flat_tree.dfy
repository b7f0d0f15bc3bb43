/** The flat tree of context nodes built by the context-node tree handler
    (getContextNodesTreeHandler.convertToFlatStructure): folders for every
    dot-prefix of the items' paths, numbered first, then one leaf per item
    that finds a parent folder, then the DrillState fix-up. */
module FlatTree {
  import opened Wrappers
  import opened JavaText
  import opened LinkedSets
  import StableSort

  /** One context-node record as the handler reads it: ID, path, label,
      type and value. */
  datatype Item = Item(id: string, path: string, labelText: string, kind: string, value: string)

  /** One row of the flat result.  Folders carry no ID and no value. */
  datatype FlatNode = FlatNode(
    nodeId: nat,
    level: int,
    parentNodeId: Option<nat>,
    drillState: string,
    path: string,
    labelText: string,
    kind: string,
    isFolder: bool,
    itemId: Option<string>,
    value: Option<string>)

  // ---------------------------------------------------------------------
  // Paths

  /** `path.split("\\.")`. */
  function Segments(p: string): seq<string> { Split(p, '.') }

  /** The sort key: `path.split("\\.").length`. */
  function SegCount(p: string): nat { |Segments(p)| }

  /** `Map.get`: the id recorded for a path, if any. */
  function Lookup(ids: map<string, nat>, p: string): (r: Option<nat>)
    ensures r.Some? <==> p in ids
    ensures r.Some? ==> r.value == ids[p]
  {
    if p in ids then Some(ids[p]) else None
  }

  /** The handler's getParentPath: the text before the last dot, when that
      dot is not the first character. */
  function HandlerParentPath(path: string): (r: Option<string>)
    ensures r.Some? <==> LastIndexOf(path, '.') > 0
    ensures r.Some? ==> 0 < |r.value| < |path|
  {
    var lastDot := LastIndexOf(path, '.');
    if lastDot > 0 then Some(path[..lastDot])
    else None
  }

  /** The parent path step 2 computes for a folder of more than one
      segment: everything before the last dot. */
  function FolderParentPath(p: string): string
    requires SegCount(p) > 1
  {
    if '.' !in p then assert Segments(p) == [p]; "" else p[..LastIndexOf(p, '.')]
  }

  // ---------------------------------------------------------------------
  // Step 1: folder paths

  /** StringBuilder `currentPath` after one more part. */
  function Extend(cur: string, part: string): string {
    (if |cur| > 0 then cur + "." else cur) + part
  }

  /** `currentPath` after the first k parts. */
  function PrefixAt(parts: seq<string>, k: nat): string
    requires k <= |parts|
  {
    if k == 0 then "" else Extend(PrefixAt(parts, k - 1), parts[k - 1])
  }

  /** The values of `currentPath` after each of the first k parts. */
  function PrefixList(parts: seq<string>, k: nat): (r: seq<string>)
    requires k <= |parts|
    ensures |r| == k
    ensures forall j :: 0 <= j < k ==> r[j] == PrefixAt(parts, j + 1)
  {
    if k == 0 then [] else PrefixList(parts, k - 1) + [PrefixAt(parts, k)]
  }

  /** What `parts[0]` and the prefix loop add for one item with this path. */
  function RootPart(parts: seq<string>): seq<string> {
    if |parts| > 0 then [parts[0]] else []
  }

  function ItemFolderPaths(path: string): seq<string> {
    if path == "" then []
    else
      var parts := Segments(path);
      RootPart(parts) + PrefixList(parts, |parts|)
  }

  /** The LinkedHashSet `folderPaths` after step 1 has seen these items. */
  function CollectFolders(items: seq<Item>): seq<string> {
    if items == [] then []
    else AddAll(CollectFolders(items[..|items| - 1]), ItemFolderPaths(items[|items| - 1].path))
  }

  // ---------------------------------------------------------------------
  // Step 2: the stable sort by segment count, then the folder nodes

  /** `Collections.sort(sortedFolderPaths, comparingInt(p -> p.split("\\.").length))`. */
  function SortBySegments(s: seq<string>): seq<string> {
    StableSort.Sort(s, SegCount)
  }

  /** The folder node step 2 builds for path p, numbered id, given the ids
      of the folders already built. */
  function FolderNode(id: nat, p: string, ids: map<string, nat>): FlatNode
    requires SegCount(p) >= 1
  {
    var parts := Segments(p);
    var parent := if |parts| > 1 then Lookup(ids, FolderParentPath(p)) else None;
    FlatNode(id, |parts| - 1, parent, "expanded", p, parts[|parts| - 1], "folder", true, None, None)
  }

  /** `flatNodes` and `pathToNodeId` after step 2 has walked the sorted
      paths.  A path already recorded is skipped. */
  function FolderPass(sorted: seq<string>): (seq<FlatNode>, map<string, nat>)
    requires forall k :: 0 <= k < |sorted| ==> SegCount(sorted[k]) >= 1
  {
    if sorted == [] then ([], map[])
    else
      var prev := FolderPass(sorted[..|sorted| - 1]);
      var p := sorted[|sorted| - 1];
      if p in prev.1 then prev
      else (prev.0 + [FolderNode(|prev.0| + 1, p, prev.1)], prev.1[p := |prev.0| + 1])
  }

  // ---------------------------------------------------------------------
  // Step 3: leaves

  /** The parent an item is placed under: the folder for its own path,
      else the folder for the text before its last dot (when that dot is
      not the first character); None means the item is skipped. */
  function LeafParent(path: string, ids: map<string, nat>): (r: Option<nat>)
    ensures path in ids ==> r == Some(ids[path])
    ensures path !in ids && HandlerParentPath(path).None? ==> r == None
  {
    if path in ids then Some(ids[path])
    else match HandlerParentPath(path)
      case None => None
      case Some(q) => Lookup(ids, q)
  }

  /** The level of the first node carrying this id, or -1. */
  function LevelOf(nodes: seq<FlatNode>, id: nat): int {
    if nodes == [] then -1
    else if nodes[0].nodeId == id then nodes[0].level
    else LevelOf(nodes[1..], id)
  }

  function LeafNode(id: nat, level: int, parent: nat, item: Item): FlatNode {
    FlatNode(id, level, Some(parent), "leaf", item.path, item.labelText, item.kind, false,
             Some(item.id), Some(item.value))
  }

  /** `flatNodes` after step 3 has seen one more item: a leaf numbered
      next, one level below its parent, or nothing. */
  function LeafStep(acc: seq<FlatNode>, item: Item, ids: map<string, nat>): seq<FlatNode> {
    match LeafParent(item.path, ids)
    case None => acc
    case Some(pid) => acc + [LeafNode(|acc| + 1, LevelOf(acc, pid) + 1, pid, item)]
  }

  /** `flatNodes` after step 3 has walked these items, starting from the
      folder nodes. */
  function LeafPass(items: seq<Item>, folders: seq<FlatNode>, ids: map<string, nat>): seq<FlatNode> {
    if items == [] then folders
    else LeafStep(LeafPass(items[..|items| - 1], folders, ids), items[|items| - 1], ids)
  }

  // ---------------------------------------------------------------------
  // Step 4: DrillState

  /** Some node names this id as its ParentNodeID. */
  predicate HasChild(nodes: seq<FlatNode>, id: nat) {
    exists k :: 0 <= k < |nodes| && ParentIdAt(nodes, k) == Some(id)
  }

  /** Whether a node has children depends only on the ParentNodeIDs. */
  lemma SameParentsSameChildren(a: seq<FlatNode>, b: seq<FlatNode>, id: nat)
    requires |a| == |b| && forall j :: 0 <= j < |a| ==> a[j].parentNodeId == b[j].parentNodeId
    ensures HasChild(a, id) <==> HasChild(b, id)
  {
    if HasChild(a, id) {
      var k :| 0 <= k < |a| && ParentIdAt(a, k) == Some(id);
      assert ParentIdAt(b, k) == Some(id);
    }
    if HasChild(b, id) {
      var k :| 0 <= k < |b| && ParentIdAt(b, k) == Some(id);
      assert ParentIdAt(a, k) == Some(id);
    }
  }

  /** The ParentNodeID of row k. */
  function ParentIdAt(nodes: seq<FlatNode>, k: nat): Option<nat>
    requires k < |nodes|
  {
    nodes[k].parentNodeId
  }

  function Drilled(nodes: seq<FlatNode>, i: nat): FlatNode
    requires i < |nodes|
  {
    if nodes[i].isFolder && !HasChild(nodes, nodes[i].nodeId) then nodes[i].(drillState := "leaf")
    else nodes[i]
  }

  function MarkDrill(nodes: seq<FlatNode>): (r: seq<FlatNode>)
    ensures |r| == |nodes|
  {
    seq(|nodes|, i requires 0 <= i < |nodes| => Drilled(nodes, i))
  }

  // ---------------------------------------------------------------------
  // The whole conversion

  /** Every folder path has at least one segment, so `parts[parts.length - 1]`
      in step 2 never fails. */
  predicate AllSegmented(ps: seq<string>) {
    forall k {:trigger SegCount(ps[k])} :: 0 <= k < |ps| ==> SegCount(ps[k]) >= 1
  }

  lemma SortedSegmented(items: seq<Item>)
    ensures AllSegmented(SortBySegments(CollectFolders(items)))
  {
    var f := CollectFolders(items);
    CollectedSegmented(items);
    StableSort.SortMembers(f, SegCount);
    var s := SortBySegments(f);
    forall k | 0 <= k < |s| ensures SegCount(s[k]) >= 1 {
      assert s[k] in f;
    }
  }

  function FolderStage(items: seq<Item>): (seq<FlatNode>, map<string, nat>) {
    SortedSegmented(items);
    FolderPass(SortBySegments(CollectFolders(items)))
  }

  /** The list convertToFlatStructure returns. */
  function FlatStructure(items: seq<Item>): seq<FlatNode> {
    var stage := FolderStage(items);
    MarkDrill(LeafPass(items, stage.0, stage.1))
  }

  // ---------------------------------------------------------------------
  // Segment counts of folder paths

  predicate HasNonDot(p: string) { exists i :: 0 <= i < |p| && p[i] != '.' }

  lemma SplitNonEmpty(p: string)
    requires p == [] || HasNonDot(p)
    ensures SegCount(p) >= 1
  {
    if p != [] {
      var i :| 0 <= i < |p| && p[i] != '.';
      assert HasOther(p, '.');
    }
    SplitHasPiece(p, '.');
  }

  lemma {:induction false} PrefixShape(parts: seq<string>, k: nat)
    requires k <= |parts|
    requires forall j :: 0 <= j < |parts| ==> '.' !in parts[j]
    ensures PrefixAt(parts, k) == [] || HasNonDot(PrefixAt(parts, k))
  {
    if k > 0 {
      PrefixShape(parts, k - 1);
      var c := PrefixAt(parts, k - 1);
      var r := PrefixAt(parts, k);
      if |c| > 0 {
        var i :| 0 <= i < |c| && c[i] != '.';
        assert r[i] == c[i];
      } else if r != [] {
        assert r == parts[k - 1];
        assert r[0] in parts[k - 1];
      }
    }
  }

  /** Each folder path of an item is empty or has a character other than
      a dot. */
  lemma ItemFolderHasNonDot(path: string, k: nat)
    requires k < |ItemFolderPaths(path)|
    ensures ItemFolderPaths(path)[k] == [] || HasNonDot(ItemFolderPaths(path)[k])
  {
    var parts := Segments(path);
    var xs := ItemFolderPaths(path);
    assert xs == RootPart(parts) + PrefixList(parts, |parts|);
    var x := xs[k];
    if k == 0 {
      assert x == parts[0];
      if x != [] {
        assert x[0] in parts[0];
      }
    } else {
      assert x == PrefixAt(parts, k);
      PrefixShape(parts, k);
    }
  }

  lemma ItemFoldersSegmented(path: string)
    ensures forall k :: 0 <= k < |ItemFolderPaths(path)| ==> SegCount(ItemFolderPaths(path)[k]) >= 1
  {
    var xs := ItemFolderPaths(path);
    forall k | 0 <= k < |xs| ensures SegCount(xs[k]) >= 1 {
      ItemFolderHasNonDot(path, k);
      SplitNonEmpty(xs[k]);
    }
  }

  lemma {:induction false} CollectedSegmented(items: seq<Item>)
    ensures AllSegmented(CollectFolders(items))
  {
    if items != [] {
      var prev := items[..|items| - 1];
      var xs := ItemFolderPaths(items[|items| - 1].path);
      CollectedSegmented(prev);
      ItemFoldersSegmented(items[|items| - 1].path);
      AddAllMembers(CollectFolders(prev), xs);
      var f := CollectFolders(items);
      forall k | 0 <= k < |f| ensures SegCount(f[k]) >= 1 {
        assert f[k] in CollectFolders(prev) || f[k] in xs;
      }
    }
  }

  // ---------------------------------------------------------------------
  // The handler method

  /** The inner loop of step 3: the level of the first node with this id,
      or -1 when there is none. */
  method FindParentLevel(nodes: seq<FlatNode>, id: nat) returns (level: int)
    ensures level == LevelOf(nodes, id)
    ensures (forall k :: 0 <= k < |nodes| ==> nodes[k].nodeId != id) ==> level == -1
    ensures forall k :: (0 <= k < |nodes| && nodes[k].nodeId == id
              && forall j :: 0 <= j < k ==> nodes[j].nodeId != id) ==> level == nodes[k].level
  {
    level := -1;
    var i := 0;
    while i < |nodes|
      invariant 0 <= i <= |nodes|
      invariant forall j :: 0 <= j < i ==> nodes[j].nodeId != id
      invariant LevelOf(nodes, id) == LevelOf(nodes[i..], id)
    {
      if nodes[i].nodeId == id {
        level := nodes[i].level;
        return;
      }
      assert nodes[i..][1..] == nodes[i + 1..];
      i := i + 1;
    }
  }

  lemma CollectStep(items: seq<Item>, i: nat)
    requires i < |items|
    ensures CollectFolders(items[..i + 1]) == AddAll(CollectFolders(items[..i]), ItemFolderPaths(items[i].path))
  {
    assert items[..i + 1][..i] == items[..i];
  }

  lemma ItemFoldersSplit(path: string)
    requires path != ""
    ensures ItemFolderPaths(path) == RootPart(Segments(path)) + PrefixList(Segments(path), |Segments(path)|)
  {
  }

  lemma PrefixStep(parts: seq<string>, j: nat)
    requires j < |parts|
    ensures PrefixAt(parts, j + 1) == Extend(PrefixAt(parts, j), parts[j])
    ensures PrefixList(parts, j + 1) == PrefixList(parts, j) + [PrefixAt(parts, j + 1)]
  {
  }

  /** The prefix loop of step 1: every value of `currentPath` (a dot,
      unless it is empty, then the next part) added to the LinkedHashSet. */
  method AddPrefixes(folderPaths: seq<string>, parts: seq<string>) returns (r: seq<string>)
    ensures r == AddAll(folderPaths, PrefixList(parts, |parts|))
  {
    r := folderPaths;
    var currentPath := "";
    var j := 0;
    while j < |parts|
      invariant 0 <= j <= |parts|
      invariant currentPath == PrefixAt(parts, j)
      invariant r == AddAll(folderPaths, PrefixList(parts, j))
    {
      PrefixStep(parts, j);
      currentPath := Extend(currentPath, parts[j]);
      r := AddUnique(r, currentPath);
      AddAllSnoc(folderPaths, PrefixList(parts, j), currentPath);
      j := j + 1;
    }
  }

  /** The body of step 1 for one item: its first part, then the prefix
      loop. */
  method AddPathFolders(folderPaths: seq<string>, path: string) returns (r: seq<string>)
    ensures r == AddAll(folderPaths, ItemFolderPaths(path))
  {
    r := folderPaths;
    if path != "" {
      var parts := Segments(path);
      if |parts| > 0 {
        r := AddUnique(r, parts[0]);
        AddAllSnoc(folderPaths, [], parts[0]);
      }
      r := AddPrefixes(r, parts);
      ItemFoldersSplit(path);
      AddAllConcat(folderPaths, RootPart(parts), PrefixList(parts, |parts|));
    }
  }

  /** Step 1: the LinkedHashSet of folder paths, in first-seen order. */
  method CollectFolderPaths(items: seq<Item>) returns (folderPaths: seq<string>)
    ensures folderPaths == CollectFolders(items)
  {
    folderPaths := [];
    var i := 0;
    while i < |items|
      invariant 0 <= i <= |items|
      invariant folderPaths == CollectFolders(items[..i])
    {
      CollectStep(items, i);
      folderPaths := AddPathFolders(folderPaths, items[i].path);
      i := i + 1;
    }
    assert items[..|items|] == items;
  }

  lemma FolderPassStep(sorted: seq<string>, k: nat)
    requires k < |sorted| && AllSegmented(sorted)
    ensures AllSegmented(sorted[..k]) && AllSegmented(sorted[..k + 1])
    ensures var prev := FolderPass(sorted[..k]);
            FolderPass(sorted[..k + 1])
            == if sorted[k] in prev.1 then prev
               else (prev.0 + [FolderNode(|prev.0| + 1, sorted[k], prev.1)], prev.1[sorted[k] := |prev.0| + 1])
  {
    assert sorted[..k + 1][..k] == sorted[..k];
  }

  /** Step 2: one folder node per sorted path, numbered from 1, each
      looking up its parent among the folders already numbered. */
  method BuildFolderNodes(sorted: seq<string>) returns (flatNodes: seq<FlatNode>, pathToNodeId: map<string, nat>)
    requires AllSegmented(sorted)
    ensures (flatNodes, pathToNodeId) == FolderPass(sorted)
  {
    var processed: set<string> := {};
    var nodeId := 1;
    flatNodes, pathToNodeId := [], map[];
    var k := 0;
    while k < |sorted|
      invariant 0 <= k <= |sorted|
      invariant (flatNodes, pathToNodeId) == FolderPass(sorted[..k])
      invariant processed == pathToNodeId.Keys
      invariant nodeId == |flatNodes| + 1
    {
      var folderPath := sorted[k];
      FolderPassStep(sorted, k);
      if folderPath !in processed {
        assert SegCount(folderPath) >= 1;
        var parts := Segments(folderPath);
        var folderName := parts[|parts| - 1];
        var parentNodeId: Option<nat> := None;
        if |parts| > 1 {
          var parentPath := folderPath[..LastIndexOf(folderPath, '.')];
          parentNodeId := Lookup(pathToNodeId, parentPath);
        }
        var level := |parts| - 1;
        var folderNode := FlatNode(nodeId, level, parentNodeId, "expanded", folderPath, folderName,
                                   "folder", true, None, None);
        assert folderNode == FolderNode(nodeId, folderPath, pathToNodeId);
        flatNodes := flatNodes + [folderNode];
        pathToNodeId := pathToNodeId[folderPath := nodeId];
        processed := processed + {folderPath};
        nodeId := nodeId + 1;
      }
      k := k + 1;
    }
    assert sorted[..|sorted|] == sorted;
  }

  /** Step 3: one leaf per item that finds a parent folder, in input order. */
  method AddLeaves(items: seq<Item>, folders: seq<FlatNode>, pathToNodeId: map<string, nat>)
    returns (flatNodes: seq<FlatNode>)
    ensures flatNodes == LeafPass(items, folders, pathToNodeId)
  {
    flatNodes := folders;
    var nodeId := |folders| + 1;
    var k := 0;
    while k < |items|
      invariant 0 <= k <= |items|
      invariant flatNodes == LeafPass(items[..k], folders, pathToNodeId)
      invariant nodeId == |flatNodes| + 1
    {
      var item := items[k];
      assert items[..k + 1][..k] == items[..k];
      var path := item.path;
      var parentNodeId := Lookup(pathToNodeId, path);
      if parentNodeId.None? {
        var lastDotIndex := LastIndexOf(path, '.');
        if lastDotIndex > 0 {
          var parentPath := path[..lastDotIndex];
          parentNodeId := Lookup(pathToNodeId, parentPath);
        }
      }
      if parentNodeId.Some? {
        var parentLevel := FindParentLevel(flatNodes, parentNodeId.value);
        var level := parentLevel + 1;
        var itemNode := FlatNode(nodeId, level, parentNodeId, "leaf", path, item.labelText, item.kind,
                                 false, Some(item.id), Some(item.value));
        flatNodes := flatNodes + [itemNode];
        nodeId := nodeId + 1;
      }
      k := k + 1;
    }
    assert items[..|items|] == items;
  }

  /** Step 4: every folder that no node names as its parent gets
      DrillState "leaf"; nothing else changes. */
  method MarkChildlessFolders(all: seq<FlatNode>) returns (flatNodes: seq<FlatNode>)
    ensures flatNodes == MarkDrill(all)
  {
    flatNodes := all;
    var k := 0;
    while k < |flatNodes|
      invariant 0 <= k <= |flatNodes| == |all|
      invariant forall j :: 0 <= j < k ==> flatNodes[j] == Drilled(all, j)
      invariant forall j :: k <= j < |all| ==> flatNodes[j] == all[j]
      invariant forall j :: 0 <= j < |all| ==>
                  flatNodes[j].parentNodeId == all[j].parentNodeId && flatNodes[j].isFolder == all[j].isFolder
                  && flatNodes[j].nodeId == all[j].nodeId
    {
      if flatNodes[k].isFolder {
        var currentNodeId := flatNodes[k].nodeId;
        var hasChildren := HasChild(flatNodes, currentNodeId);
        SameParentsSameChildren(flatNodes, all, currentNodeId);
        if !hasChildren {
          flatNodes := flatNodes[k := flatNodes[k].(drillState := "leaf")];
        }
      }
      k := k + 1;
    }
  }

  /** convertToFlatStructure: steps 1 to 4 in order. */
  method ConvertToFlatStructure(items: seq<Item>) returns (flatNodes: seq<FlatNode>)
    ensures flatNodes == FlatStructure(items)
  {
    var folderPaths := CollectFolderPaths(items);
    var sorted := SortBySegments(folderPaths);
    SortedSegmented(items);
    var folders, pathToNodeId := BuildFolderNodes(sorted);
    var all := AddLeaves(items, folders, pathToNodeId);
    flatNodes := MarkChildlessFolders(all);
  }
}
