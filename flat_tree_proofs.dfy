/** What convertToFlatStructure guarantees, proved about FlatStructure. */
module FlatTreeProofs {
  import opened Wrappers
  import opened JavaText
  import opened LinkedSets
  import StableSort
  import opened FlatTree

  // ---------------------------------------------------------------------
  // Step 2 on a list without duplicates

  lemma SegmentedPrefix(s: seq<string>, i: nat)
    requires AllSegmented(s) && i <= |s|
    ensures AllSegmented(s[..i])
  {
    assert forall k :: 0 <= k < i ==> s[..i][k] == s[k];
  }

  /** Step 2 numbered every path of s by its position, one node each. */
  ghost predicate NumberedByPosition(pass: (seq<FlatNode>, map<string, nat>), s: seq<string>) {
    && |pass.0| == |s|
    && (forall x :: x in pass.1 <==> x in s)
    && forall j :: 0 <= j < |s| ==> pass.1[s[j]] == j + 1
  }

  /** Numbering one more, new path. */
  lemma NumberedSnoc(pass: (seq<FlatNode>, map<string, nat>), init: seq<string>, p: string,
                     next: (seq<FlatNode>, map<string, nat>))
    requires NumberedByPosition(pass, init) && p !in init
    requires |next.0| == |pass.0| + 1 && next.1 == pass.1[p := |init| + 1]
    ensures NumberedByPosition(next, init + [p])
  {
    var s := init + [p];
    forall x ensures x in next.1 <==> x in s {
      assert x in s <==> x in init || x == p;
    }
    forall j | 0 <= j < |s| ensures next.1[s[j]] == j + 1 {
      if j < |init| {
        assert s[j] == init[j];
      }
    }
  }

  /** A path not yet numbered adds a node and a number. */
  lemma FolderPassNew(s: seq<string>)
    requires AllSegmented(s) && s != []
    requires AllSegmented(s[..|s| - 1]) && s[|s| - 1] !in FolderPass(s[..|s| - 1]).1
    ensures var prev := FolderPass(s[..|s| - 1]);
      && |FolderPass(s).0| == |prev.0| + 1
      && FolderPass(s).1 == prev.1[s[|s| - 1] := |prev.0| + 1]
  {
  }

  /** The numbering survives one more, new path. */
  lemma FolderPassIdsStep(s: seq<string>, init: seq<string>)
    requires AllSegmented(s) && s != [] && init == s[..|s| - 1] && AllSegmented(init)
    requires s == init + [s[|s| - 1]] && s[|s| - 1] !in init
    requires NumberedByPosition(FolderPass(init), init)
    ensures NumberedByPosition(FolderPass(s), s)
  {
    FolderPassNew(s);
    NumberedSnoc(FolderPass(init), init, s[|s| - 1], FolderPass(s));
  }

  lemma {:induction false} FolderPassIds(s: seq<string>)
    requires AllSegmented(s) && Distinct(s)
    ensures NumberedByPosition(FolderPass(s), s)
  {
    if s != [] {
      var n := |s| - 1;
      var init := s[..n];
      assert AllSegmented(init) && Distinct(init) && s == init + [s[n]] && s[n] !in init;
      FolderPassIds(init);
      FolderPassIdsStep(s, init);
    }
  }

  /** With distinct paths, the last path always adds a node. */
  lemma FolderPassLast(s: seq<string>)
    requires AllSegmented(s) && Distinct(s) && s != []
    ensures AllSegmented(s[..|s| - 1])
    ensures FolderPass(s).0 == FolderPass(s[..|s| - 1]).0 + [FolderNode(|s|, s[|s| - 1], FolderPass(s[..|s| - 1]).1)]
  {
    var n := |s| - 1;
    var init := s[..n];
    assert AllSegmented(init);
    var prev := FolderPass(init);
    assert s[n] !in prev.1 && |prev.0| == n by {
      assert Distinct(init);
      FolderPassIds(init);
      assert s[n] !in init;
    }
  }

  lemma {:induction false} FolderPassAt(s: seq<string>, i: nat)
    requires AllSegmented(s) && Distinct(s) && i < |s|
    ensures |FolderPass(s).0| == |s|
    ensures (SegmentedPrefix(s, i);
             FolderPass(s).0[i] == FolderNode(i + 1, s[i], FolderPass(s[..i]).1))
  {
    var n := |s| - 1;
    var init := s[..n];
    assert AllSegmented(init) && Distinct(init);
    FolderPassLast(s);
    assert |FolderPass(init).0| == |init| by {
      FolderPassIds(init);
    }
    if i < n {
      FolderPassAt(init, i);
      FolderPassAtEarlier(s, init, i);
    } else {
      FolderPassAtLast(s, init);
    }
  }

  /** A folder node built before the last path stays where it was. */
  lemma FolderPassAtEarlier(s: seq<string>, init: seq<string>, i: nat)
    requires AllSegmented(s) && s != [] && init == s[..|s| - 1] && AllSegmented(init) && i < |init|
    requires |FolderPass(init).0| == |init|
    requires FolderPass(s).0 == FolderPass(init).0 + [FolderNode(|s|, s[|s| - 1], FolderPass(init).1)]
    requires (SegmentedPrefix(init, i);
              FolderPass(init).0[i] == FolderNode(i + 1, init[i], FolderPass(init[..i]).1))
    ensures |FolderPass(s).0| == |s|
    ensures (SegmentedPrefix(s, i);
             FolderPass(s).0[i] == FolderNode(i + 1, s[i], FolderPass(s[..i]).1))
  {
    assert init[..i] == s[..i] && init[i] == s[i];
  }

  /** The last path's folder node is built from the ids of all the paths
      before it. */
  lemma FolderPassAtLast(s: seq<string>, init: seq<string>)
    requires AllSegmented(s) && s != [] && init == s[..|s| - 1] && AllSegmented(init)
    requires |FolderPass(init).0| == |init|
    requires FolderPass(s).0 == FolderPass(init).0 + [FolderNode(|s|, s[|s| - 1], FolderPass(init).1)]
    ensures |FolderPass(s).0| == |s|
    ensures (SegmentedPrefix(s, |s| - 1);
             FolderPass(s).0[|s| - 1] == FolderNode(|s|, s[|s| - 1], FolderPass(s[..|s| - 1]).1))
  {
  }

  /** The parent id of the folder at position i: the number of the
      earlier folder whose path is its parent path, if there is one. */
  lemma FolderParentId(s: seq<string>, i: nat)
    requires AllSegmented(s) && Distinct(s) && i < |s|
    ensures |FolderPass(s).0| == |s|
    ensures var n := FolderPass(s).0[i];
            && n.nodeId == i + 1 && n.path == s[i] && n.isFolder && n.kind == "folder"
            && n.level == SegCount(s[i]) - 1 && n.drillState == "expanded"
            && n.itemId.None? && n.value.None?
            && (SegCount(s[i]) == 1 ==> n.parentNodeId.None?)
            && (SegCount(s[i]) > 1 ==>
                  (n.parentNodeId.Some? <==> FolderParentPath(s[i]) in s[..i])
                  && forall j :: 0 <= j < i && s[j] == FolderParentPath(s[i]) ==> n.parentNodeId == Some(j + 1))
  {
    FolderPassAt(s, i);
    SegmentedPrefix(s, i);
    assert Distinct(s[..i]);
    FolderPassIds(s[..i]);
    var ids := FolderPass(s[..i]).1;
    forall j | 0 <= j < i
      ensures s[j] in ids && ids[s[j]] == j + 1
    {
      assert s[..i][j] == s[j];
    }
  }

  // ---------------------------------------------------------------------
  // Segment counts along parent paths

  lemma DotFreeSegment(p: string)
    requires '.' !in p
    ensures SegCount(p) == 1
  {
  }

  /** Appending "." and a dot-free tail t to c: the segment count does
      not drop, and grows by exactly one when t is non-empty and c has no
      empty segment. */
  lemma AppendSegment(c: string, t: string)
    requires '.' !in t && (c != "" || t != "")
    ensures SegCount(c) <= SegCount(c + "." + t)
    ensures NoEmptySegment(c, '.') && t != "" ==> SegCount(c + "." + t) == SegCount(c) + 1
  {
    var x := c + "." + t;
    PiecesSnoc(c, t, '.');
    var ps := Pieces(c, '.');
    assert x != [];
    if t != "" {
      assert Segments(x) == ps + [t];
      if NoEmptySegment(c, '.') {
        SplitClean(c, '.');
      }
    } else {
      assert DropTrailingEmpty(ps + [t]) == DropTrailingEmpty(ps);
    }
  }

  /** A folder of more than one segment is its parent path, a dot and a
      dot-free last part, and not both of those are empty. */
  lemma FolderParentShape(p: string)
    requires SegCount(p) > 1
    ensures var q := FolderParentPath(p);
            |q| < |p| && p == q + "." + p[|q| + 1..] && '.' !in p[|q| + 1..]
            && (q != "" || p[|q| + 1..] != "")
  {
    if '.' !in p {
      DotFreeSegment(p);
      assert false;
    }
    assert Pieces(".", '.') == [[], []];
    assert SegCount(".") == 0;
    var r := LastIndexOf(p, '.');
    assert p == p[..r] + "." + p[r + 1..];
  }

  lemma FolderParentOf(c: string, t: string)
    requires '.' !in t && SegCount(c + "." + t) > 1
    ensures FolderParentPath(c + "." + t) == c
  {
    LastIndexOfSnoc(c, t, '.');
    assert (c + "." + t)[|c|] == '.';
  }

  /** A parent folder never has more segments than its child, so the
      stable sort cannot move it after the child. */
  lemma ParentSegCount(p: string)
    requires SegCount(p) > 1
    ensures SegCount(FolderParentPath(p)) <= SegCount(p)
  {
    FolderParentShape(p);
    var q := FolderParentPath(p);
    AppendSegment(q, p[|q| + 1..]);
  }

  // ---------------------------------------------------------------------
  // Parents come first

  predicate HasParentPath(p: string) { SegCount(p) > 1 }

  function ParentOf(p: string): string {
    if SegCount(p) > 1 then FolderParentPath(p) else p
  }

  /** For one item, every folder path of more than one segment is
      preceded by its parent path: `currentPath` grows one part at a time. */
  lemma ItemFoldersParentsEarlier(path: string)
    ensures ParentsEarlier(ItemFolderPaths(path), HasParentPath, ParentOf)
  {
    var l := ItemFolderPaths(path);
    forall i | 0 <= i < |l| && HasParentPath(l[i]) ensures ParentOf(l[i]) in l[..i] {
      ItemFolderParentAt(path, i);
    }
  }

  /** The i-th folder path of an item, when it has a parent, follows the
      (i-1)-th, which is that parent. */
  lemma ItemFolderParentAt(path: string, i: nat)
    requires i < |ItemFolderPaths(path)| && HasParentPath(ItemFolderPaths(path)[i])
    ensures ParentOf(ItemFolderPaths(path)[i]) in ItemFolderPaths(path)[..i]
  {
    var l := ItemFolderPaths(path);
    if i == 0 {
      ItemFolderRoot(path);
      assert false;
    }
    var parts := Segments(path);
    var c := PrefixAt(parts, i - 1);
    ItemFolderAt(path, i);
    if |c| == 0 {
      assert false;
    }
    FolderParentOf(c, parts[i - 1]);
    assert l[..i][i - 1] == c;
  }

  /** An item's first folder path is its first part, a single segment. */
  lemma ItemFolderRoot(path: string)
    requires 0 < |ItemFolderPaths(path)|
    ensures SegCount(ItemFolderPaths(path)[0]) == 1
  {
    var parts := Segments(path);
    assert ItemFolderPaths(path)[0] == parts[0] && '.' !in parts[0];
    DotFreeSegment(parts[0]);
  }

  /** Past the first, an item's i-th folder path extends the (i-1)-th
      prefix by the (i-1)-th part, which holds no dot. */
  lemma ItemFolderAt(path: string, i: nat)
    requires 0 < i < |ItemFolderPaths(path)|
    ensures var parts := Segments(path);
      var l := ItemFolderPaths(path);
      && i <= |parts| && '.' !in parts[i - 1]
      && l[i] == Extend(PrefixAt(parts, i - 1), parts[i - 1])
      && (i >= 2 ==> l[i - 1] == PrefixAt(parts, i - 1))
  {
    var parts := Segments(path);
    assert path != "";
    PrefixesAt(parts, i);
  }

  /** The same layout for any list of parts: the root part, then the
      growing prefixes. */
  lemma PrefixesAt(parts: seq<string>, i: nat)
    requires 0 < i < |RootPart(parts) + PrefixList(parts, |parts|)|
    ensures var l := RootPart(parts) + PrefixList(parts, |parts|);
      && i <= |parts|
      && l[i] == Extend(PrefixAt(parts, i - 1), parts[i - 1])
      && (i >= 2 ==> l[i - 1] == PrefixAt(parts, i - 1))
  {
    var pl := PrefixList(parts, |parts|);
    assert |RootPart(parts)| == 1;
    assert (RootPart(parts) + pl)[i] == pl[i - 1];
    if i >= 2 {
      assert (RootPart(parts) + pl)[i - 1] == pl[i - 2];
    }
  }

  lemma {:induction false} CollectedParentsEarlier(items: seq<Item>)
    ensures ParentsEarlier(CollectFolders(items), HasParentPath, ParentOf)
    ensures Distinct(CollectFolders(items))
  {
    if items != [] {
      var init := items[..|items| - 1];
      CollectedParentsEarlier(init);
      ItemFoldersParentsEarlier(items[|items| - 1].path);
      AddAllParentsEarlier(CollectFolders(init), ItemFolderPaths(items[|items| - 1].path), HasParentPath, ParentOf);
      AddAllDistinct(CollectFolders(init), ItemFolderPaths(items[|items| - 1].path));
    }
  }

  /** After the stable sort every folder is still preceded by its parent,
      and no path appears twice. */
  lemma SortedParentsEarlier(items: seq<Item>)
    ensures Distinct(SortBySegments(CollectFolders(items)))
    ensures ParentsEarlier(SortBySegments(CollectFolders(items)), HasParentPath, ParentOf)
  {
    var f := CollectFolders(items);
    var s := SortBySegments(f);
    CollectedParentsEarlier(items);
    StableSort.SortDistinct(f, SegCount);
    StableSort.SortMembers(f, SegCount);
    forall i | 0 <= i < |s| && HasParentPath(s[i]) ensures ParentOf(s[i]) in s[..i] {
      assert s[i] in f;
      var b :| 0 <= b < |f| && f[b] == s[i];
      var q := ParentOf(s[i]);
      assert q in f[..b];
      var a :| 0 <= a < b && f[a] == q;
      ParentSegCount(s[i]);
      StableSort.SortKeepsBefore(f, SegCount, a, b);
      assert StableSort.Precedes(s, q, s[i]);
      var p, p2 :| 0 <= p < p2 < |s| && s[p] == q && s[p2] == s[i];
      assert p2 == i;
      assert s[..i][p] == q;
    }
  }

  /** A folder path without empty segments has exactly one segment more
      than its parent. */
  lemma CleanParent(p: string)
    requires SegCount(p) > 1 && NoEmptySegment(p, '.')
    ensures NoEmptySegment(FolderParentPath(p), '.')
    ensures SegCount(FolderParentPath(p)) + 1 == SegCount(p)
  {
    FolderParentShape(p);
    var q := FolderParentPath(p);
    var tail := p[|q| + 1..];
    PiecesSnoc(q, tail, '.');
    var ps := Pieces(q, '.');
    assert Pieces(p, '.') == ps + [tail];
    assert forall k :: 0 <= k < |ps| ==> ps[k] == Pieces(p, '.')[k];
    assert tail == Pieces(p, '.')[|ps|];
    AppendSegment(q, tail);
  }

  // ---------------------------------------------------------------------
  // Step 3 on numbered folders

  /** An item step 3 keeps: its own path is a folder, or the text before
      its last dot (when that dot is not the first character) is. */
  predicate Placeable(path: string, folders: seq<string>) {
    path in folders || (HandlerParentPath(path).Some? && HandlerParentPath(path).value in folders)
  }

  /** The items step 3 turns into leaves, in input order. */
  function Placed(items: seq<Item>, folders: seq<string>): (r: seq<Item>)
    ensures |r| <= |items|
    ensures forall k :: 0 <= k < |r| ==> Placeable(r[k].path, folders)
  {
    if items == [] then []
    else
      var item := items[|items| - 1];
      Placed(items[..|items| - 1], folders) + (if Placeable(item.path, folders) then [item] else [])
  }

  /** Exactly the placeable items are placed. */
  lemma {:induction false} PlacedExact(items: seq<Item>, folders: seq<string>)
    ensures forall x :: x in Placed(items, folders) <==> x in items && Placeable(x.path, folders)
  {
    if items != [] {
      var init := items[..|items| - 1];
      PlacedExact(init, folders);
      assert items == init + [items[|items| - 1]];
    }
  }

  lemma {:induction false} LevelOfNumbered(nodes: seq<FlatNode>, base: nat, id: nat)
    requires forall k :: 0 <= k < |nodes| ==> nodes[k].nodeId == base + k
    requires base <= id < base + |nodes|
    ensures LevelOf(nodes, id) == nodes[id - base].level
  {
    if id != base {
      LevelOfNumbered(nodes[1..], base + 1, id);
    }
  }

  lemma LeafParentPlaceable(path: string, ids: map<string, nat>, s: seq<string>)
    requires forall x :: x in ids <==> x in s
    requires forall x :: x in ids ==> 1 <= ids[x] <= |s|
    ensures LeafParent(path, ids).Some? <==> Placeable(path, s)
    ensures LeafParent(path, ids).Some? ==> 1 <= LeafParent(path, ids).value <= |s|
  {
  }

  /** The items that find a parent id in step 3, in input order. */
  function Kept(items: seq<Item>, ids: map<string, nat>): (r: seq<Item>)
    ensures |r| <= |items|
  {
    if items == [] then []
    else
      var item := items[|items| - 1];
      Kept(items[..|items| - 1], ids) + (if LeafParent(item.path, ids).Some? then [item] else [])
  }

  lemma {:induction false} KeptPlaced(items: seq<Item>, ids: map<string, nat>, s: seq<string>)
    requires forall x :: x in ids <==> x in s
    requires forall x :: x in ids ==> 1 <= ids[x] <= |s|
    ensures Kept(items, ids) == Placed(items, s)
  {
    if items != [] {
      KeptPlaced(items[..|items| - 1], ids, s);
      LeafParentPlaceable(items[|items| - 1].path, ids, s);
    }
  }

  /** Every node carries its position plus one as its id. */
  predicate Numbered(nodes: seq<FlatNode>) {
    forall k :: 0 <= k < |nodes| ==> nodes[k].nodeId == k + 1
  }

  predicate IdsWithin(ids: map<string, nat>, n: nat) {
    forall x :: x in ids ==> 1 <= ids[x] <= n
  }

  /** The leaf pass keeps the folders, adds one node per kept item and
      numbers every node by its position. */
  lemma {:induction false} LeafPassNumbers(items: seq<Item>, folders: seq<FlatNode>, ids: map<string, nat>)
    requires Numbered(folders) && IdsWithin(ids, |folders|)
    ensures |LeafPass(items, folders, ids)| == |folders| + |Kept(items, ids)|
    ensures LeafPass(items, folders, ids)[..|folders|] == folders
    ensures Numbered(LeafPass(items, folders, ids))
  {
    if items != [] {
      var init, item := items[..|items| - 1], items[|items| - 1];
      LeafPassNumbers(init, folders, ids);
      var acc := LeafPass(init, folders, ids);
      assert LeafPass(items, folders, ids) == LeafStep(acc, item, ids);
      assert LeafStep(acc, item, ids)[..|acc|] == acc;
    }
  }

  /** One more item in step 3, with the nodes so far numbered by position. */
  lemma LeafStepShape(acc: seq<FlatNode>, item: Item, ids: map<string, nat>)
    requires Numbered(acc)
    ensures LeafParent(item.path, ids).None? ==> LeafStep(acc, item, ids) == acc
    ensures var lp := LeafParent(item.path, ids);
            lp.Some? && 1 <= lp.value <= |acc| ==>
              LeafStep(acc, item, ids) == acc + [LeafNode(|acc| + 1, acc[lp.value - 1].level + 1, lp.value, item)]
  {
    var lp := LeafParent(item.path, ids);
    if lp.Some? && 1 <= lp.value <= |acc| {
      LevelOfNumbered(acc, 1, lp.value);
    }
  }

  /** The id of the folder step 3 places an item under (0 when skipped). */
  function ParentIdOf(item: Item, ids: map<string, nat>): nat {
    match LeafParent(item.path, ids)
    case Some(pid) => pid
    case None => 0
  }

  lemma KeptExtends(items: seq<Item>, ids: map<string, nat>)
    requires items != []
    ensures var p := Kept(items[..|items| - 1], ids);
            |p| <= |Kept(items, ids)| && Kept(items, ids)[..|p|] == p
  {
  }

  lemma LeafStepExtends(acc: seq<FlatNode>, item: Item, ids: map<string, nat>)
    ensures |acc| <= |LeafStep(acc, item, ids)| && LeafStep(acc, item, ids)[..|acc|] == acc
  {
  }

  /** Node |folders| + pos of `all` is the leaf for `item`, one level
      below the folder step 3 finds for it. */
  predicate LeafNodeAt(all: seq<FlatNode>, folders: seq<FlatNode>, item: Item, ids: map<string, nat>, pos: nat) {
    var pid := ParentIdOf(item, ids);
    && LeafParent(item.path, ids) == Some(pid)
    && 1 <= pid <= |folders|
    && |folders| + pos < |all|
    && all[|folders| + pos] == LeafNode(|folders| + pos + 1, folders[pid - 1].level + 1, pid, item)
  }

  /** The k-th kept item becomes the leaf numbered after the folders and
      the k leaves before it, one level below the folder step 3 finds for it. */
  lemma {:induction false} LeafAt(items: seq<Item>, folders: seq<FlatNode>, ids: map<string, nat>, k: nat)
    requires Numbered(folders) && IdsWithin(ids, |folders|)
    requires k < |Kept(items, ids)|
    ensures |LeafPass(items, folders, ids)| == |folders| + |Kept(items, ids)|
    ensures LeafNodeAt(LeafPass(items, folders, ids), folders, Kept(items, ids)[k], ids, k)
  {
    var init := items[..|items| - 1];
    var p := Kept(init, ids);
    var all := LeafPass(items, folders, ids);
    assert |all| == |folders| + |Kept(items, ids)| by {
      LeafPassNumbers(items, folders, ids);
    }
    if k < |p| {
      var acc := LeafPass(init, folders, ids);
      assert LeafNodeAt(acc, folders, p[k], ids, k) by {
        LeafAt(init, folders, ids, k);
      }
      assert Kept(items, ids)[k] == p[k] by {
        KeptExtends(items, ids);
      }
      assert all[|folders| + k] == acc[|folders| + k] by {
        assert all == LeafStep(acc, items[|items| - 1], ids);
        LeafStepExtends(acc, items[|items| - 1], ids);
      }
    } else {
      assert |Kept(items, ids)| <= |p| + 1;
      LeafLast(items, folders, ids);
    }
  }

  /** The last item, when it is kept, becomes the last leaf. */
  lemma LeafLast(items: seq<Item>, folders: seq<FlatNode>, ids: map<string, nat>)
    requires Numbered(folders) && IdsWithin(ids, |folders|)
    requires items != [] && |Kept(items[..|items| - 1], ids)| < |Kept(items, ids)|
    ensures var k := |Kept(items[..|items| - 1], ids)|;
            && Kept(items, ids)[k] == items[|items| - 1]
            && |LeafPass(items, folders, ids)| == |folders| + k + 1
            && LeafNodeAt(LeafPass(items, folders, ids), folders, items[|items| - 1], ids, k)
  {
    var init, item := items[..|items| - 1], items[|items| - 1];
    var acc := LeafPass(init, folders, ids);
    var p := Kept(init, ids);
    assert Kept(items, ids) == p + [item];
    var pid := ParentIdOf(item, ids);
    assert LeafParent(item.path, ids) == Some(pid);
    var leaf := LeafNode(|folders| + |p| + 1, folders[pid - 1].level + 1, pid, item);
    assert |acc| == |folders| + |p| && LeafPass(items, folders, ids) == acc + [leaf] by {
      LeafPassNumbers(init, folders, ids);
      LeafStepShape(acc, item, ids);
      assert acc[pid - 1] == acc[..|folders|][pid - 1];
    }
  }

  // ---------------------------------------------------------------------
  // Which folders there are

  /** `parts[0]` is also the first prefix, so it adds nothing new. */
  lemma RootInPrefixes(parts: seq<string>)
    ensures forall x :: x in RootPart(parts) + PrefixList(parts, |parts|) <==> x in PrefixList(parts, |parts|)
  {
    if |parts| > 0 {
      assert PrefixList(parts, |parts|)[0] == PrefixAt(parts, 1) == parts[0];
    }
  }

  /** The folders one item contributes: the values of `currentPath` after
      each of its segments, that is its dot-prefixes. */
  lemma ItemFolderMembers(path: string)
    ensures forall x :: x in ItemFolderPaths(path) <==>
              path != "" && x in PrefixList(Segments(path), |Segments(path)|)
  {
    RootInPrefixes(Segments(path));
  }

  function ItemFolders(item: Item): seq<string> { ItemFolderPaths(item.path) }

  lemma {:induction false} CollectIsAddEach(items: seq<Item>)
    ensures CollectFolders(items) == AddEach(items, ItemFolders)
  {
    if items != [] {
      CollectIsAddEach(items[..|items| - 1]);
    }
  }

  lemma CollectedMembers(items: seq<Item>)
    ensures forall x :: x in CollectFolders(items) <==>
              exists j :: 0 <= j < |items| && x in ItemFolderPaths(items[j].path)
  {
    CollectIsAddEach(items);
    AddEachMembers(items, ItemFolders);
  }

  /** The folder list: every dot-prefix of every path, once each, sorted
      by segment count, and in first-seen order among equal counts. */
  lemma FolderPathsExact(items: seq<Item>)
    ensures forall x :: x in SortBySegments(CollectFolders(items)) <==>
              exists j :: 0 <= j < |items| && x in ItemFolderPaths(items[j].path)
    ensures Distinct(SortBySegments(CollectFolders(items)))
    ensures StableSort.SortedBy(SortBySegments(CollectFolders(items)), SegCount)
    ensures forall k: nat :: StableSort.WithKey(SortBySegments(CollectFolders(items)), SegCount, k)
                             == StableSort.WithKey(CollectFolders(items), SegCount, k)
  {
    var f := CollectFolders(items);
    CollectedMembers(items);
    StableSort.SortMembers(f, SegCount);
    SortedParentsEarlier(items);
    StableSort.SortSorted(f, SegCount);
    forall k: nat ensures StableSort.WithKey(SortBySegments(f), SegCount, k) == StableSort.WithKey(f, SegCount, k) {
      StableSort.SortStable(f, SegCount, k);
    }
  }

  lemma {:induction false} PrefixJoin(parts: seq<string>, k: nat)
    requires 1 <= k <= |parts|
    requires forall j :: 0 <= j < |parts| ==> parts[j] != []
    ensures PrefixAt(parts, k) != [] && PrefixAt(parts, k) == Join(parts[..k], '.')
  {
    if k > 1 {
      PrefixJoin(parts, k - 1);
      JoinSnoc(parts[..k - 1], parts[k - 1], '.');
      assert parts[..k - 1] + [parts[k - 1]] == parts[..k];
    }
  }

  /** A path without empty segments is itself one of its item's folders,
      so the item is placed under the folder for its own path. */
  lemma CleanOwnFolder(path: string)
    requires NoEmptySegment(path, '.')
    ensures path in ItemFolderPaths(path)
  {
    var ps := Pieces(path, '.');
    assert ps[0] != [];
    SplitClean(path, '.');
    JoinPieces(path, '.');
    PrefixJoin(ps, |ps|);
    assert ps[..|ps|] == ps;
    assert PrefixList(ps, |ps|)[|ps| - 1] == path;
    ItemFolderMembers(path);
  }

  lemma {:induction false} PrefixNonEmpty(parts: seq<string>, k: nat)
    requires 1 <= k <= |parts| && parts[0] != []
    ensures PrefixAt(parts, k) != []
  {
    if k > 1 {
      PrefixNonEmpty(parts, k - 1);
    }
  }

  /** The empty folder path only arises from a path that starts with a dot. */
  lemma EmptyFolderNeedsLeadingDot(path: string)
    requires "" in ItemFolderPaths(path)
    ensures path != "" && path[0] == '.'
  {
    ItemFolderMembers(path);
    var parts := Segments(path);
    var j :| 0 <= j < |parts| && PrefixList(parts, |parts|)[j] == "";
    var k := j + 1;
    var ps := Pieces(path, '.');
    assert parts[0] == ps[0];
    if path[0] != '.' {
      assert ps[0] == [path[0]] + Pieces(path[1..], '.')[0];
      PrefixNonEmpty(parts, k);
      assert false;
    }
  }

  /** x is a dot-prefix of p: a non-empty leading part of p that ends
      where p ends or just before one of p's dots. */
  predicate DotPrefix(x: string, p: string) {
    x != "" && |x| <= |p| && p[..|x|] == x && (|x| == |p| || p[|x|] == '.')
  }

  /** A non-empty text is a dot-prefix of itself followed by a dot and more. */
  lemma DotPrefixBeforeDot(x: string, y: string)
    requires x != ""
    ensures DotPrefix(x, x + ['.'] + y)
  {
    assert (x + ['.'] + y)[..|x|] == x;
  }

  lemma JoinNonEmpty(ps: seq<string>)
    requires |ps| >= 1 && ps[0] != []
    ensures Join(ps, '.') != []
  {
  }

  /** The first k pieces, joined, are a dot-prefix of all of them joined. */
  lemma JoinedPrefixDotPrefix(ps: seq<string>, k: nat)
    requires 1 <= k <= |ps| && ps[0] != []
    ensures DotPrefix(Join(ps[..k], '.'), Join(ps, '.'))
  {
    var x := Join(ps[..k], '.');
    assert x != [] by { JoinNonEmpty(ps[..k]); }
    if k < |ps| {
      assert Join(ps, '.') == x + ['.'] + Join(ps[k..], '.') by {
        JoinAppend(ps[..k], ps[k..], '.');
        assert ps[..k] + ps[k..] == ps;
      }
      DotPrefixBeforeDot(x, Join(ps[k..], '.'));
    } else {
      assert ps[..k] == ps;
    }
  }

  /** Every `currentPath` value over non-empty parts is a dot-prefix of
      the parts joined. */
  lemma PrefixDotPrefix(ps: seq<string>, j: nat)
    requires forall k :: 0 <= k < |ps| ==> ps[k] != []
    requires j < |ps|
    ensures DotPrefix(PrefixAt(ps, j + 1), Join(ps, '.'))
  {
    assert PrefixAt(ps, j + 1) == Join(ps[..j + 1], '.') by { PrefixJoin(ps, j + 1); }
    JoinedPrefixDotPrefix(ps, j + 1);
  }

  /** Each folder a clean path's item adds is a dot-prefix of the path. */
  lemma ItemFolderIsDotPrefix(path: string, x: string)
    requires NoEmptySegment(path, '.') && x in ItemFolderPaths(path)
    ensures DotPrefix(x, path)
  {
    var ps := Pieces(path, '.');
    assert x in PrefixList(ps, |ps|) by {
      SplitClean(path, '.');
      ItemFolderMembers(path);
    }
    var j :| 0 <= j < |ps| && PrefixList(ps, |ps|)[j] == x;
    assert x == PrefixAt(ps, j + 1);
    JoinPieces(path, '.');
    PrefixDotPrefix(ps, j);
  }

  /** Each proper dot-prefix of a clean path is one of its item's folders. */
  lemma DotPrefixIsItemFolder(path: string, x: string)
    requires NoEmptySegment(path, '.') && DotPrefix(x, path) && |x| < |path|
    ensures x in ItemFolderPaths(path)
  {
    var ps := Pieces(path, '.');
    assert path != "";
    assert Segments(path) == ps by { SplitClean(path, '.'); }
    var r := path[|x| + 1..];
    assert path == x + ['.'] + r;
    PiecesAppend(x, r, '.');
    var k := |Pieces(x, '.')|;
    assert ps[..k] == Pieces(x, '.');
    JoinPieces(x, '.');
    PrefixJoin(ps, k);
    assert PrefixList(ps, |ps|)[k - 1] == x;
    ItemFolderMembers(path);
  }

  /** For a path without empty segments, the folders its item adds are
      exactly its dot-prefixes, the whole path included. */
  lemma ItemFoldersAreDotPrefixes(path: string)
    requires NoEmptySegment(path, '.')
    ensures forall x :: x in ItemFolderPaths(path) <==> DotPrefix(x, path)
  {
    forall x | x in ItemFolderPaths(path) ensures DotPrefix(x, path) {
      ItemFolderIsDotPrefix(path, x);
    }
    forall x | DotPrefix(x, path) ensures x in ItemFolderPaths(path) {
      if |x| == |path| {
        assert x == path;
        CleanOwnFolder(path);
      } else {
        DotPrefixIsItemFolder(path, x);
      }
    }
  }

  // ---------------------------------------------------------------------
  // The whole result

  /** The sorted folder paths step 2 numbers. */
  function FolderPaths(items: seq<Item>): seq<string> {
    SortBySegments(CollectFolders(items))
  }

  /** What step 2 hands to step 3, for any segmented list without
      duplicates. */
  ghost predicate StageOk(fn: seq<FlatNode>, ids: map<string, nat>, s: seq<string>) {
    && |fn| == |s| && Numbered(fn) && IdsWithin(ids, |s|)
    && (forall x :: x in ids <==> x in s)
    && (forall x :: x in ids ==> s[ids[x] - 1] == x)
  }

  /** Numbering by position inverts on a list without duplicates. */
  lemma NumberedInverse(pass: (seq<FlatNode>, map<string, nat>), s: seq<string>)
    requires NumberedByPosition(pass, s)
    ensures IdsWithin(pass.1, |s|) && forall x :: x in pass.1 ==> s[pass.1[x] - 1] == x
  {
    forall x | x in pass.1 ensures 1 <= pass.1[x] <= |s| && s[pass.1[x] - 1] == x {
      var j :| 0 <= j < |s| && s[j] == x;
    }
  }

  lemma FolderPassOk(s: seq<string>)
    requires AllSegmented(s) && Distinct(s)
    ensures StageOk(FolderPass(s).0, FolderPass(s).1, s)
  {
    var st := FolderPass(s);
    assert NumberedByPosition(st, s) by {
      FolderPassIds(s);
    }
    assert Numbered(st.0) by {
      forall i | 0 <= i < |s| ensures st.0[i].nodeId == i + 1 {
        FolderNodeFields(s, i);
      }
    }
    NumberedInverse(st, s);
  }

  lemma StageFacts(items: seq<Item>)
    ensures AllSegmented(FolderPaths(items)) && Distinct(FolderPaths(items))
    ensures ParentsEarlier(FolderPaths(items), HasParentPath, ParentOf)
    ensures FolderStage(items) == FolderPass(FolderPaths(items))
    ensures StageOk(FolderStage(items).0, FolderStage(items).1, FolderPaths(items))
  {
    SortedSegmented(items);
    SortedParentsEarlier(items);
    FolderPassOk(FolderPaths(items));
  }

  /** Step 4 changes nothing but DrillState. */
  lemma MarkDrillKeeps(all: seq<FlatNode>)
    ensures forall i :: 0 <= i < |all| ==> MarkDrill(all)[i] == Drilled(all, i)
    ensures forall id: nat :: HasChild(MarkDrill(all), id) <==> HasChild(all, id)
  {
    var out := MarkDrill(all);
    forall id: nat ensures HasChild(out, id) <==> HasChild(all, id) {
      SameParentsSameChildren(out, all, id);
    }
  }

  /** Steps 3 and 4 on any numbered folder list. */
  lemma {:induction false} ShapeOf(items: seq<Item>, fn: seq<FlatNode>, ids: map<string, nat>, s: seq<string>)
    requires StageOk(fn, ids, s)
    requires forall i :: 0 <= i < |fn| ==> fn[i].isFolder
    ensures |MarkDrill(LeafPass(items, fn, ids))| == |s| + |Placed(items, s)|
    ensures forall i :: 0 <= i < |MarkDrill(LeafPass(items, fn, ids))| ==>
              MarkDrill(LeafPass(items, fn, ids))[i].nodeId == i + 1
              && (MarkDrill(LeafPass(items, fn, ids))[i].isFolder <==> i < |s|)
  {
    var all := LeafPass(items, fn, ids);
    LeafPassNumbers(items, fn, ids);
    KeptPlaced(items, ids, s);
    MarkDrillKeeps(all);
    forall i | 0 <= i < |all| ensures all[i].isFolder <==> i < |s| {
      if i < |s| {
        assert all[..|s|][i] == all[i];
      } else {
        LeafAt(items, fn, ids, i - |s|);
      }
    }
  }

  lemma FolderStageFolders(items: seq<Item>)
    ensures forall i :: 0 <= i < |FolderStage(items).0| ==> FolderStage(items).0[i].isFolder
  {
    StageFacts(items);
    forall i | 0 <= i < |FolderStage(items).0| ensures FolderStage(items).0[i].isFolder {
      FolderParentId(FolderPaths(items), i);
    }
  }

  /** The rows: the folders first, then one leaf per placed item; every
      row's NodeID is its position plus one. */
  lemma FlatShape(items: seq<Item>)
    ensures |FlatStructure(items)| == |FolderPaths(items)| + |Placed(items, FolderPaths(items))|
    ensures forall i :: 0 <= i < |FlatStructure(items)| ==>
              FlatStructure(items)[i].nodeId == i + 1
              && (FlatStructure(items)[i].isFolder <==> i < |FolderPaths(items)|)
  {
    StageFacts(items);
    FolderStageFolders(items);
    var st := FolderStage(items);
    ShapeOf(items, st.0, st.1, FolderPaths(items));
  }

  /** The result for a given sorted folder list. */
  function ResultOf(items: seq<Item>, s: seq<string>): seq<FlatNode>
    requires AllSegmented(s)
  {
    var st := FolderPass(s);
    MarkDrill(LeafPass(items, st.0, st.1))
  }

  lemma FlatStructureIsResultOf(items: seq<Item>)
    ensures AllSegmented(FolderPaths(items))
    ensures FlatStructure(items) == ResultOf(items, FolderPaths(items))
  {
    StageFacts(items);
  }

  /** The parent of a multi-segment folder is an earlier folder, and its
      node id is the parent's index plus one. */
  lemma FolderParentFound(s: seq<string>, i: nat)
    requires AllSegmented(s) && Distinct(s) && ParentsEarlier(s, HasParentPath, ParentOf)
    requires i < |s| && SegCount(s[i]) > 1
    ensures |FolderPass(s).0| == |s|
    ensures exists j :: 0 <= j < i && s[j] == FolderParentPath(s[i])
                        && FolderPass(s).0[i].parentNodeId == Some(j + 1)
  {
    FolderParentId(s, i);
    assert HasParentPath(s[i]);
    assert ParentOf(s[i]) in s[..i];
    var j :| 0 <= j < i && s[..i][j] == FolderParentPath(s[i]);
    assert s[j] == FolderParentPath(s[i]);
  }

  /** Step 4 on a row of a prefix: only its DrillState may change. */
  lemma DrilledKept(all: seq<FlatNode>, fn: seq<FlatNode>, i: nat)
    requires |fn| <= |all| && all[..|fn|] == fn && i < |fn|
    requires fn[i].isFolder && fn[i].nodeId == i + 1 && fn[i].drillState == "expanded"
    ensures MarkDrill(all)[i]
            == fn[i].(drillState := if HasChild(MarkDrill(all), i + 1) then "expanded" else "leaf")
  {
    MarkDrillKeeps(all);
    assert all[i] == all[..|fn|][i];
  }

  lemma FolderRowOf(items: seq<Item>, s: seq<string>, i: nat)
    requires AllSegmented(s) && Distinct(s) && i < |s|
    ensures |FolderPass(s).0| == |s| <= |ResultOf(items, s)|
    ensures ResultOf(items, s)[i]
            == FolderPass(s).0[i].(drillState := if HasChild(ResultOf(items, s), i + 1) then "expanded" else "leaf")
  {
    var st := FolderPass(s);
    FolderPassOk(s);
    LeafPassNumbers(items, st.0, st.1);
    FolderParentId(s, i);
    DrilledKept(LeafPass(items, st.0, st.1), st.0, i);
  }

  /** Row i of `out` is the folder row for s[i], with the fields step 2
      sets and the DrillState step 4 sets. */
  predicate FolderFields(out: seq<FlatNode>, s: seq<string>, i: nat) {
    && i < |s| && i < |out| && SegCount(s[i]) >= 1
    && var n := out[i];
    && n.nodeId == i + 1 && n.isFolder
    && n.path == s[i] && n.kind == "folder" && n.itemId.None? && n.value.None?
    && n.level == SegCount(s[i]) - 1
    && n.labelText == Segments(s[i])[SegCount(s[i]) - 1]
    && (n.drillState == "leaf" <==> !HasChild(out, i + 1))
    && (n.drillState != "leaf" ==> n.drillState == "expanded")
  }

  /** The fields step 2 gives the node for s[i]. */
  predicate NodeFields(node: FlatNode, s: seq<string>, i: nat) {
    && i < |s| && SegCount(s[i]) >= 1
    && node.nodeId == i + 1 && node.isFolder && node.drillState == "expanded"
    && node.path == s[i] && node.kind == "folder" && node.itemId.None? && node.value.None?
    && node.level == SegCount(s[i]) - 1
    && node.labelText == Segments(s[i])[SegCount(s[i]) - 1]
  }

  lemma FolderNodeFields(s: seq<string>, i: nat)
    requires AllSegmented(s) && Distinct(s) && i < |s|
    ensures |FolderPass(s).0| == |s|
    ensures NodeFields(FolderPass(s).0[i], s, i)
  {
    FolderPassAt(s, i);
    SegmentedPrefix(s, i);
    FolderNodeHasFields(s, i, FolderPass(s[..i]).1);
  }

  lemma FolderNodeHasFields(s: seq<string>, i: nat, ids: map<string, nat>)
    requires i < |s| && SegCount(s[i]) >= 1
    ensures NodeFields(FolderNode(i + 1, s[i], ids), s, i)
  {
  }

  /** Step 4 only sets the DrillState of a node step 2 made. */
  lemma DrilledFields(out: seq<FlatNode>, node: FlatNode, s: seq<string>, i: nat)
    requires i < |out| && NodeFields(node, s, i)
    requires out[i] == node.(drillState := if HasChild(out, i + 1) then "expanded" else "leaf")
    ensures FolderFields(out, s, i)
  {
  }

  /** The fields of a folder row that step 2 sets. */
  lemma FolderFieldsIn(items: seq<Item>, s: seq<string>, i: nat)
    requires AllSegmented(s) && Distinct(s) && i < |s|
    ensures |ResultOf(items, s)| >= |s|
    ensures FolderFields(ResultOf(items, s), s, i)
  {
    var out := ResultOf(items, s);
    assert |FolderPass(s).0| == |s| <= |out| by {
      FolderRowOf(items, s, i);
    }
    var node := FolderPass(s).0[i];
    assert out[i] == node.(drillState := if HasChild(out, i + 1) then "expanded" else "leaf") by {
      FolderRowOf(items, s, i);
    }
    assert NodeFields(node, s, i) by {
      FolderNodeFields(s, i);
    }
    DrilledFields(out, node, s, i);
  }

  /** The parent of a folder row. */
  lemma FolderParentIn(items: seq<Item>, s: seq<string>, i: nat)
    requires AllSegmented(s) && Distinct(s) && ParentsEarlier(s, HasParentPath, ParentOf) && i < |s|
    ensures |ResultOf(items, s)| >= |s|
    ensures var n := ResultOf(items, s)[i];
            && (SegCount(s[i]) == 1 ==> n.parentNodeId.None?)
            && (SegCount(s[i]) > 1 ==>
                  exists j :: 0 <= j < i && s[j] == FolderParentPath(s[i]) && n.parentNodeId == Some(j + 1))
  {
    FolderRowOf(items, s, i);
    FolderParentId(s, i);
    if SegCount(s[i]) > 1 {
      FolderParentFound(s, i);
    }
  }

  /** A folder row: its path, level (segment count minus one), label (last
      segment), its parent (the earlier folder for the text before the last
      dot, or none for a single segment) and its DrillState ("leaf" exactly
      when no row names it as parent). */
  lemma FolderRow(items: seq<Item>, i: nat)
    requires i < |FolderPaths(items)|
    ensures |FlatStructure(items)| >= |FolderPaths(items)|
    ensures SegCount(FolderPaths(items)[i]) >= 1
    ensures var s := FolderPaths(items);
            var out := FlatStructure(items);
            var n := out[i];
            && n.nodeId == i + 1 && n.isFolder
            && n.path == s[i] && n.kind == "folder" && n.itemId.None? && n.value.None?
            && n.level == SegCount(s[i]) - 1
            && n.labelText == Segments(s[i])[SegCount(s[i]) - 1]
            && (SegCount(s[i]) == 1 ==> n.parentNodeId.None?)
            && (SegCount(s[i]) > 1 ==>
                  exists j :: 0 <= j < i && s[j] == FolderParentPath(s[i]) && n.parentNodeId == Some(j + 1))
            && (n.drillState == "leaf" <==> !HasChild(out, i + 1))
            && (n.drillState != "leaf" ==> n.drillState == "expanded")
  {
    StageFacts(items);
    FlatStructureIsResultOf(items);
    FolderFieldsIn(items, FolderPaths(items), i);
    FolderParentIn(items, FolderPaths(items), i);
  }

  /** Some folder row of out has path x. */
  predicate FolderRowPath(out: seq<FlatNode>, x: string) {
    exists i :: 0 <= i < |out| && out[i].isFolder && out[i].path == x
  }

  /** x is a dot-prefix of some item's path. */
  predicate DotPrefixOfSome(items: seq<Item>, x: string) {
    exists j :: 0 <= j < |items| && DotPrefix(x, items[j].path)
  }

  /** When no path has an empty segment, the folder rows are exactly the
      dot-prefixes of the items' paths: x is the path of a folder row iff
      it is a dot-prefix of some item's path. */
  lemma FolderRowsAreDotPrefixes(items: seq<Item>)
    requires forall j :: 0 <= j < |items| ==> NoEmptySegment(items[j].path, '.')
    ensures forall x :: FolderRowPath(FlatStructure(items), x) <==> DotPrefixOfSome(items, x)
  {
    var s := FolderPaths(items);
    var out := FlatStructure(items);
    FolderPathsExact(items);
    FlatShape(items);
    forall j | 0 <= j < |items| ensures forall x :: x in ItemFolderPaths(items[j].path) <==> DotPrefix(x, items[j].path) {
      ItemFoldersAreDotPrefixes(items[j].path);
    }
    forall x | FolderRowPath(out, x) ensures DotPrefixOfSome(items, x) {
      var i :| 0 <= i < |out| && out[i].isFolder && out[i].path == x;
      FolderRow(items, i);
      assert x in s;
    }
    forall x | DotPrefixOfSome(items, x) ensures FolderRowPath(out, x) {
      var j :| 0 <= j < |items| && DotPrefix(x, items[j].path);
      assert x in s;
      var i :| 0 <= i < |s| && s[i] == x;
      FolderRow(items, i);
    }
  }

  /** Row i has a parent row before it, and sits one level below it. */
  predicate UnderParent(out: seq<FlatNode>, i: nat) {
    && i < |out|
    && out[i].parentNodeId.Some?
    && 1 <= out[i].parentNodeId.value <= i
    && out[out[i].parentNodeId.value - 1].level + 1 == out[i].level
  }

  /** For a folder path without empty segments, the parent folder is one
      level up. */
  lemma FolderLevelUnderParent(items: seq<Item>, i: nat)
    requires i < |FolderPaths(items)|
    requires SegCount(FolderPaths(items)[i]) > 1 && NoEmptySegment(FolderPaths(items)[i], '.')
    ensures UnderParent(FlatStructure(items), i)
  {
    var s := FolderPaths(items);
    assert AllSegmented(s) && Distinct(s) && ParentsEarlier(s, HasParentPath, ParentOf) by { StageFacts(items); }
    assert SegCount(FolderParentPath(s[i])) + 1 == SegCount(s[i]) by { CleanParent(s[i]); }
    FolderLevelIn(items, s, i);
    assert FlatStructure(items) == ResultOf(items, s) by { FlatStructureIsResultOf(items); }
  }

  /** The same for any segmented folder list without duplicates whose
      parents come first, given that the parent path has one segment
      less. */
  lemma FolderLevelIn(items: seq<Item>, s: seq<string>, i: nat)
    requires AllSegmented(s) && Distinct(s) && ParentsEarlier(s, HasParentPath, ParentOf) && i < |s|
    requires SegCount(s[i]) > 1 && SegCount(FolderParentPath(s[i])) + 1 == SegCount(s[i])
    ensures UnderParent(ResultOf(items, s), i)
  {
    var out := ResultOf(items, s);
    FolderParentIn(items, s, i);
    var j :| 0 <= j < i && s[j] == FolderParentPath(s[i]) && out[i].parentNodeId == Some(j + 1);
    assert out[i].level == SegCount(s[i]) - 1 by { FolderFieldsIn(items, s, i); }
    assert out[j].level == SegCount(s[j]) - 1 by { FolderFieldsIn(items, s, j); }
    ParentRowLevel(out, s, i, j);
  }

  /** The level step from the folder levels of a row and its parent row. */
  lemma ParentRowLevel(out: seq<FlatNode>, s: seq<string>, i: nat, j: nat)
    requires j < i < |s| <= |out| && out[i].parentNodeId == Some(j + 1)
    requires out[i].level == SegCount(s[i]) - 1 && out[j].level == SegCount(s[j]) - 1
    requires SegCount(s[j]) + 1 == SegCount(s[i])
    ensures UnderParent(out, i)
  {
  }

  /** Row `i` of `out` is the leaf for `item` under the folder list `s`:
      numbered by position, a "leaf" carrying the item's fields, its parent
      one of the folder rows, namely the folder of the item's own path when
      there is one and else the folder of the text before the item path's
      last dot, and its level one below the parent's. */
  predicate IsLeafRow(out: seq<FlatNode>, s: seq<string>, item: Item, i: nat) {
    && i < |out|
    && var n := out[i];
    && n.nodeId == i + 1 && !n.isFolder && n.drillState == "leaf"
    && n.path == item.path && n.labelText == item.labelText && n.kind == item.kind
    && n.itemId == Some(item.id) && n.value == Some(item.value)
    && n.parentNodeId.Some? && 1 <= n.parentNodeId.value <= |s| && n.parentNodeId.value <= |out|
    && (item.path in s ==> s[n.parentNodeId.value - 1] == item.path)
    && (item.path !in s ==> HandlerParentPath(item.path).Some?
                            && s[n.parentNodeId.value - 1] == HandlerParentPath(item.path).value)
    && n.level == out[n.parentNodeId.value - 1].level + 1
  }

  /** The folder a leaf's parent id stands for. */
  lemma LeafParentFolder(path: string, ids: map<string, nat>, s: seq<string>, pid: nat)
    requires IdsWithin(ids, |s|) && (forall x :: x in ids <==> x in s)
    requires forall x :: x in ids ==> s[ids[x] - 1] == x
    requires LeafParent(path, ids) == Some(pid)
    ensures 1 <= pid <= |s|
    ensures path in s ==> s[pid - 1] == path
    ensures path !in s ==> HandlerParentPath(path).Some? && s[pid - 1] == HandlerParentPath(path).value
  {
  }

  /** Step 4 leaves a leaf row as it is. */
  lemma MarkDrillLeafRow(all: seq<FlatNode>, s: seq<string>, item: Item, i: nat)
    requires IsLeafRow(all, s, item, i)
    ensures IsLeafRow(MarkDrill(all), s, item, i)
  {
    var pid := all[i].parentNodeId.value;
    assert MarkDrill(all)[i] == Drilled(all, i) == all[i];
    assert MarkDrill(all)[pid - 1].level == Drilled(all, pid - 1).level == all[pid - 1].level;
  }

  /** Step 3 on any numbered folder list: the k-th placed item's row. */
  lemma LeafRowPass(items: seq<Item>, fn: seq<FlatNode>, ids: map<string, nat>, s: seq<string>, k: nat)
    requires StageOk(fn, ids, s)
    requires k < |Placed(items, s)|
    ensures |LeafPass(items, fn, ids)| == |s| + |Placed(items, s)|
    ensures IsLeafRow(LeafPass(items, fn, ids), s, Placed(items, s)[k], |s| + k)
  {
    var all := LeafPass(items, fn, ids);
    KeptPlaced(items, ids, s);
    LeafPassNumbers(items, fn, ids);
    LeafAt(items, fn, ids, k);
    var item := Placed(items, s)[k];
    var pid := ParentIdOf(item, ids);
    LeafParentFolder(item.path, ids, s, pid);
    assert all[pid - 1] == all[..|s|][pid - 1];
  }

  lemma LeafRowOf(items: seq<Item>, fn: seq<FlatNode>, ids: map<string, nat>, s: seq<string>, k: nat)
    requires StageOk(fn, ids, s)
    requires k < |Placed(items, s)|
    ensures |MarkDrill(LeafPass(items, fn, ids))| == |s| + |Placed(items, s)|
    ensures IsLeafRow(MarkDrill(LeafPass(items, fn, ids)), s, Placed(items, s)[k], |s| + k)
  {
    LeafRowPass(items, fn, ids, s, k);
    MarkDrillLeafRow(LeafPass(items, fn, ids), s, Placed(items, s)[k], |s| + k);
  }

  /** A leaf row: the k-th placed item, in input order, becomes node
      `|folders| + k + 1`, a leaf row as `IsLeafRow` describes. */
  lemma LeafRow(items: seq<Item>, k: nat)
    requires k < |Placed(items, FolderPaths(items))|
    ensures |FlatStructure(items)| == |FolderPaths(items)| + |Placed(items, FolderPaths(items))|
    ensures IsLeafRow(FlatStructure(items), FolderPaths(items), Placed(items, FolderPaths(items))[k],
                      |FolderPaths(items)| + k)
  {
    StageFacts(items);
    var st := FolderStage(items);
    LeafRowOf(items, st.0, st.1, FolderPaths(items), k);
  }

  /** An item whose path has no empty dot-segment always gets a leaf: its
      own path is one of the folders. */
  lemma CleanItemPlaced(items: seq<Item>, j: nat)
    requires j < |items| && NoEmptySegment(items[j].path, '.')
    ensures items[j].path in FolderPaths(items)
    ensures items[j] in Placed(items, FolderPaths(items))
  {
    CleanOwnFolder(items[j].path);
    FolderPathsExact(items);
    PlacedExact(items, FolderPaths(items));
  }

  /** The folder "" exists only when some path starts with a dot; without
      one, an item with the empty path is dropped. */
  lemma EmptyPathSkipped(items: seq<Item>)
    requires forall j :: 0 <= j < |items| && items[j].path != "" ==> items[j].path[0] != '.'
    ensures "" !in FolderPaths(items)
    ensures forall x :: x in Placed(items, FolderPaths(items)) ==> x.path != ""
  {
    FolderPathsExact(items);
    if "" in FolderPaths(items) {
      var j :| 0 <= j < |items| && "" in ItemFolderPaths(items[j].path);
      EmptyFolderNeedsLeadingDot(items[j].path);
      assert false;
    }
    PlacedExact(items, FolderPaths(items));
    assert HandlerParentPath("").None?;
  }
}
