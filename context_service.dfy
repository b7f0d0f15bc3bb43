/** service/context/ContextServiceImpl: the parent/children hierarchy of a
    task's context nodes, the bracket-aware parent path, the resolution of
    `SubContext:`/`Context:` paths, the label of a new node, and the upsert
    of a node at a (task, path) pair. */
module ContextService {
  import opened Wrappers
  import opened JavaText
  import opened Store
  import CqnCommon

  // ---------------------------------------------------------------------
  // getParentPath

  /** The parent of a path: the text before the last dot when that dot
      comes after the last ']'; for a path ending in an index, the text
      before the last dot ahead of the last '['.  A dot at position 0 never
      counts. */
  function ParentPath(path: string): (r: Option<string>)
    ensures r.Some? ==> 0 < |r.value| < |path| && r.value == path[..|r.value|] && path[|r.value|] == '.'
    ensures '.' !in path ==> r == None
  {
    if path == [] then None
    else
      var lastDot := LastIndexOf(path, '.');
      var lastBracket := LastIndexOf(path, ']');
      if lastDot > lastBracket && lastDot > 0 then Some(path[..lastDot])
      else if lastBracket > 0 then
        var openBracket := LastIndexOf(path, '[');
        var dotBeforeBracket := LastIndexOfFrom(path, '.', openBracket);
        if dotBeforeBracket > 0 then Some(path[..dotBeforeBracket]) else None
      else None
  }

  /** The first branch of ParentPath. */
  lemma ParentPathByDot(path: string)
    requires LastIndexOf(path, '.') > LastIndexOf(path, ']') && LastIndexOf(path, '.') > 0
    ensures ParentPath(path) == Some(path[..LastIndexOf(path, '.')])
  {
  }

  /** The second branch of ParentPath. */
  lemma ParentPathByBracket(path: string, dot: int, close: int, open: int, d: int)
    requires dot == LastIndexOf(path, '.') && close == LastIndexOf(path, ']')
    requires open == LastIndexOf(path, '[') && d == LastIndexOfFrom(path, '.', open)
    requires !(dot > close && dot > 0) && close > 0 && d > 0
    ensures ParentPath(path) == Some(path[..d])
  {
  }

  /** A field below a non-empty path has that path as parent, whether the
      path itself ends in an index or not ("a.b.c" gives "a.b", "a.b[0].c"
      gives "a.b[0]"). */
  lemma ParentOfField(p: string, field: string)
    requires p != [] && '.' !in field && ']' !in field
    ensures ParentPath(p + "." + field) == Some(p)
  {
    var s := p + "." + field;
    assert s == p + ['.'] + field == p + (['.'] + field);
    LastIndexOfSnoc(p, field, '.');
    assert ']' !in ['.'] + field;
    LastIndexOfAppendAbsent(p, ['.'] + field, ']');
    ParentPathByDot(s);
    assert s[..|p|] == p;
  }

  /** No character of a digit string is '.' or '['. */
  lemma DigitsHaveNoMarks(digits: string)
    requires AllDigits(digits)
    ensures '.' !in digits && '[' !in digits && ']' !in digits
  {
    forall i | 0 <= i < |digits| ensures digits[i] != '.' && digits[i] != '[' && digits[i] != ']' {
      assert IsDigit(digits[i]);
    }
  }

  /** The last '.' at or before `from`, once the positions after it are known. */
  lemma LastIndexOfFromAt(s: string, c: char, from: int, i: int)
    requires 0 <= i <= from < |s| && s[i] == c
    requires forall j :: i < j <= from ==> s[j] != c
    ensures LastIndexOfFrom(s, c, from) == i
  {
  }

  /** Where each piece of p + "." + name + "[" + digits + "]" sits. */
  lemma IndexedLayout(p: string, name: string, digits: string, s: string)
    requires s == p + "." + name + "[" + digits + "]"
    ensures |s| == |p| + |name| + |digits| + 3 && s[..|p|] == p
    ensures s[|p|] == '.' && s[|p| + 1 + |name|] == '[' && s[|s| - 1] == ']'
    ensures forall j :: |p| < j < |p| + 1 + |name| ==> s[j] == name[j - |p| - 1]
    ensures forall j :: |p| + 1 + |name| < j < |s| - 1 ==> s[j] == digits[j - |p| - 2 - |name|]
  {
  }

  /** The positions of the marks in p + "." + name + "[" + digits + "]". */
  lemma IndexedMarks(p: string, name: string, digits: string, s: string)
    requires '.' !in name && '[' !in name && ']' !in name
    requires '.' !in digits && '[' !in digits && ']' !in digits
    requires s == p + "." + name + "[" + digits + "]"
    ensures LastIndexOf(s, ']') == |s| - 1
    ensures LastIndexOf(s, '.') == |p|
    ensures LastIndexOf(s, '[') == |p| + 1 + |name|
  {
    IndexedLayout(p, name, digits, s);
    var open := |p| + 1 + |name|;
    LastIndexOfAt(s, ']', |s| - 1);
    forall j | |p| < j < |s| ensures s[j] != '.' {
      if j < open {
        assert s[j] in name;
      } else if open < j < |s| - 1 {
        assert s[j] in digits;
      }
    }
    LastIndexOfAt(s, '.', |p|);
    forall j | open < j < |s| ensures s[j] != '[' {
      if j < |s| - 1 {
        assert s[j] in digits;
      }
    }
    LastIndexOfAt(s, '[', open);
  }

  /** Between the dot and the bracket there is only the array name. */
  lemma IndexedDot(p: string, name: string, digits: string, s: string)
    requires '.' !in name
    requires s == p + "." + name + "[" + digits + "]"
    ensures LastIndexOfFrom(s, '.', |p| + 1 + |name|) == |p|
  {
    IndexedLayout(p, name, digits, s);
    forall j | |p| < j <= |p| + 1 + |name| ensures s[j] != '.' {
      if j < |p| + 1 + |name| {
        assert s[j] in name;
      }
    }
    LastIndexOfFromAt(s, '.', |p| + 1 + |name|, |p|);
  }

  /** An indexed element takes the path before its array name as parent:
      "a.b[0]" gives "a", not "a.b". */
  lemma ParentOfIndexed(p: string, name: string, digits: string)
    requires p != [] && '.' !in name && '[' !in name && ']' !in name
    requires AllDigits(digits)
    ensures ParentPath(p + "." + name + "[" + digits + "]") == Some(p)
  {
    var s := p + "." + name + "[" + digits + "]";
    DigitsHaveNoMarks(digits);
    IndexedMarks(p, name, digits, s);
    IndexedDot(p, name, digits, s);
    IndexedLayout(p, name, digits, s);
    ParentPathByBracket(s, |p|, |s| - 1, |p| + 1 + |name|, |p|);
  }

  // ---------------------------------------------------------------------
  // getContextFullPath

  const SUB_CONTEXT: string := "SubContext:"
  const CONTEXT: string := "Context:"

  /** The join of a task's context path and a relative path: the relative
      path alone when its task has none; otherwise one "." between them
      unless that path ends with one or the relative path starts with
      one. */
  function JoinContextPath(taskPath: Option<string>, relativePath: string): (r: string)
    ensures EndsWith(r, relativePath)
    ensures taskPath.Some? ==> StartsWith(r, taskPath.value)
    ensures |r| <= |relativePath| + (if taskPath.Some? then |taskPath.value| + 1 else 0)
  {
    match taskPath
    case None => relativePath
    case Some(t) =>
      if t == [] then relativePath
      else if EndsWith(t, ".") || StartsWith(relativePath, ".") then t + relativePath
      else t + "." + relativePath
  }

  /** getContextFullPath.  `parentTask` is what getParentTaskByBotInstance
      gives for the bot instance; it is consulted only for `SubContext:`,
      so its failure surfaces only there. */
  function ContextFullPath(subPath: string, parentTask: Result<Task>): (r: Result<string>)
    ensures !StartsWith(subPath, SUB_CONTEXT) ==> r.Ok?
    ensures parentTask.Err? && StartsWith(subPath, SUB_CONTEXT) ==> r == Err(parentTask.error)
  {
    if StartsWith(subPath, SUB_CONTEXT) then
      match parentTask
      case Err(e) => Err(e)
      case Ok(task) => Ok(JoinContextPath(task.contextPath, Replace(subPath, SUB_CONTEXT, "")))
    else if StartsWith(subPath, CONTEXT) then Ok(Replace(subPath, CONTEXT, ""))
    else Ok(subPath)
  }

  /** Removing every occurrence of a marker the text starts with removes
      that one and then every later one. */
  lemma ReplaceLeading(s: string, t: string)
    requires |t| > 0 && StartsWith(s, t) && !Contains(s[|t|..], t)
    ensures Replace(s, t, "") == s[|t|..]
  {
    ReplaceAbsent(s[|t|..], t, "");
  }

  /** Neither side supplying a dot: exactly one dot is put between them. */
  lemma JoinAddsOneDot(t: string, rel: string)
    requires t != [] && !EndsWith(t, ".") && !StartsWith(rel, ".")
    ensures JoinContextPath(Some(t), rel) == t + "." + rel
  {
  }

  /** One side supplying a dot: the two are concatenated, so the seam keeps
      that single dot; with both supplying one the seam has two. */
  lemma JoinKeepsSuppliedDot(t: string, rel: string)
    requires t != [] && (EndsWith(t, ".") || StartsWith(rel, "."))
    ensures JoinContextPath(Some(t), rel) == t + rel
    ensures EndsWith(t, ".") && StartsWith(rel, ".") ==> JoinContextPath(Some(t), rel)[|t| - 1..|t| + 1] == ".."
  {
    var r := t + rel;
    if EndsWith(t, ".") && StartsWith(rel, ".") {
      assert r[|t| - 1] == t[|t| - 1] == '.';
      assert r[|t|] == rel[0] == '.';
    }
  }

  /** A `SubContext:` path without a second marker resolves against the
      task's context path; a `Context:` path without a second marker is
      the rest of the text; any other text is returned as it is. */
  lemma FullPathCases(rest: string, parentTask: Result<Task>)
    requires !Contains(rest, SUB_CONTEXT) && !Contains(rest, CONTEXT)
    ensures parentTask.Ok? ==> ContextFullPath(SUB_CONTEXT + rest, parentTask)
                                == Ok(JoinContextPath(parentTask.value.contextPath, rest))
    ensures ContextFullPath(CONTEXT + rest, parentTask) == Ok(rest)
  {
    var s := SUB_CONTEXT + rest;
    assert s[..|SUB_CONTEXT|] == SUB_CONTEXT && s[|SUB_CONTEXT|..] == rest;
    ReplaceLeading(s, SUB_CONTEXT);
    var c := CONTEXT + rest;
    assert c[..|CONTEXT|] == CONTEXT && c[|CONTEXT|..] == rest;
    assert !StartsWith(c, SUB_CONTEXT) by {
      assert c[0] == 'C' && SUB_CONTEXT[0] == 'S';
    }
    ReplaceLeading(c, CONTEXT);
  }

  // ---------------------------------------------------------------------
  // generateLabelFromPath

  /** The number of leading ASCII digits. */
  function DigitRun(s: string): (r: nat)
    ensures r <= |s|
    ensures forall i :: 0 <= i < r ==> IsDigit(s[i])
    ensures r < |s| ==> !IsDigit(s[r])
  {
    if s != [] && IsDigit(s[0]) then 1 + DigitRun(s[1..]) else 0
  }

  lemma {:induction false} DigitRunAppend(x: string, y: string)
    requires y != [] && !IsDigit(y[0])
    ensures DigitRun(x + y) == DigitRun(x)
  {
    if x != [] {
      assert (x + y)[0] == x[0];
      assert (x + y)[1..] == x[1..] + y;
      DigitRunAppend(x[1..], y);
    } else {
      assert x + y == y;
    }
  }

  /** The length of a match of \[\d+\] at the start of s, or 0. */
  function IndexTokenLen(s: string): (r: nat)
    ensures r <= |s|
    ensures r > 0 ==> r >= 3 && s[0] == '[' && s[r - 1] == ']'
  {
    if s != [] && s[0] == '[' then
      var d := DigitRun(s[1..]);
      if d >= 1 && 1 + d < |s| && s[1 + d] == ']' then d + 2 else 0
    else 0
  }

  /** replaceAll("\\[\\d+\\]", ""): a left-to-right scan that drops each
      index token and does not rescan what it produced. */
  function RemoveIndexes(s: string): (r: string)
    ensures |r| <= |s|
    ensures '[' !in s ==> r == s
    decreases |s|
  {
    if s == [] then []
    else
      var n := IndexTokenLen(s);
      if n > 0 then RemoveIndexes(s[n..]) else [s[0]] + RemoveIndexes(s[1..])
  }

  /** The token "[digits]". */
  function IndexToken(digits: string): string { "[" + digits + "]" }

  /** A token never starts inside text that is followed by '[': the scan of
      a prefix is the same alone or followed by a token. */
  lemma IndexTokenLenPrefix(a: string, rest: string)
    requires a != [] && rest != [] && rest[0] == '['
    ensures IndexTokenLen(a + rest) == IndexTokenLen(a)
  {
    var s := a + rest;
    if a[0] == '[' {
      assert s[1..] == a[1..] + rest;
      DigitRunAppend(a[1..], rest);
      var d := DigitRun(a[1..]);
      if 1 + d < |a| {
        assert s[1 + d] == a[1 + d];
      } else {
        assert s[1 + d] == rest[0];
      }
    }
  }

  /** The scan stops at a following '[': text before it is scanned alone. */
  lemma {:induction false} RemoveIndexesSplit(a: string, rest: string)
    requires rest != [] && rest[0] == '['
    ensures RemoveIndexes(a + rest) == RemoveIndexes(a) + RemoveIndexes(rest)
    decreases |a|
  {
    if a == [] {
      assert a + rest == rest;
    } else {
      var s := a + rest;
      IndexTokenLenPrefix(a, rest);
      var n := IndexTokenLen(a);
      var k := if n > 0 then n else 1;
      assert s[k..] == a[k..] + rest;
      RemoveIndexesSplit(a[k..], rest);
    }
  }

  /** A token at the start is dropped whole. */
  lemma RemoveIndexesHead(digits: string, b: string)
    requires |digits| >= 1 && AllDigits(digits)
    ensures RemoveIndexes(IndexToken(digits) + b) == RemoveIndexes(b)
  {
    var t := IndexToken(digits);
    var s := t + b;
    assert s[1..] == digits + ("]" + b);
    DigitRunAppend(digits, "]" + b);
    assert DigitRun(digits) == |digits|;
    assert IndexTokenLen(s) == |t|;
    assert s[|t|..] == b;
  }

  /** Each index token is removed and the text around it is scanned as if
      the token were not there. */
  lemma RemoveIndexesToken(a: string, digits: string, b: string)
    requires |digits| >= 1 && AllDigits(digits)
    ensures RemoveIndexes(a + IndexToken(digits) + b) == RemoveIndexes(a) + RemoveIndexes(b)
  {
    var t := IndexToken(digits);
    assert a + t + b == a + (t + b);
    RemoveIndexesSplit(a, t + b);
    RemoveIndexesHead(digits, b);
  }

  /** ContextServiceImpl.generateLabelFromPath: "Root" for the empty path;
      otherwise the last segment with its index tokens removed and the
      first character upper-cased, or "Node" when nothing remains. */
  function ContextLabel(path: string): (r: string)
    requires path == [] || HasOther(path, '.')
    ensures |r| >= 1
  {
    if path == [] then "Root"
    else
      var part := RemoveIndexes(CqnCommon.LastSegment(path));
      if part != [] then [ToUpper(part[0])] + part[1..] else "Node"
  }

  /** The last segment of p + "." + seg is seg. */
  lemma LastSegmentSnoc(p: string, seg: string)
    requires seg != [] && '.' !in seg
    ensures HasOther(p + "." + seg, '.')
    ensures CqnCommon.LastSegment(p + "." + seg) == seg
  {
    var s := p + "." + seg;
    assert s == p + ['.'] + seg;
    assert s[|s| - 1] == seg[|seg| - 1] != '.';
    PiecesSnoc(p, seg, '.');
  }

  /** The label of a path whose last segment is a name followed by index
      tokens is the capitalised name. */
  lemma LabelOfIndexedName(p: string, name: string, digits: string)
    requires name != [] && '.' !in name && '[' !in name && '.' !in digits
    requires |digits| >= 1 && AllDigits(digits)
    ensures HasOther(p + "." + name + IndexToken(digits), '.')
    ensures ContextLabel(p + "." + name + IndexToken(digits)) == [ToUpper(name[0])] + name[1..]
  {
    var seg := name + IndexToken(digits);
    assert p + "." + name + IndexToken(digits) == p + "." + seg;
    assert '.' !in seg;
    LastSegmentSnoc(p, seg);
    RemoveIndexesToken(name, digits, []);
    assert seg + [] == seg;
  }

  /** A last segment made of index tokens only is labelled "Node". */
  lemma LabelOfBareIndex(p: string, digits: string)
    requires |digits| >= 1 && AllDigits(digits) && '.' !in digits
    ensures HasOther(p + "." + IndexToken(digits), '.')
    ensures ContextLabel(p + "." + IndexToken(digits)) == "Node"
  {
    var seg := IndexToken(digits);
    LastSegmentSnoc(p, seg);
    RemoveIndexesToken([], digits, []);
    assert [] + seg + [] == seg;
  }

  /** A last segment without index tokens is only capitalised. */
  lemma LabelOfField(p: string, field: string)
    requires field != [] && '.' !in field && '[' !in field
    ensures HasOther(p + "." + field, '.')
    ensures ContextLabel(p + "." + field) == [ToUpper(field[0])] + field[1..]
  {
    LastSegmentSnoc(p, field);
  }

  // ---------------------------------------------------------------------
  // buildContextAsHierarchy

  /** `nodeMap` after the first loop: each path mapped to the position of
      the node put last with that path. */
  function NodeMap(nodes: seq<ContextNode>): (m: map<string, nat>)
    ensures forall k :: 0 <= k < |nodes| ==> nodes[k].path in m
  {
    if nodes == [] then map[]
    else
      var n := |nodes| - 1;
      var m := NodeMap(nodes[..n]);
      assert forall k :: 0 <= k < n ==> nodes[..n][k] == nodes[k];
      m[nodes[n].path := n]
  }

  /** Every entry of m is the last node with its path. */
  predicate LastEntries(nodes: seq<ContextNode>, m: map<string, nat>) {
    forall p :: p in m ==>
      && m[p] < |nodes| && nodes[m[p]].path == p
      && forall j :: m[p] < j < |nodes| ==> nodes[j].path != p
  }

  /** The map after the first loop keeps, for each path, the last node. */
  lemma {:induction false} NodeMapLast(nodes: seq<ContextNode>)
    ensures LastEntries(nodes, NodeMap(nodes))
  {
    if nodes != [] {
      var n := |nodes| - 1;
      var prefix := nodes[..n];
      var m0 := NodeMap(prefix);
      NodeMapLast(prefix);
      assert NodeMap(nodes) == m0[nodes[n].path := n];
      forall p | p in m0 && p != nodes[n].path
        ensures m0[p] < n && nodes[m0[p]].path == p
        ensures forall j :: m0[p] < j < |nodes| ==> nodes[j].path != p
      {
        assert m0[p] < |prefix| && prefix[m0[p]].path == p;
        forall j | m0[p] < j < n ensures nodes[j].path != p {
          assert prefix[j] == nodes[j];
        }
      }
    }
  }

  /** Where the second loop attaches node k: under the node its parent path
      maps to, or nowhere (a root). The parent function is a parameter so
      that the hierarchy lemmas hold for any parent function. */
  function Slot(nodes: seq<ContextNode>, m: map<string, nat>, parentOf: string -> Option<string>, k: nat): Option<nat>
    requires k < |nodes|
  {
    var pp := parentOf(nodes[k].path);
    if pp.Some? && pp.value in m then Some(m[pp.value]) else None
  }

  /** The node the second loop adds for node k: `nodeMap.get(node.getPath())`. */
  function Target(nodes: seq<ContextNode>, m: map<string, nat>, k: nat): nat
    requires k < |nodes|
  {
    if nodes[k].path in m then m[nodes[k].path] else 0
  }

  /** The children list of node p after the second loop has seen u nodes. */
  function ChildrenUpTo(nodes: seq<ContextNode>, m: map<string, nat>, parentOf: string -> Option<string>, p: nat, u: nat): (r: seq<nat>)
    requires u <= |nodes|
    ensures |r| <= u
  {
    if u == 0 then []
    else
      ChildrenUpTo(nodes, m, parentOf, p, u - 1)
      + (if Slot(nodes, m, parentOf, u - 1) == Some(p) then [Target(nodes, m, u - 1)] else [])
  }

  /** The root list after the second loop has seen u nodes. */
  function RootsUpTo(nodes: seq<ContextNode>, m: map<string, nat>, parentOf: string -> Option<string>, u: nat): (r: seq<nat>)
    requires u <= |nodes|
    ensures |r| <= u
  {
    if u == 0 then []
    else RootsUpTo(nodes, m, parentOf, u - 1) + (if Slot(nodes, m, parentOf, u - 1).None? then [Target(nodes, m, u - 1)] else [])
  }

  /** One step of the second loop on one children list. */
  lemma ChildrenStep(nodes: seq<ContextNode>, m: map<string, nat>, parentOf: string -> Option<string>, p: nat, k: nat)
    requires k < |nodes|
    ensures ChildrenUpTo(nodes, m, parentOf, p, k + 1)
         == ChildrenUpTo(nodes, m, parentOf, p, k)
            + (if Slot(nodes, m, parentOf, k) == Some(p) then [Target(nodes, m, k)] else [])
  {
  }

  /** A children list holds the targets of exactly the nodes slotted under p. */
  lemma {:induction false} ChildrenMembers(nodes: seq<ContextNode>, m: map<string, nat>, parentOf: string -> Option<string>, p: nat, u: nat, x: nat)
    requires u <= |nodes|
    ensures x in ChildrenUpTo(nodes, m, parentOf, p, u)
      <==> exists k :: 0 <= k < u && Slot(nodes, m, parentOf, k) == Some(p) && Target(nodes, m, k) == x
  {
    if u > 0 {
      ChildrenMembers(nodes, m, parentOf, p, u - 1, x);
    }
  }

  /** The root list holds the targets of exactly the nodes with no slot. */
  lemma {:induction false} RootsMembers(nodes: seq<ContextNode>, m: map<string, nat>, parentOf: string -> Option<string>, u: nat, x: nat)
    requires u <= |nodes|
    ensures x in RootsUpTo(nodes, m, parentOf, u)
      <==> exists k :: 0 <= k < u && Slot(nodes, m, parentOf, k).None? && Target(nodes, m, k) == x
  {
    if u > 0 {
      RootsMembers(nodes, m, parentOf, u - 1, x);
    }
  }

  /** The total length of the children lists. */
  function TotalLength(lists: seq<seq<nat>>): nat {
    if lists == [] then 0 else TotalLength(lists[..|lists| - 1]) + |lists[|lists| - 1]|
  }

  lemma {:induction false} TotalLengthAppendAt(lists: seq<seq<nat>>, p: nat, x: nat)
    requires p < |lists|
    ensures TotalLength(lists[p := lists[p] + [x]]) == TotalLength(lists) + 1
  {
    var n := |lists| - 1;
    var l2 := lists[p := lists[p] + [x]];
    if p < n {
      assert l2[..n] == lists[..n][p := lists[p] + [x]];
      TotalLengthAppendAt(lists[..n], p, x);
    } else {
      assert l2[..n] == lists[..n];
    }
  }

  lemma {:induction false} TotalLengthEmpty(n: nat)
    ensures var e: seq<seq<nat>> := seq(n, _ => []); TotalLength(e) == 0
  {
    if n > 0 {
      var e: seq<seq<nat>> := seq(n, _ => []);
      var e1: seq<seq<nat>> := seq(n - 1, _ => []);
      assert e[..n - 1] == e1;
      TotalLengthEmpty(n - 1);
    }
  }

  /** The first step of buildContextAsHierarchy: one map entry per path,
      the later node with a path replacing the earlier. */
  method BuildNodeMap(nodes: seq<ContextNode>) returns (nodeMap: map<string, nat>)
    ensures nodeMap == NodeMap(nodes)
    ensures LastEntries(nodes, nodeMap)
  {
    nodeMap := map[];
    var i := 0;
    while i < |nodes|
      invariant 0 <= i <= |nodes|
      invariant nodeMap == NodeMap(nodes[..i])
    {
      assert nodes[..i + 1][..i] == nodes[..i];
      nodeMap := nodeMap[nodes[i].path := i];
      i := i + 1;
    }
    assert nodes[..|nodes|] == nodes;
    NodeMapLast(nodes);
  }

  /** The second step: every node goes to the children list of the node
      its parent path maps to, or to the roots. The parent function is
      passed in (getParentPath) so the loop reasons about it abstractly. */
  method LinkNodes(nodes: seq<ContextNode>, nodeMap: map<string, nat>, parentOf: string -> Option<string>) returns (children: seq<seq<nat>>, roots: seq<nat>)
    requires forall k :: 0 <= k < |nodes| ==> nodes[k].path in nodeMap
    requires forall p :: p in nodeMap ==> nodeMap[p] < |nodes|
    ensures |children| == |nodes|
    ensures roots == RootsUpTo(nodes, nodeMap, parentOf, |nodes|)
    ensures forall p :: 0 <= p < |nodes| ==> children[p] == ChildrenUpTo(nodes, nodeMap, parentOf, p, |nodes|)
    ensures |roots| + TotalLength(children) == |nodes|
  {
    TotalLengthEmpty(|nodes|);
    children := seq(|nodes|, _ => []);
    roots := [];
    var k := 0;
    while k < |nodes|
      invariant 0 <= k <= |nodes| && |children| == |nodes|
      invariant roots == RootsUpTo(nodes, nodeMap, parentOf, k)
      invariant forall p :: 0 <= p < |nodes| ==> children[p] == ChildrenUpTo(nodes, nodeMap, parentOf, p, k)
      invariant |roots| + TotalLength(children) == k
    {
      var parentPath := parentOf(nodes[k].path);
      var target := nodeMap[nodes[k].path];
      assert Target(nodes, nodeMap, k) == target;
      ghost var previous := children;
      if parentPath.Some? && parentPath.value in nodeMap {
        var p := nodeMap[parentPath.value];
        assert Slot(nodes, nodeMap, parentOf, k) == Some(p);
        TotalLengthAppendAt(children, p, target);
        children := children[p := children[p] + [target]];
      } else {
        assert Slot(nodes, nodeMap, parentOf, k) == None;
        roots := roots + [target];
      }
      LinkStep(nodes, nodeMap, parentOf, k, previous, children);
      k := k + 1;
    }
  }

  /** One step of the second loop on all the children lists at once. */
  lemma LinkStep(nodes: seq<ContextNode>, m: map<string, nat>, parentOf: string -> Option<string>, k: nat,
                 children: seq<seq<nat>>, children': seq<seq<nat>>)
    requires k < |nodes| && |children| == |nodes|
    requires forall p :: 0 <= p < |nodes| ==> children[p] == ChildrenUpTo(nodes, m, parentOf, p, k)
    requires var s := Slot(nodes, m, parentOf, k);
      children' == if s.Some? && s.value < |children| then children[s.value := children[s.value] + [Target(nodes, m, k)]]
                   else children
    ensures forall p :: 0 <= p < |nodes| ==> children'[p] == ChildrenUpTo(nodes, m, parentOf, p, k + 1)
  {
    forall p | 0 <= p < |nodes|
      ensures children'[p] == ChildrenUpTo(nodes, m, parentOf, p, k + 1)
    {
      ChildrenStep(nodes, m, parentOf, p, k);
    }
  }

  /** buildContextAsHierarchy on index lists: `children[p]` is the children
      list of the tree node for nodes[p] and `roots` the returned list.
      Each input node is placed once: under the node of its parent path
      when that path is present, else among the roots, in input order. */
  method BuildContextAsHierarchy(nodes: seq<ContextNode>) returns (children: seq<seq<nat>>, roots: seq<nat>)
    ensures |children| == |nodes|
    ensures roots == RootsUpTo(nodes, NodeMap(nodes), ParentPath, |nodes|)
    ensures forall p :: 0 <= p < |nodes| ==> children[p] == ChildrenUpTo(nodes, NodeMap(nodes), ParentPath, p, |nodes|)
    ensures |roots| + TotalLength(children) == |nodes|
  {
    var nodeMap := BuildNodeMap(nodes);
    children, roots := LinkNodes(nodes, nodeMap, ParentPath);
  }

  /** With duplicate paths the map keeps the last node with the path, and
      that node is what every duplicate attaches. */
  lemma TargetIsLast(nodes: seq<ContextNode>, k: nat)
    requires k < |nodes|
    ensures var t := Target(nodes, NodeMap(nodes), k);
      k <= t < |nodes| && nodes[t].path == nodes[k].path
      && forall j :: t < j < |nodes| ==> nodes[j].path != nodes[k].path
  {
    NodeMapLast(nodes);
  }

  predicate DistinctPaths(nodes: seq<ContextNode>) {
    forall i, j :: 0 <= i < j < |nodes| ==> nodes[i].path != nodes[j].path
  }

  /** For distinct paths every node is its own map entry. */
  lemma DistinctTargetsSelf(nodes: seq<ContextNode>)
    requires DistinctPaths(nodes)
    ensures forall j :: 0 <= j < |nodes| ==> Target(nodes, NodeMap(nodes), j) == j
  {
    forall j | 0 <= j < |nodes|
      ensures Target(nodes, NodeMap(nodes), j) == j
    {
      TargetIsLast(nodes, j);
    }
  }

  /** For distinct paths every node is placed exactly once: among the roots
      exactly when it has no present parent, and otherwise under exactly
      the node of its parent path. */
  lemma DistinctPlacedOnce(nodes: seq<ContextNode>, parentOf: string -> Option<string>, k: nat)
    requires DistinctPaths(nodes) && k < |nodes|
    ensures var m := NodeMap(nodes);
      (k in RootsUpTo(nodes, m, parentOf, |nodes|) <==> Slot(nodes, m, parentOf, k).None?)
      && forall p: nat :: k in ChildrenUpTo(nodes, m, parentOf, p, |nodes|) <==> Slot(nodes, m, parentOf, k) == Some(p)
  {
    var m := NodeMap(nodes);
    DistinctTargetsSelf(nodes);
    RootsMembers(nodes, m, parentOf, |nodes|, k);
    forall p: nat
      ensures k in ChildrenUpTo(nodes, m, parentOf, p, |nodes|) <==> Slot(nodes, m, parentOf, k) == Some(p)
    {
      ChildrenMembers(nodes, m, parentOf, p, |nodes|, k);
    }
  }

  predicate Increasing(c: seq<nat>) {
    forall i, j :: 0 <= i < j < |c| ==> c[i] < c[j]
  }

  /** For distinct paths the lists keep input order: positions strictly
      increase along every children list. */
  lemma {:induction false} DistinctChildrenOrdered(nodes: seq<ContextNode>, parentOf: string -> Option<string>, p: nat, u: nat)
    requires DistinctPaths(nodes) && u <= |nodes|
    ensures Increasing(ChildrenUpTo(nodes, NodeMap(nodes), parentOf, p, u))
    ensures forall x :: x in ChildrenUpTo(nodes, NodeMap(nodes), parentOf, p, u) ==> x < u
  {
    if u > 0 {
      var m := NodeMap(nodes);
      DistinctChildrenOrdered(nodes, parentOf, p, u - 1);
      DistinctTargetsSelf(nodes);
      var c0 := ChildrenUpTo(nodes, m, parentOf, p, u - 1);
      var extra := if Slot(nodes, m, parentOf, u - 1) == Some(p) then [u - 1] else [];
      assert Target(nodes, m, u - 1) == u - 1;
      var c := ChildrenUpTo(nodes, m, parentOf, p, u);
      assert c == c0 + extra;
      assert Increasing(c0);
      forall i, j | 0 <= i < j < |c| ensures c[i] < c[j] {
        assert c[i] == c0[i] && c0[i] in c0;
        if j < |c0| {
          assert c[j] == c0[j];
        } else {
          assert c[j] == u - 1;
        }
      }
      forall x | x in c ensures x < u {
        assert x in c0 || x in extra;
      }
    }
  }

  // ---------------------------------------------------------------------
  // upsertContextWithMainTaskId, upsertContext, upsertContextBatch

  /** The paths generateLabelFromPath can label: split(".") of a non-empty
      path made only of dots has no last part, and the array access throws. */
  predicate Labelable(path: string) {
    path == [] || HasOther(path, '.')
  }

  function UpsertFailure(mainTaskId: string, path: string): Failure {
    BusinessException("Failed to upsert context node for mainTaskId: " + mainTaskId + ", contextPath: " + path)
  }

  /** The new table and the node returned by upsertContextWithMainTaskId.
      The lookup (selectSingle, then Result.single) yields a row only when
      exactly one row has this task and path; none or several count as
      absent, and a new row is inserted.  `newId` stands for the UUID the
      insert draws. */
  function Upsert(rows: seq<ContextNode>, mainTaskId: string, path: string, value: Option<string>,
                  newId: string): (r: Result<(seq<ContextNode>, ContextNode)>)
    ensures r.Err? <==> |RowsAt(rows, mainTaskId, path)| != 1 && !Labelable(path)
    ensures r.Err? ==> r.error == UpsertFailure(mainTaskId, path)
    ensures r.Ok? ==> var (rows', node) := r.value;
      node.taskId == Some(mainTaskId) && node.path == path && node.value == value && node in rows'
  {
    var hits := RowsAt(rows, mainTaskId, path);
    if |hits| == 1 then
      var k := hits[0];
      assert k in hits;
      var node := rows[k].(value := value);
      assert rows[k := node][k] == node;
      Ok((rows[k := node], node))
    else if Labelable(path) then
      var node := ContextNode(newId, Some(mainTaskId), path, ContextLabel(path), "text", value);
      Ok((rows + [node], node))
    else Err(UpsertFailure(mainTaskId, path))
  }

  /** An existing node has only its value changed, in place; no other row
      changes and no row is added. */
  lemma UpsertUpdatesOnlyValue(rows: seq<ContextNode>, t: string, path: string, value: Option<string>, newId: string)
    requires |RowsAt(rows, t, path)| == 1
    ensures var k := RowsAt(rows, t, path)[0];
      && Upsert(rows, t, path, value, newId).Ok?
      && var (rows', node) := Upsert(rows, t, path, value, newId).value;
      && |rows'| == |rows|
      && node == rows[k].(value := value)
      && rows'[k] == node
      && forall j :: 0 <= j < |rows| && j != k ==> rows'[j] == rows[j]
  {
  }

  /** With no single match a labelled text node is appended. */
  lemma UpsertInserts(rows: seq<ContextNode>, t: string, path: string, value: Option<string>, newId: string)
    requires |RowsAt(rows, t, path)| != 1 && Labelable(path)
    ensures Upsert(rows, t, path, value, newId)
         == var node := ContextNode(newId, Some(t), path, ContextLabel(path), "text", value);
            Ok((rows + [node], node))
  {
  }

  /** The rows at a pair after appending one row. */
  lemma RowsAtSnoc(rows: seq<ContextNode>, node: ContextNode, t: string, path: string)
    ensures RowsAt(rows + [node], t, path)
         == RowsAt(rows, t, path) + (if node.taskId == Some(t) && node.path == path then [|rows|] else [])
  {
    assert (rows + [node])[..|rows|] == rows;
  }

  /** Upserting a fresh pair twice inserts once and then updates that row. */
  lemma UpsertTwice(rows: seq<ContextNode>, t: string, path: string, v1: Option<string>, v2: Option<string>,
                    id1: string, id2: string)
    requires RowsAt(rows, t, path) == [] && Labelable(path)
    ensures Upsert(rows, t, path, v1, id1).Ok?
    ensures var (rows1, node1) := Upsert(rows, t, path, v1, id1).value;
      Upsert(rows1, t, path, v2, id2) == Ok((rows + [node1.(value := v2)], node1.(value := v2)))
  {
    var node1 := ContextNode(id1, Some(t), path, ContextLabel(path), "text", v1);
    RowsAtSnoc(rows, node1, t, path);
    assert RowsAt(rows + [node1], t, path) == [|rows|];
    assert (rows + [node1])[|rows| := node1.(value := v2)] == rows + [node1.(value := v2)];
  }

  /** Once a pair has two rows every further upsert of it adds another:
      the duplicates are never merged. */
  lemma UpsertDuplicatesGrow(rows: seq<ContextNode>, t: string, path: string, value: Option<string>, newId: string)
    requires |RowsAt(rows, t, path)| >= 2 && Labelable(path)
    ensures Upsert(rows, t, path, value, newId).Ok?
    ensures |RowsAt(Upsert(rows, t, path, value, newId).value.0, t, path)| == |RowsAt(rows, t, path)| + 1
  {
    var node := ContextNode(newId, Some(t), path, ContextLabel(path), "text", value);
    RowsAtSnoc(rows, node, t, path);
  }

  /** upsertContextWithMainTaskId on the store. */
  method UpsertContextWithMainTaskId(db: Db, mainTaskId: string, path: string, value: Option<string>, newId: string)
    returns (r: Result<ContextNode>)
    modifies db
    ensures var u := Upsert(old(db.contextNodes), mainTaskId, path, value, newId);
      && (r.Ok? <==> u.Ok?)
      && (r.Ok? ==> r.value == u.value.1 && db.contextNodes == u.value.0)
      && (r.Err? ==> r.error == u.error && db.contextNodes == old(db.contextNodes))
    ensures db.tasks == old(db.tasks) && db.botInstances == old(db.botInstances)
    ensures db.botTypes == old(db.botTypes) && db.messages == old(db.messages)
  {
    var hits := RowsAt(db.contextNodes, mainTaskId, path);
    if |hits| == 1 {
      var node := db.contextNodes[hits[0]].(value := value);
      db.contextNodes := db.contextNodes[hits[0] := node];
      r := Ok(node);
    } else if path == [] || HasOther(path, '.') {
      var node := ContextNode(newId, Some(mainTaskId), path, ContextLabel(path), "text", value);
      db.contextNodes := db.contextNodes + [node];
      r := Ok(node);
    } else {
      r := Err(UpsertFailure(mainTaskId, path));
    }
  }

  /** upsertContext: the main task of the bot instance, then the upsert.
      A failing walk is not wrapped. */
  method UpsertContext(db: Db, botInstanceId: string, path: string, value: Option<string>, newId: string,
                       ghost fuel: nat) returns (r: Result<ContextNode>)
    requires CqnCommon.MainTaskId(db.tasks, db.botInstances, botInstanceId, fuel).Some?
    modifies db
    ensures var m := CqnCommon.MainTaskId(old(db.tasks), old(db.botInstances), botInstanceId, fuel).value;
      && (m.Err? ==> r == Err(m.error) && db.contextNodes == old(db.contextNodes))
      && (m.Ok? ==> var u := Upsert(old(db.contextNodes), m.value, path, value, newId);
            && (r.Ok? <==> u.Ok?)
            && (r.Ok? ==> r.value == u.value.1 && db.contextNodes == u.value.0)
            && (r.Err? ==> r == Err(u.error) && db.contextNodes == old(db.contextNodes)))
    ensures db.tasks == old(db.tasks) && db.botInstances == old(db.botInstances)
    ensures db.botTypes == old(db.botTypes) && db.messages == old(db.messages)
  {
    var mainTaskId := CqnCommon.GetMainTaskId(db, botInstanceId, fuel);
    if mainTaskId.Err? {
      return Err(mainTaskId.error);
    }
    r := UpsertContextWithMainTaskId(db, mainTaskId.value, path, value, newId);
  }

  /** The table and the result list after the batch loop has run over
      `entries`, the walk having given `main`: failed entries are skipped. */
  function Batch(rows: seq<ContextNode>, main: Result<string>, entries: seq<(string, Option<string>)>,
                 newIds: seq<string>): (r: (seq<ContextNode>, seq<ContextNode>))
    requires |newIds| == |entries|
    ensures |r.1| <= |entries|
    decreases |entries|
  {
    if entries == [] then (rows, [])
    else
      var n := |entries| - 1;
      var (rows0, results0) := Batch(rows, main, entries[..n], newIds[..n]);
      if main.Err? then (rows0, results0)
      else match Upsert(rows0, main.value, entries[n].0, entries[n].1, newIds[n])
        case Ok((rows1, node)) => (rows1, results0 + [node])
        case Err(_) => (rows0, results0)
  }

  /** When the walk to the main task fails every entry fails: nothing is
      written and the list is empty. */
  lemma {:induction false} BatchWithoutMainTask(rows: seq<ContextNode>, e: Failure,
                                                entries: seq<(string, Option<string>)>, newIds: seq<string>)
    requires |newIds| == |entries|
    ensures Batch(rows, Err(e), entries, newIds) == (rows, [])
    decreases |entries|
  {
    if entries != [] {
      var n := |entries| - 1;
      BatchWithoutMainTask(rows, e, entries[..n], newIds[..n]);
    }
  }

  /** With a main task and only labelable paths no entry fails: one node
      per entry, in entry order, each at its entry's path with its value. */
  lemma {:induction false} BatchAllSucceed(rows: seq<ContextNode>, t: string,
                                           entries: seq<(string, Option<string>)>, newIds: seq<string>)
    requires |newIds| == |entries|
    requires forall k :: 0 <= k < |entries| ==> Labelable(entries[k].0)
    ensures var results := Batch(rows, Ok(t), entries, newIds).1;
      && |results| == |entries|
      && forall k :: 0 <= k < |entries| ==>
           results[k].path == entries[k].0 && results[k].value == entries[k].1 && results[k].taskId == Some(t)
    decreases |entries|
  {
    if entries != [] {
      var n := |entries| - 1;
      BatchAllSucceed(rows, t, entries[..n], newIds[..n]);
      var (rows0, results0) := Batch(rows, Ok(t), entries[..n], newIds[..n]);
      assert entries[..n][..n] == entries[..n];
      assert Labelable(entries[n].0);
      var u := Upsert(rows0, t, entries[n].0, entries[n].1, newIds[n]);
      assert u.Ok?;
      var results := Batch(rows, Ok(t), entries, newIds).1;
      assert results == results0 + [u.value.1];
      forall k | 0 <= k < |entries|
        ensures results[k].path == entries[k].0 && results[k].value == entries[k].1 && results[k].taskId == Some(t)
      {
        if k < n {
          assert results[k] == results0[k] && entries[k] == entries[..n][k];
        }
      }
    }
  }

  /** upsertContextBatch: each entry upserted in turn, a failing entry
      logged and skipped.  The walk reads only tasks and bot instances,
      which the upserts leave alone, so every entry sees the same main
      task.  `newIds[k]` is the UUID entry k would insert with. */
  method UpsertContextBatch(db: Db, botInstanceId: string, entries: seq<(string, Option<string>)>,
                            newIds: seq<string>, ghost fuel: nat) returns (results: seq<ContextNode>)
    requires |newIds| == |entries|
    requires CqnCommon.MainTaskId(db.tasks, db.botInstances, botInstanceId, fuel).Some?
    modifies db
    ensures var m := CqnCommon.MainTaskId(old(db.tasks), old(db.botInstances), botInstanceId, fuel).value;
      (db.contextNodes, results) == Batch(old(db.contextNodes), m, entries, newIds)
    ensures db.tasks == old(db.tasks) && db.botInstances == old(db.botInstances)
    ensures db.botTypes == old(db.botTypes) && db.messages == old(db.messages)
  {
    ghost var m := CqnCommon.MainTaskId(db.tasks, db.botInstances, botInstanceId, fuel).value;
    ghost var rows := db.contextNodes;
    results := [];
    var i := 0;
    while i < |entries|
      invariant 0 <= i <= |entries|
      invariant db.tasks == old(db.tasks) && db.botInstances == old(db.botInstances)
      invariant db.botTypes == old(db.botTypes) && db.messages == old(db.messages)
      invariant (db.contextNodes, results) == Batch(rows, m, entries[..i], newIds[..i])
    {
      assert entries[..i + 1][..i] == entries[..i] && newIds[..i + 1][..i] == newIds[..i];
      assert entries[..i + 1][i] == entries[i] && newIds[..i + 1][i] == newIds[i];
      var node := UpsertContext(db, botInstanceId, entries[i].0, entries[i].1, newIds[i], fuel);
      if node.Ok? {
        results := results + [node.value];
      }
      i := i + 1;
    }
    assert entries[..|entries|] == entries && newIds[..|newIds|] == newIds;
  }
}
