/** webapp/controller/TaskDetail.controller.js: selecting a node of the
    task tree fetches its children (the tasks of a bot instance, or the bot
    instances of a task that is not main), tags them with their tree type
    and merges them into the node's `nodes` list without repeating an ID;
    and the Create button of the context-node dialog is enabled only when
    all four inputs hold some non-blank text. */
module TaskDetail {
  import opened Wrappers

  /** A fetched row as the tree holds it: its ID, the `type` tag the
      handler adds (absent on a fresh row), and the rest of the row. */
  datatype Item = Item(id: string, kind: Option<string>, rest: string)

  /** `aContexts.map(...)`: each row gets the tree type `kind`. */
  function Tag(items: seq<Item>, kind: string): (r: seq<Item>)
    ensures |r| == |items|
    ensures forall k :: 0 <= k < |r| ==>
      r[k].kind == Some(kind) && r[k].id == items[k].id && r[k].rest == items[k].rest
  {
    seq(|items|, k requires 0 <= k < |items| => items[k].(kind := Some(kind)))
  }

  /** `nodes.some(existing => existing.ID === item.ID)`. */
  predicate HasId(list: seq<Item>, id: string) {
    exists k :: 0 <= k < |list| && list[k].id == id
  }

  predicate DistinctIds(list: seq<Item>) {
    forall i, j :: 0 <= i < j < |list| ==> list[i].id != list[j].id
  }

  /** The list after the forEach loop has seen `fetched`: an item is pushed
      unless the list already holds its ID, counting items pushed earlier
      in the same loop. */
  function Merge(existing: seq<Item>, fetched: seq<Item>): (r: seq<Item>)
    ensures |existing| <= |r| <= |existing| + |fetched|
    ensures r[..|existing|] == existing
    ensures forall x :: x in r ==> x in existing || x in fetched
    decreases |fetched|
  {
    if fetched == [] then existing
    else
      var n := |fetched| - 1;
      var acc := Merge(existing, fetched[..n]);
      if HasId(acc, fetched[n].id) then acc else acc + [fetched[n]]
  }

  // ---------------------------------------------------------------------
  // An independent description of the merge

  /** Item k of the batch is pushed exactly when its ID is neither among
      the existing children nor on an earlier item of the batch. */
  predicate KeptAt(existing: seq<Item>, fetched: seq<Item>, k: nat)
    requires k < |fetched|
  {
    !HasId(existing, fetched[k].id) && forall j :: 0 <= j < k ==> fetched[j].id != fetched[k].id
  }

  /** The batch items with KeptAt, in batch order. */
  function Kept(existing: seq<Item>, fetched: seq<Item>): seq<Item>
    decreases |fetched|
  {
    if fetched == [] then []
    else
      var n := |fetched| - 1;
      Kept(existing, fetched[..n]) + (if KeptAt(existing, fetched, n) then [fetched[n]] else [])
  }

  /** Appending one item adds exactly its ID. */
  lemma HasIdSnoc(list: seq<Item>, y: Item, x: string)
    ensures HasId(list + [y], x) <==> HasId(list, x) || y.id == x
  {
    if HasId(list, x) {
      var k :| 0 <= k < |list| && list[k].id == x;
      assert (list + [y])[k] == list[k];
    }
    if y.id == x {
      assert (list + [y])[|list|] == y;
    }
    if HasId(list + [y], x) && y.id != x {
      var k :| 0 <= k < |list + [y]| && (list + [y])[k].id == x;
      assert list[k] == (list + [y])[k];
    }
  }

  /** The merged list holds an ID exactly when the existing children or the
      batch do. */
  lemma {:induction false} MergeIds(existing: seq<Item>, fetched: seq<Item>, x: string)
    ensures HasId(Merge(existing, fetched), x) <==> HasId(existing, x) || HasId(fetched, x)
    decreases |fetched|
  {
    if fetched != [] {
      var n := |fetched| - 1;
      var acc := Merge(existing, fetched[..n]);
      MergeIds(existing, fetched[..n], x);
      MergeIds(existing, fetched[..n], fetched[n].id);
      HasIdSnoc(acc, fetched[n], x);
      HasIdSnoc(fetched[..n], fetched[n], x);
      assert fetched[..n] + [fetched[n]] == fetched;
    }
  }

  /** The merge is the existing children followed by the kept batch items:
      existing children keep their places and order, accepted items follow
      in fetch order. */
  lemma {:induction false} MergeIsKept(existing: seq<Item>, fetched: seq<Item>)
    ensures Merge(existing, fetched) == existing + Kept(existing, fetched)
    decreases |fetched|
  {
    if fetched != [] {
      var n := |fetched| - 1;
      var prefix := fetched[..n];
      MergeIsKept(existing, prefix);
      MergeIds(existing, prefix, fetched[n].id);
      assert HasId(prefix, fetched[n].id) <==> exists j :: 0 <= j < n && fetched[j].id == fetched[n].id by {
        assert forall j :: 0 <= j < n ==> prefix[j] == fetched[j];
      }
    }
  }

  /** Existing children stay in front, unchanged. */
  lemma MergeKeepsExisting(existing: seq<Item>, fetched: seq<Item>)
    ensures |existing| <= |Merge(existing, fetched)|
    ensures Merge(existing, fetched)[..|existing|] == existing
  {
    MergeIsKept(existing, fetched);
  }

  /** Distinct IDs stay distinct. */
  lemma {:induction false} MergeDistinct(existing: seq<Item>, fetched: seq<Item>)
    requires DistinctIds(existing)
    ensures DistinctIds(Merge(existing, fetched))
    decreases |fetched|
  {
    if fetched != [] {
      var n := |fetched| - 1;
      var acc := Merge(existing, fetched[..n]);
      MergeDistinct(existing, fetched[..n]);
      if !HasId(acc, fetched[n].id) {
        var r := acc + [fetched[n]];
        forall i, j | 0 <= i < j < |r| ensures r[i].id != r[j].id {
          if j < |acc| {
            assert r[i] == acc[i] && r[j] == acc[j];
          } else {
            assert r[i] == acc[i];
          }
        }
      }
    }
  }

  /** A batch whose every ID is already present changes nothing. */
  lemma {:induction false} MergeNothingNew(existing: seq<Item>, fetched: seq<Item>)
    requires forall k :: 0 <= k < |fetched| ==> HasId(existing, fetched[k].id)
    ensures Merge(existing, fetched) == existing
    decreases |fetched|
  {
    if fetched != [] {
      var n := |fetched| - 1;
      assert forall k :: 0 <= k < n ==> fetched[..n][k] == fetched[k];
      MergeNothingNew(existing, fetched[..n]);
    }
  }

  /** Merging the same batch again leaves the list as it is. */
  lemma MergeIdempotent(existing: seq<Item>, fetched: seq<Item>)
    ensures Merge(Merge(existing, fetched), fetched) == Merge(existing, fetched)
  {
    var m := Merge(existing, fetched);
    forall k | 0 <= k < |fetched| ensures HasId(m, fetched[k].id) {
      MergeIds(existing, fetched, fetched[k].id);
    }
    MergeNothingNew(m, fetched);
  }

  // ---------------------------------------------------------------------
  // The selected tree node

  /** The data object of the selected tree row (`oNewParent`), with the
      properties the handler reads and the `nodes` list it writes. */
  class TreeNode {
    var id: string
    var kind: string
    var isMain: Option<bool>
    var nodes: Option<seq<Item>>

    constructor (id: string, kind: string, isMain: Option<bool>, nodes: Option<seq<Item>>)
      ensures this.id == id && this.kind == kind && this.isMain == isMain && this.nodes == nodes
    {
      this.id := id;
      this.kind := kind;
      this.isMain := isMain;
      this.nodes := nodes;
    }

    /** The forEach loop: each tagged item is pushed unless some child
        already has its ID. */
    method MergeChildren(fetched: seq<Item>)
      requires nodes.Some?
      modifies this
      ensures nodes == Some(Merge(old(nodes.value), fetched))
      ensures id == old(id) && kind == old(kind) && isMain == old(isMain)
    {
      var i := 0;
      while i < |fetched|
        invariant 0 <= i <= |fetched|
        invariant id == old(id) && kind == old(kind) && isMain == old(isMain)
        invariant nodes == Some(Merge(old(nodes.value), fetched[..i]))
      {
        assert fetched[..i + 1][..i] == fetched[..i];
        var item := fetched[i];
        var isDuplicate := HasId(nodes.value, item.id);
        if !isDuplicate {
          nodes := Some(nodes.value + [item]);
        }
        i := i + 1;
      }
      assert fetched[..|fetched|] == fetched;
    }

    /** onTaskSelect once the children have been fetched (`fetched`): the
        list is created when absent; a bot node takes its tasks, a task
        with isMain false its bot instances; any other node is left with
        its list.  Before the loop the handler evaluates a stray `some`
        over the list that reads the undeclared `newItem`: on a non-empty
        list that throws and nothing is merged. */
    method OnTaskSelect(fetched: seq<Item>) returns (r: Result<()>)
      modifies this
      ensures id == old(id) && kind == old(kind) && isMain == old(isMain)
      ensures (r, nodes) == (SelectOutcome(kind, isMain, old(nodes), fetched).0,
                             Some(SelectOutcome(kind, isMain, old(nodes), fetched).1))
    {
      if nodes.None? {
        nodes := Some([]);
      }
      if kind == "bot" || isMain == Some(false) {
        var tagged := Tag(fetched, if kind == "bot" then "task" else "bot");
        assert tagged == Tag(fetched, ChildKind(kind));
        if |nodes.value| > 0 {
          return Err(ReferenceError("newItem is not defined"));
        }
        MergeChildren(tagged);
      }
      r := Ok(());
    }
  }

  /** The tree type given to the children of a node of type `kind`. */
  function ChildKind(kind: string): string {
    if kind == "bot" then "task" else "bot"
  }

  /** Whether onTaskSelect fetches children for the node at all. */
  predicate Fetches(kind: string, isMain: Option<bool>) {
    kind == "bot" || isMain == Some(false)
  }

  /** The outcome of onTaskSelect as written, and the node's list after it. */
  function SelectOutcome(kind: string, isMain: Option<bool>, nodes: Option<seq<Item>>, fetched: seq<Item>)
    : (r: (Result<()>, seq<Item>))
    ensures r.0.Err? <==> Fetches(kind, isMain) && nodes.GetOr([]) != []
    ensures r.0.Err? || !Fetches(kind, isMain) ==> r.1 == nodes.GetOr([])
  {
    var before := nodes.GetOr([]);
    if !Fetches(kind, isMain) then (Ok(()), before)
    else if before != [] then (Err(ReferenceError("newItem is not defined")), before)
    else (Ok(()), Merge([], Tag(fetched, ChildKind(kind))))
  }

  /** The stray check makes the handler drop children the merge loop would
      have added: once a node has children, a fetched item with a new ID is
      never shown. */
  lemma StrayCheckLosesChildren(kind: string, isMain: Option<bool>, before: seq<Item>, fetched: seq<Item>, k: nat)
    requires Fetches(kind, isMain) && before != []
    requires k < |fetched| && !HasId(before, fetched[k].id)
    ensures SelectOutcome(kind, isMain, Some(before), fetched).1 != Merge(before, Tag(fetched, ChildKind(kind)))
  {
    var tagged := Tag(fetched, ChildKind(kind));
    assert tagged[k].id == fetched[k].id;
    MergeIds(before, tagged, fetched[k].id);
  }

  /** The intended handler: the merge loop alone, without the stray check. */
  function IntendedOutcome(kind: string, isMain: Option<bool>, nodes: Option<seq<Item>>, fetched: seq<Item>)
    : (r: seq<Item>)
  {
    if Fetches(kind, isMain) then Merge(nodes.GetOr([]), Tag(fetched, ChildKind(kind))) else nodes.GetOr([])
  }

  /** The intended handler keeps the existing children in front, adds every
      fetched ID once and is idempotent: selecting the same node twice with
      the same rows shows the same list. */
  lemma IntendedOutcomeProperties(kind: string, isMain: Option<bool>, nodes: Option<seq<Item>>, fetched: seq<Item>)
    ensures var r := IntendedOutcome(kind, isMain, nodes, fetched);
      && |nodes.GetOr([])| <= |r| && r[..|nodes.GetOr([])|] == nodes.GetOr([])
      && (Fetches(kind, isMain) ==> forall k :: 0 <= k < |fetched| ==> HasId(r, fetched[k].id))
      && IntendedOutcome(kind, isMain, Some(r), fetched) == r
  {
    var before := nodes.GetOr([]);
    if Fetches(kind, isMain) {
      var tagged := Tag(fetched, ChildKind(kind));
      MergeKeepsExisting(before, tagged);
      forall k | 0 <= k < |fetched| ensures HasId(Merge(before, tagged), fetched[k].id) {
        assert tagged[k].id == fetched[k].id;
        MergeIds(before, tagged, fetched[k].id);
      }
      MergeIdempotent(before, tagged);
    } else {
      assert before[..|before|] == before;
    }
  }

  /** On a node without children the handler as written and the intended
      one agree. */
  lemma OutcomesAgreeWhenEmpty(kind: string, isMain: Option<bool>, fetched: seq<Item>)
    ensures SelectOutcome(kind, isMain, Some([]), fetched).1 == IntendedOutcome(kind, isMain, Some([]), fetched)
    ensures SelectOutcome(kind, isMain, None, fetched).1 == IntendedOutcome(kind, isMain, None, fetched)
  {
  }

  // ---------------------------------------------------------------------
  // _validateCNCreateForm

  /** The characters String.prototype.trim removes: ECMAScript WhiteSpace
      and LineTerminator. */
  predicate IsJsSpace(c: char) {
    || c == '\t' || c == '\n' || c == '\U{000B}' || c == '\U{000C}' || c == '\r' || c == ' '
    || c == '\U{00A0}' || c == '\U{1680}' || ('\U{2000}' <= c <= '\U{200A}')
    || c == '\U{2028}' || c == '\U{2029}' || c == '\U{202F}' || c == '\U{205F}'
    || c == '\U{3000}' || c == '\U{FEFF}'
  }

  function TrimStart(s: string): (r: string)
    ensures |r| <= |s| && r == s[|s| - |r|..]
    ensures r != [] ==> !IsJsSpace(r[0])
    ensures forall k :: 0 <= k < |s| - |r| ==> IsJsSpace(s[k])
  {
    if s != [] && IsJsSpace(s[0]) then TrimStart(s[1..]) else s
  }

  function TrimEnd(s: string): (r: string)
    ensures |r| <= |s| && r == s[..|r|]
    ensures r != [] ==> !IsJsSpace(r[|r| - 1])
    ensures forall k :: |r| <= k < |s| ==> IsJsSpace(s[k])
  {
    if s != [] && IsJsSpace(s[|s| - 1]) then TrimEnd(s[..|s| - 1]) else s
  }

  /** String.prototype.trim. */
  function JsTrim(s: string): string {
    TrimEnd(TrimStart(s))
  }

  /** A trimmed value is non-empty exactly when the text has a character
      trim does not remove. */
  lemma JsTrimNonEmpty(s: string)
    ensures |JsTrim(s)| > 0 <==> exists k :: 0 <= k < |s| && !IsJsSpace(s[k])
  {
    var a := TrimStart(s);
    var b := TrimEnd(a);
    if |b| > 0 {
      assert !IsJsSpace(s[|s| - |a|]);
    }
    if exists k :: 0 <= k < |s| && !IsJsSpace(s[k]) {
      var k :| 0 <= k < |s| && !IsJsSpace(s[k]);
      assert |s| - |a| <= k;
      assert !IsJsSpace(a[k - (|s| - |a|)]);
    }
  }

  /** The value of one input counts as filled. */
  predicate Filled(input: Option<string>) {
    input.Some? && |JsTrim(input.value)| > 0
  }

  /** The button state the validator sets: `every` input exists (byId
      found it) and its trimmed value is non-empty. */
  function CreateEnabled(inputs: seq<Option<string>>): (r: bool)
    ensures r ==> forall k :: 0 <= k < |inputs| ==> inputs[k].Some?
    ensures None in inputs || Some("") in inputs ==> !r
  {
    forall k :: 0 <= k < |inputs| ==> Filled(inputs[k])
  }

  /** An input is filled exactly when it exists and has a character other
      than white space. */
  lemma FilledIff(input: Option<string>)
    ensures Filled(input) <==> input.Some? && exists i :: 0 <= i < |input.value| && !IsJsSpace(input.value[i])
  {
    if input.Some? {
      JsTrimNonEmpty(input.value);
    }
  }

  /** The create button is enabled exactly when every one of the inputs
      exists and holds a character other than white space. */
  lemma CreateEnabledIff(inputs: seq<Option<string>>)
    ensures CreateEnabled(inputs) <==>
            forall k :: 0 <= k < |inputs| ==>
              inputs[k].Some? && exists i :: 0 <= i < |inputs[k].value| && !IsJsSpace(inputs[k].value[i])
  {
    forall k | 0 <= k < |inputs| {
      FilledIff(inputs[k]);
    }
  }
}
