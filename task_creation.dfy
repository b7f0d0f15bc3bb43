/** The createTaskWithBots action handler (createTaskWithBotsHandler):
    the before phase validates the type ID and the name, the on phase
    inserts the main task, and the after phase creates one bot instance per
    bot type of its task type and a context node holding the
    description. */
module TaskCreation {
  import opened Wrappers
  import opened JavaText
  import opened Store

  /** The action's parameters; each may be null. */
  datatype CreateTaskWithBotsContext = CreateTaskWithBotsContext(
    typeId: Option<string>,
    name: Option<string>,
    description: Option<string>)

  const TYPE_REQUIRED: string := "Task type ID is required."
  const NAME_REQUIRED: string := "Task name is required."
  const CREATED: string := "C"

  predicate Missing(s: Option<string>) {
    s.None? || TrimEmpty(s.value)
  }

  /** beforeCreateTaskWithBots: the type ID first, then the name; the
      description is not checked. */
  function Before(ctx: CreateTaskWithBotsContext): (r: Result<()>)
    ensures r.Ok? <==> !Missing(ctx.typeId) && !Missing(ctx.name)
    ensures r.Err? ==> r.error == BusinessException(if Missing(ctx.typeId) then TYPE_REQUIRED else NAME_REQUIRED)
  {
    if Missing(ctx.typeId) then Err(BusinessException(TYPE_REQUIRED))
    else if Missing(ctx.name) then Err(BusinessException(NAME_REQUIRED))
    else Ok(())
  }

  /** onCreateTaskWithBots: the main task, with no context path and
      sequence 0, keeping the parameters untrimmed. */
  function MainTask(ctx: CreateTaskWithBotsContext, taskId: string): Task
    requires Before(ctx).Ok?
  {
    Task(taskId, ctx.name.value, ctx.description, ctx.typeId.value, Some(true), None, None, 0)
  }

  /** The bot types of a task type, in table order. */
  function BotTypesOf(types: seq<BotType>, taskTypeId: string): (r: seq<BotType>)
    ensures |r| <= |types|
    ensures forall t :: t in r <==> t in types && t.taskTypeId == taskTypeId
  {
    if types == [] then []
    else
      BotTypesOf(types[..|types| - 1], taskTypeId)
      + (if types[|types| - 1].taskTypeId == taskTypeId then [types[|types| - 1]] else [])
  }

  /** The bot instance created for one bot type: the type's sequence, the
      Created status, no result yet. */
  function NewInstance(bt: BotType, id: string, taskId: string): BotInstance {
    BotInstance(id, Some(taskId), bt.id, bt.sequence, CREATED, None)
  }

  /** The instance table after inserting one new instance per bot type,
      the k-th under ids[k]. */
  function WithInstances(insts: map<string, BotInstance>, bts: seq<BotType>, ids: seq<string>, taskId: string)
    : map<string, BotInstance>
    requires |ids| == |bts|
  {
    if bts == [] then insts
    else
      var n := |bts| - 1;
      WithInstances(insts, bts[..n], ids[..n], taskId)[ids[n] := NewInstance(bts[n], ids[n], taskId)]
  }

  predicate Distinct(ids: seq<string>) {
    forall j, k :: 0 <= j < k < |ids| ==> ids[j] != ids[k]
  }

  /** The IDs of `ids`, as a set. */
  function IdSet(ids: seq<string>): set<string> {
    set k | 0 <= k < |ids| :: ids[k]
  }

  /** `r` is `insts` with the k-th bot type's instance added under ids[k]. */
  predicate InstancesAdded(insts: map<string, BotInstance>, r: map<string, BotInstance>, bts: seq<BotType>,
                           ids: seq<string>, taskId: string)
    requires |ids| == |bts|
  {
    && r.Keys == insts.Keys + IdSet(ids)
    && (forall x :: x in insts ==> r[x] == insts[x])
    && forall k :: 0 <= k < |ids| ==> r[ids[k]] == NewInstance(bts[k], ids[k], taskId)
  }

  lemma IdSetSnoc(ids: seq<string>)
    requires ids != []
    ensures IdSet(ids) == IdSet(ids[..|ids| - 1]) + {ids[|ids| - 1]}
  {
    var n := |ids| - 1;
    forall x | x in IdSet(ids) ensures x in IdSet(ids[..n]) + {ids[n]} {
      var k :| 0 <= k < |ids| && ids[k] == x;
      if k < n { assert ids[..n][k] == x; }
    }
    forall x | x in IdSet(ids[..n]) ensures x in IdSet(ids) {
      var k :| 0 <= k < n && ids[..n][k] == x;
      assert ids[k] == x;
    }
  }

  /** With fresh, distinct IDs, the old instances stay as they were, and
      the instance under ids[k] is the one made for the k-th bot type. */
  lemma {:induction false} WithInstancesContents(insts: map<string, BotInstance>, bts: seq<BotType>,
                                                 ids: seq<string>, taskId: string)
    requires |ids| == |bts| && Distinct(ids)
    requires forall k :: 0 <= k < |ids| ==> ids[k] !in insts
    ensures InstancesAdded(insts, WithInstances(insts, bts, ids, taskId), bts, ids, taskId)
  {
    if bts != [] {
      var n := |bts| - 1;
      WithInstancesContents(insts, bts[..n], ids[..n], taskId);
      IdSetSnoc(ids);
      var prev := WithInstances(insts, bts[..n], ids[..n], taskId);
      var r := prev[ids[n] := NewInstance(bts[n], ids[n], taskId)];
      assert r == WithInstances(insts, bts, ids, taskId);
      forall k | 0 <= k < |ids| ensures r[ids[k]] == NewInstance(bts[k], ids[k], taskId) {
        if k < n {
          assert ids[..n][k] == ids[k] && bts[..n][k] == bts[k];
        }
      }
    }
  }

  /** The context node of the new task: path, label, type and value all
      hold the description. Its ID is a parameter. */
  function DescriptionNode(nodeId: string, taskId: string, description: Option<string>): ContextNode {
    var d := description.GetOr("");
    ContextNode(nodeId, Some(taskId), d, d, d, description)
  }

  /** The whole action: nothing changes when the before phase rejects the
      parameters; otherwise the main task is inserted, then one bot
      instance per bot type of its task type in table order (under
      `instanceIds`), then the description's context node. */
  method CreateTaskWithBots(db: Db, ctx: CreateTaskWithBotsContext, taskId: string,
                            instanceIds: seq<string>, nodeId: string) returns (r: Result<Task>)
    requires ctx.typeId.Some? ==> |instanceIds| == |BotTypesOf(db.botTypes, ctx.typeId.value)|
    modifies db
    ensures db.botTypes == old(db.botTypes) && db.messages == old(db.messages)
    ensures r == (match Before(ctx) case Err(e) => Err(e) case Ok(_) => Ok(MainTask(ctx, taskId)))
    ensures r.Err? ==> db.tasks == old(db.tasks) && db.botInstances == old(db.botInstances)
                       && db.contextNodes == old(db.contextNodes)
    ensures r.Ok? ==> && db.tasks == old(db.tasks)[taskId := r.value]
                      && db.botInstances == WithInstances(old(db.botInstances), BotTypesOf(db.botTypes, ctx.typeId.value),
                                                          instanceIds, taskId)
                      && db.contextNodes == old(db.contextNodes) + [DescriptionNode(nodeId, taskId, r.value.description)]
  {
    var checked := Before(ctx);
    if checked.Err? {
      return Err(checked.error);
    }
    var task := MainTask(ctx, taskId);
    db.tasks := db.tasks[taskId := task];
    var bts := BotTypesOf(db.botTypes, task.typeId);
    for k := 0 to |bts|
      invariant db.botInstances == WithInstances(old(db.botInstances), bts[..k], instanceIds[..k], taskId)
      invariant db.tasks == old(db.tasks)[taskId := task]
      invariant db.botTypes == old(db.botTypes) && db.messages == old(db.messages)
      invariant db.contextNodes == old(db.contextNodes)
    {
      assert bts[..k + 1][..k] == bts[..k] && instanceIds[..k + 1][..k] == instanceIds[..k];
      db.botInstances := db.botInstances[instanceIds[k] := NewInstance(bts[k], instanceIds[k], taskId)];
    }
    assert bts[..|bts|] == bts && instanceIds[..|bts|] == instanceIds;
    db.contextNodes := db.contextNodes + [DescriptionNode(nodeId, taskId, task.description)];
    r := Ok(task);
  }

  /** After a successful action with fresh, distinct instance IDs, each
      bot type of its task type has its own Created instance of the new
      task, carrying that type's ID and sequence; no other instance
      changes. */
  lemma BotPerType(insts: map<string, BotInstance>, types: seq<BotType>, ctx: CreateTaskWithBotsContext,
                   taskId: string, ids: seq<string>)
    requires Before(ctx).Ok?
    requires |ids| == |BotTypesOf(types, ctx.typeId.value)| && Distinct(ids)
    requires forall k :: 0 <= k < |ids| ==> ids[k] !in insts
    ensures var bts := BotTypesOf(types, ctx.typeId.value);
      var r := WithInstances(insts, bts, ids, taskId);
      && (forall x :: x in insts ==> x in r && r[x] == insts[x])
      && (forall x :: x in r && x !in insts ==> exists k :: 0 <= k < |ids| && ids[k] == x)
      && forall k :: 0 <= k < |ids| ==>
           && ids[k] in r && r[ids[k]].taskId == Some(taskId) && r[ids[k]].statusCode == CREATED
           && bts[k] in types && bts[k].taskTypeId == ctx.typeId.value
           && r[ids[k]].typeId == bts[k].id && r[ids[k]].sequence == bts[k].sequence
  {
    var bts := BotTypesOf(types, ctx.typeId.value);
    WithInstancesContents(insts, bts, ids, taskId);
    var r := WithInstances(insts, bts, ids, taskId);
    forall x | x in r && x !in insts ensures exists k :: 0 <= k < |ids| && ids[k] == x {
      assert x in IdSet(ids);
    }
    forall k | 0 <= k < |ids| ensures bts[k] in types && bts[k].taskTypeId == ctx.typeId.value {
      assert bts[k] in bts;
    }
  }

  /** The new task's context node carries its description everywhere, and
      a null description leaves the value null. */
  lemma DescriptionNodeHoldsDescription(nodeId: string, taskId: string, description: Option<string>)
    ensures var n := DescriptionNode(nodeId, taskId, description);
      && n.value == description && n.taskId == Some(taskId)
      && (description.Some? ==> n.path == description.value && n.labelText == description.value
                                && n.kind == description.value)
  {
  }
}
