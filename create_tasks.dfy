/** The create-tasks bot execution (CreateTasksBotExecution.execute):
    validates its arguments, then creates one task per parameter through
    the task-creation service, validating each parameter just before its task. */
module CreateTasks {
  import opened Wrappers

  /** A TaskCreationParam; every field may be null. */
  datatype TaskCreationParam = TaskCreationParam(
    sequence: Option<int>,
    name: Option<string>,
    description: Option<string>,
    contextPath: Option<string>)

  /** One call of the task-creation service's createTaskWithBots. */
  datatype Call = Call(botInstanceId: string, name: string, description: string, contextPath: Option<string>, sequence: int)

  const NO_PARAMETERS: string := "Task creation parameters cannot be null or empty"
  const NO_BOT_INSTANCE: string := "Bot instance ID cannot be null or empty"
  const INCOMPLETE_PARAMETER: string := "Task creation parameters must include sequence, name, and description"

  /** The parameter carries a sequence, a name and a description; the
      context path may be null. */
  predicate Complete(p: TaskCreationParam) {
    p.sequence.Some? && p.name.Some? && p.description.Some?
  }

  /** The position of the first parameter that is not complete, |ps| if
      there is none. */
  function FirstIncomplete(ps: seq<TaskCreationParam>): (k: nat)
    ensures k <= |ps|
    ensures forall j :: 0 <= j < k ==> Complete(ps[j])
    ensures k < |ps| ==> !Complete(ps[k])
  {
    if ps == [] then 0
    else if !Complete(ps[0]) then 0
    else 1 + FirstIncomplete(ps[1..])
  }

  function CallOf(botInstanceId: string, p: TaskCreationParam): Call
    requires Complete(p)
  {
    Call(botInstanceId, p.name.value, p.description.value, p.contextPath, p.sequence.value)
  }

  /** The task-creation service calls for complete parameters, in order. */
  function CallsFor(botInstanceId: string, ps: seq<TaskCreationParam>): (cs: seq<Call>)
    requires forall j :: 0 <= j < |ps| ==> Complete(ps[j])
    ensures |cs| == |ps|
    ensures forall j :: 0 <= j < |ps| ==> cs[j] == CallOf(botInstanceId, ps[j])
  {
    if ps == [] then []
    else CallsFor(botInstanceId, ps[..|ps| - 1]) + [CallOf(botInstanceId, ps[|ps| - 1])]
  }

  /** The parameter is complete and the task-creation service creates its
      task; `create` is createTaskWithBots followed by getTask().getId(),
      which may fail (an unknown bot instance, say). */
  predicate Created(botInstanceId: string, create: Call -> Result<string>, p: TaskCreationParam) {
    Complete(p) && create(CallOf(botInstanceId, p)).Ok?
  }

  /** The position of the first parameter that is incomplete or whose task
      the service fails to create, |ps| if there is none. */
  function FirstFailing(botInstanceId: string, create: Call -> Result<string>, ps: seq<TaskCreationParam>): (k: nat)
    ensures k <= |ps|
    ensures forall j :: 0 <= j < k ==> Created(botInstanceId, create, ps[j])
    ensures k < |ps| ==> !Created(botInstanceId, create, ps[k])
  {
    if ps == [] then 0
    else if !Created(botInstanceId, create, ps[0]) then 0
    else 1 + FirstFailing(botInstanceId, create, ps[1..])
  }

  /** The ID of the task the service creates for an accepted parameter. */
  function TaskOf(botInstanceId: string, create: Call -> Result<string>, p: TaskCreationParam): string
    requires Created(botInstanceId, create, p)
  {
    create(CallOf(botInstanceId, p)).value
  }

  /** The IDs of the tasks created for parameters the service accepts, in order. */
  function TasksFor(botInstanceId: string, create: Call -> Result<string>, ps: seq<TaskCreationParam>): (ts: seq<string>)
    requires forall j :: 0 <= j < |ps| ==> Created(botInstanceId, create, ps[j])
    ensures |ts| == |ps|
    ensures forall j :: 0 <= j < |ps| ==> ts[j] == TaskOf(botInstanceId, create, ps[j])
  {
    if ps == [] then []
    else TasksFor(botInstanceId, create, ps[..|ps| - 1]) + [TaskOf(botInstanceId, create, ps[|ps| - 1])]
  }

  /** execute(botInstanceId, taskCreationParams), with the task-creation
      service as `create`. Returns the task IDs and the calls made: when a
      parameter is rejected, or the service fails on it, the tasks of the
      parameters before it have already been created, and a service failure
      propagates unchanged. */
  method Execute(botInstanceId: Option<string>, params: Option<seq<TaskCreationParam>>, create: Call -> Result<string>)
    returns (r: Result<seq<string>>, calls: seq<Call>)
    ensures params.None? || params.value == [] ==> r == Err(BusinessException(NO_PARAMETERS)) && calls == []
    ensures params.Some? && params.value != [] && (botInstanceId.None? || botInstanceId.value == []) ==>
      r == Err(BusinessException(NO_BOT_INSTANCE)) && calls == []
    ensures params.Some? && params.value != [] && botInstanceId.Some? && botInstanceId.value != [] ==>
      var ps := params.value;
      var id := botInstanceId.value;
      var k := FirstFailing(id, create, ps);
      && calls == CallsFor(id, ps[..k]) + (if k < |ps| && Complete(ps[k]) then [CallOf(id, ps[k])] else [])
      && r == (if k == |ps| then Ok(TasksFor(id, create, ps))
               else if !Complete(ps[k]) then Err(BusinessException(INCOMPLETE_PARAMETER))
               else Err(create(CallOf(id, ps[k])).error))
    ensures r.Ok? <==> && params.Some? && params.value != [] && botInstanceId.Some? && botInstanceId.value != []
                       && forall p :: p in params.value ==> Created(botInstanceId.value, create, p)
    ensures r.Ok? ==> |r.value| == |params.value| && |calls| == |params.value|
  {
    if params.None? || params.value == [] {
      return Err(BusinessException(NO_PARAMETERS)), [];
    }
    if botInstanceId.None? || botInstanceId.value == [] {
      return Err(BusinessException(NO_BOT_INSTANCE)), [];
    }
    var ps := params.value;
    var id := botInstanceId.value;
    var tasks: seq<string> := [];
    calls := [];
    for i := 0 to |ps|
      invariant forall j :: 0 <= j < i ==> Created(id, create, ps[j])
      invariant calls == CallsFor(id, ps[..i])
      invariant tasks == TasksFor(id, create, ps[..i])
    {
      if !Complete(ps[i]) {
        assert FirstFailing(id, create, ps) == i by { FirstFailingIs(id, create, ps, i); }
        return Err(BusinessException(INCOMPLETE_PARAMETER)), calls;
      }
      var call := CallOf(id, ps[i]);
      var task := create(call);
      calls := calls + [call];
      if task.Err? {
        assert FirstFailing(id, create, ps) == i by { FirstFailingIs(id, create, ps, i); }
        return Err(task.error), calls;
      }
      tasks := tasks + [task.value];
      assert ps[..i + 1][..i] == ps[..i];
    }
    assert ps[..|ps|] == ps;
    assert FirstFailing(id, create, ps) == |ps| by { FirstFailingIs(id, create, ps, |ps|); }
    r := Ok(tasks);
  }

  /** The first failing parameter is the one before which every task is
      created and whose own is not (or the end). */
  lemma {:induction false} FirstFailingIs(botInstanceId: string, create: Call -> Result<string>, ps: seq<TaskCreationParam>, k: nat)
    requires k <= |ps|
    requires forall j :: 0 <= j < k ==> Created(botInstanceId, create, ps[j])
    requires k < |ps| ==> !Created(botInstanceId, create, ps[k])
    ensures FirstFailing(botInstanceId, create, ps) == k
  {
    if k > 0 {
      FirstFailingIs(botInstanceId, create, ps[1..], k - 1);
    }
  }

  /** A service failure can only stop the loop earlier than the parameter
      check would: the first failure is at or before the first incomplete
      parameter, and at it exactly when the service never fails. */
  lemma {:induction false} FailingNoLaterThanIncomplete(botInstanceId: string, create: Call -> Result<string>, ps: seq<TaskCreationParam>)
    ensures FirstFailing(botInstanceId, create, ps) <= FirstIncomplete(ps)
    ensures (forall c :: create(c).Ok?) ==> FirstFailing(botInstanceId, create, ps) == FirstIncomplete(ps)
  {
    if ps != [] && Created(botInstanceId, create, ps[0]) {
      FailingNoLaterThanIncomplete(botInstanceId, create, ps[1..]);
    }
  }

  /** The first incomplete parameter is the one before which all are
      complete and which is not (or the end). */
  lemma {:induction false} FirstIncompleteIs(ps: seq<TaskCreationParam>, k: nat)
    requires k <= |ps|
    requires forall j :: 0 <= j < k ==> Complete(ps[j])
    requires k < |ps| ==> !Complete(ps[k])
    ensures FirstIncomplete(ps) == k
  {
    if k > 0 {
      FirstIncompleteIs(ps[1..], k - 1);
    }
  }
}
