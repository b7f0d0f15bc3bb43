/** The persistence the services read and write: the MainService and
    ConfigService tables the core touches, kept as maps keyed by ID (where
    the core only looks rows up by key) and as sequences in insertion
    order (where it filters rows or relies on creation order). */
module Store {
  import opened Wrappers

  datatype Task = Task(
    id: string,
    name: string,
    description: Option<string>,
    typeId: string,
    isMain: Option<bool>,
    botInstanceId: Option<string>,
    contextPath: Option<string>,
    sequence: int)

  datatype BotInstance = BotInstance(
    id: string,
    taskId: Option<string>,
    typeId: string,
    sequence: int,
    statusCode: string,
    result: Option<string>)

  datatype BotType = BotType(
    id: string,
    taskTypeId: string,
    sequence: int,
    functionType: string,
    outputContextPath: Option<string>,
    modelId: string,
    implementationClass: Option<string>)

  /** A BotMessages row; its bot instance link may be null. */
  datatype BotMessage = BotMessage(id: string, botInstanceId: Option<string>, message: string, role: string)

  /** A ConfigService prompt text; its content may be null. */
  datatype PromptText = PromptText(id: string, content: Option<string>)

  datatype ContextNode = ContextNode(
    id: string,
    taskId: Option<string>,
    path: string,
    labelText: string,
    kind: string,
    value: Option<string>)

  /** The messages of one bot instance, oldest first (the select orders by
      createdAt, and rows are created in insertion order). */
  function MessagesOf(ms: seq<BotMessage>, botInstanceId: string): (r: seq<BotMessage>)
    ensures |r| <= |ms|
  {
    if ms == [] then []
    else
      MessagesOf(ms[..|ms| - 1], botInstanceId)
      + (if ms[|ms| - 1].botInstanceId == Some(botInstanceId) then [ms[|ms| - 1]] else [])
  }

  /** The messages of a bot instance are exactly its rows of the table. */
  lemma {:induction false} MessagesOfMembers(ms: seq<BotMessage>, botInstanceId: string)
    ensures forall m :: m in MessagesOf(ms, botInstanceId) <==> m in ms && m.botInstanceId == Some(botInstanceId)
  {
    if ms != [] {
      var n := |ms| - 1;
      MessagesOfMembers(ms[..n], botInstanceId);
      assert ms == ms[..n] + [ms[n]];
    }
  }

  lemma {:induction false} MessagesOfAppend(ms: seq<BotMessage>, extra: seq<BotMessage>, botInstanceId: string)
    ensures MessagesOf(ms + extra, botInstanceId)
         == MessagesOf(ms, botInstanceId) + MessagesOf(extra, botInstanceId)
    decreases |extra|
  {
    if extra == [] {
      assert ms + extra == ms;
    } else {
      var last := extra[|extra| - 1];
      assert (ms + extra)[..|ms + extra| - 1] == ms + extra[..|extra| - 1];
      MessagesOfAppend(ms, extra[..|extra| - 1], botInstanceId);
    }
  }

  /** The positions of the context-node rows of a task at a path, in table
      order: what the select on (task_ID, path) returns. */
  function RowsAt(rows: seq<ContextNode>, taskId: string, path: string): (r: seq<nat>)
    ensures forall k :: 0 <= k < |r| ==> r[k] < |rows|
    ensures forall j :: 0 <= j < |rows| ==>
      (j in r <==> rows[j].taskId == Some(taskId) && rows[j].path == path)
  {
    if rows == [] then []
    else
      var n := |rows| - 1;
      RowsAt(rows[..n], taskId, path)
      + (if rows[n].taskId == Some(taskId) && rows[n].path == path then [n] else [])
  }

  /** EntityService.selectSingle on the bot types: a row with this ID, or
      the not-found BusinessException. */
  function BotTypeById(types: seq<BotType>, id: string): (r: Result<BotType>)
    ensures r.Ok? ==> r.value in types && r.value.id == id
    ensures r.Err? <==> forall t :: t in types ==> t.id != id
  {
    if types == [] then Err(BusinessException("BotType not found: " + id))
    else if types[0].id == id then Ok(types[0])
    else BotTypeById(types[1..], id)
  }

  /** The rows the service layer reads and writes. */
  class Db {
    var tasks: map<string, Task>
    var botInstances: map<string, BotInstance>
    var botTypes: seq<BotType>
    var messages: seq<BotMessage>
    var contextNodes: seq<ContextNode>

    constructor (tasks: map<string, Task>, botInstances: map<string, BotInstance>, botTypes: seq<BotType>,
                 messages: seq<BotMessage>, contextNodes: seq<ContextNode>)
      ensures this.tasks == tasks && this.botInstances == botInstances && this.botTypes == botTypes
      ensures this.messages == messages && this.contextNodes == contextNodes
    {
      this.tasks := tasks;
      this.botInstances := botInstances;
      this.botTypes := botTypes;
      this.messages := messages;
      this.contextNodes := contextNodes;
    }

    /** createAndInsertBotMessage: appends one message row. */
    method InsertMessage(id: string, botInstanceId: string, message: string, role: string)
      returns (m: BotMessage)
      modifies this
      ensures m == BotMessage(id, Some(botInstanceId), message, role)
      ensures messages == old(messages) + [m]
      ensures tasks == old(tasks) && botInstances == old(botInstances)
      ensures botTypes == old(botTypes) && contextNodes == old(contextNodes)
    {
      m := BotMessage(id, Some(botInstanceId), message, role);
      messages := messages + [m];
    }

    /** updateBotInstanceStatus: the instance must exist
        (getBotInstanceById), then only its status changes. */
    method SetStatus(botInstanceId: string, code: string) returns (r: Result<()>)
      modifies this
      ensures r.Ok? <==> botInstanceId in old(botInstances)
      ensures r.Ok? ==> botInstances == old(botInstances)[botInstanceId := old(botInstances)[botInstanceId].(statusCode := code)]
      ensures r.Err? ==> botInstances == old(botInstances)
      ensures tasks == old(tasks) && botTypes == old(botTypes)
      ensures messages == old(messages) && contextNodes == old(contextNodes)
    {
      if botInstanceId in botInstances {
        botInstances := botInstances[botInstanceId := botInstances[botInstanceId].(statusCode := code)];
        r := Ok(());
      } else {
        r := Err(BusinessException("BotInstance not found: " + botInstanceId));
      }
    }

    /** updateBotInstanceResult: only the result of an existing instance changes. */
    method SetResult(botInstanceId: string, result: Option<string>) returns (r: Result<()>)
      modifies this
      ensures r.Ok? <==> botInstanceId in old(botInstances)
      ensures r.Ok? ==> botInstances == old(botInstances)[botInstanceId := old(botInstances)[botInstanceId].(result := result)]
      ensures r.Err? ==> botInstances == old(botInstances)
      ensures tasks == old(tasks) && botTypes == old(botTypes)
      ensures messages == old(messages) && contextNodes == old(contextNodes)
    {
      if botInstanceId in botInstances {
        botInstances := botInstances[botInstanceId := botInstances[botInstanceId].(result := result)];
        r := Ok(());
      } else {
        r := Err(BusinessException("BotInstance not found: " + botInstanceId));
      }
    }

    /** getBotMessagesByBotInstanceId. */
    function History(botInstanceId: string): seq<BotMessage>
      reads this
    {
      MessagesOf(messages, botInstanceId)
    }
  }
}
