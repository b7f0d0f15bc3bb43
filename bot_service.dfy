/** The bot service (service/bot/BotServiceImpl): which bot a bot instance
    is, and the status and message writes of chat, execute and adopt.
    Each operation's final state is a function of the tables before the
    call (ChatEffect, ExecuteEffect, AdoptEffect); the methods are proved
    to leave exactly that state, and the lemmas say what the state means. */
module BotService {
  import opened Wrappers
  import opened JavaText
  import opened Store
  import Bot
  import ModelResolver
  import GeminiService
  import ChatBot
  import FunctionCallingBot
  import CqnCommon
  import ContextService

  // ---------------------------------------------------------------------
  // createBotInstance / getCurrentBot

  /** The bot implementations a function type code selects. */
  datatype Kind = ChatKind | FunctionCallingKind | CodingKind

  /** The function type code of each implementation. */
  function Code(k: Kind): string {
    match k
    case ChatKind => "A"
    case FunctionCallingKind => "F"
    case CodingKind => "C"
  }

  function UnsupportedType(functionTypeCode: string): Failure {
    BusinessException("Unsupported bot function type: " + functionTypeCode)
  }

  /** createBotInstance: the switch on the function type code. */
  function CreateBotInstance(functionTypeCode: string): (r: Result<Kind>)
    ensures r.Err? ==> r.error == UnsupportedType(functionTypeCode)
  {
    if functionTypeCode == "A" then Ok(ChatKind)
    else if functionTypeCode == "F" then Ok(FunctionCallingKind)
    else if functionTypeCode == "C" then Ok(CodingKind)
    else Err(UnsupportedType(functionTypeCode))
  }

  /** The switch is the inverse of Code: exactly the three codes are
      accepted, each selecting the implementation that carries it. */
  lemma CreateBotInstanceInvertsCode(functionTypeCode: string, k: Kind)
    ensures CreateBotInstance(Code(k)) == Ok(k)
    ensures CreateBotInstance(functionTypeCode).Ok? <==> functionTypeCode in ["A", "F", "C"]
    ensures CreateBotInstance(functionTypeCode).Ok? ==> Code(CreateBotInstance(functionTypeCode).value) == functionTypeCode
  {
  }

  /** The bot getCurrentBot builds. */
  datatype CurrentBot = CurrentBot(instance: BotInstance, botType: BotType, aiModel: ModelResolver.AIModel, kind: Kind)

  /** Every bot-instance row is stored under its own ID (the primary key). */
  predicate Keyed(insts: map<string, BotInstance>) {
    forall k :: k in insts ==> insts[k].id == k
  }

  /** getCurrentBot: the instance, its type, the resolved model, then the
      switch; the first failing lookup is the failure. */
  function GetCurrentBot(insts: map<string, BotInstance>, types: seq<BotType>,
                         configs: map<string, ModelResolver.ModelConfig>, botInstanceId: string): (r: Result<CurrentBot>)
    ensures botInstanceId !in insts ==> r == Err(BusinessException("BotInstance not found: " + botInstanceId))
    ensures r.Ok? ==> && botInstanceId in insts && r.value.instance == insts[botInstanceId]
                      && r.value.botType in types && r.value.botType.id == insts[botInstanceId].typeId
                      && ModelResolver.ResolveAIModelById(configs, r.value.botType.modelId) == Ok(r.value.aiModel)
                      && CreateBotInstance(r.value.botType.functionType) == Ok(r.value.kind)
  {
    if botInstanceId !in insts then Err(BusinessException("BotInstance not found: " + botInstanceId))
    else
      var inst := insts[botInstanceId];
      match BotTypeById(types, inst.typeId)
      case Err(e) => Err(e)
      case Ok(botType) =>
        match ModelResolver.ResolveAIModelById(configs, botType.modelId)
        case Err(e) => Err(e)
        case Ok(model) =>
          match CreateBotInstance(botType.functionType)
          case Err(e) => Err(e)
          case Ok(kind) => Ok(CurrentBot(inst, botType, model, kind))
  }

  /** The IDs of the instances of this task at this sequence. */
  function InstancesAt(insts: map<string, BotInstance>, taskId: string, sequence: int): set<string> {
    set k | k in insts && insts[k].taskId == Some(taskId) && insts[k].sequence == sequence
  }

  lemma SingleMember(s: set<string>)
    requires |s| == 1
    ensures forall a, b :: a in s && b in s ==> a == b
  {
    var k :| k in s;
    assert |s - {k}| == 0;
  }

  /** getBotInstanceByTaskAndSequence: selectSingle on the pair; no row is
      the not-found BusinessException, more than one row fails in
      Result.single. */
  function BotInstanceByTaskAndSequence(insts: map<string, BotInstance>, taskId: string, sequence: int)
    : (r: Result<string>)
    ensures r.Ok? <==> |InstancesAt(insts, taskId, sequence)| == 1
    ensures r.Ok? ==> r.value in insts && insts[r.value].taskId == Some(taskId) && insts[r.value].sequence == sequence
    ensures InstancesAt(insts, taskId, sequence) == {} ==>
              r == Err(BusinessException("BotInstance not found for task: " + taskId + ", sequence: "
                                         + IntToString(sequence)))
  {
    var found := InstancesAt(insts, taskId, sequence);
    if found == {} then
      Err(BusinessException("BotInstance not found for task: " + taskId + ", sequence: " + IntToString(sequence)))
    else if |found| == 1 then
      SingleMember(found);
      var k :| k in found;
      Ok(k)
    else Err(Runtime("Result.single: more than one row"))
  }

  /** getCurrentBot(taskId, sequence): the one instance at that place, then
      getCurrentBot on its ID. */
  function GetCurrentBotAt(insts: map<string, BotInstance>, types: seq<BotType>,
                           configs: map<string, ModelResolver.ModelConfig>, taskId: string, sequence: int)
    : (r: Result<CurrentBot>)
    ensures |InstancesAt(insts, taskId, sequence)| != 1 ==> r.Err?
    ensures Keyed(insts) && r.Ok? ==>
              && r.value.instance.taskId == Some(taskId) && r.value.instance.sequence == sequence
              && r == GetCurrentBot(insts, types, configs, r.value.instance.id)
  {
    match BotInstanceByTaskAndSequence(insts, taskId, sequence)
    case Err(e) => Err(e)
    case Ok(k) => GetCurrentBot(insts, types, configs, insts[k].id)
  }

  // ---------------------------------------------------------------------
  // Writes to the bot instance

  /** One write of updateBotInstanceStatus or updateBotInstanceResult. */
  datatype Write = Status(code: string) | ResultField(result: Option<string>)

  function ApplyWrite(insts: map<string, BotInstance>, botInstanceId: string, w: Write): map<string, BotInstance> {
    if botInstanceId !in insts then insts
    else match w
      case Status(code) => insts[botInstanceId := insts[botInstanceId].(statusCode := code)]
      case ResultField(res) => insts[botInstanceId := insts[botInstanceId].(result := res)]
  }

  /** The instance table after the writes, in order. */
  function Apply(insts: map<string, BotInstance>, botInstanceId: string, ws: seq<Write>): (r: map<string, BotInstance>)
    ensures r.Keys == insts.Keys
    ensures forall k :: k in insts && k != botInstanceId ==> r[k] == insts[k]
  {
    if ws == [] then insts
    else ApplyWrite(Apply(insts, botInstanceId, ws[..|ws| - 1]), botInstanceId, ws[|ws| - 1])
  }

  /** The status code of the last status write, if any. */
  function LastStatus(ws: seq<Write>, before: string): string {
    if ws == [] then before
    else if ws[|ws| - 1].Status? then ws[|ws| - 1].code
    else LastStatus(ws[..|ws| - 1], before)
  }

  /** The status an instance is left with is the last one written. */
  lemma {:induction false} ApplyStatus(insts: map<string, BotInstance>, botInstanceId: string, ws: seq<Write>)
    requires botInstanceId in insts
    ensures Apply(insts, botInstanceId, ws)[botInstanceId].statusCode == LastStatus(ws, insts[botInstanceId].statusCode)
  {
    if ws != [] {
      ApplyStatus(insts, botInstanceId, ws[..|ws| - 1]);
    }
  }

  /** Performs one more write: updateBotInstanceStatus or
      updateBotInstanceResult on an existing instance. */
  method Perform(db: Db, botInstanceId: string, w: Write, ghost before: map<string, BotInstance>, ghost ws: seq<Write>)
    returns (ghost ws': seq<Write>)
    requires botInstanceId in db.botInstances && db.botInstances == Apply(before, botInstanceId, ws)
    modifies db
    ensures ws' == ws + [w] && db.botInstances == Apply(before, botInstanceId, ws')
    ensures db.tasks == old(db.tasks) && db.botTypes == old(db.botTypes)
    ensures db.messages == old(db.messages) && db.contextNodes == old(db.contextNodes)
  {
    var done;
    match w {
      case Status(code) => done := db.SetStatus(botInstanceId, code);
      case ResultField(res) => done := db.SetResult(botInstanceId, res);
    }
    ws' := ws + [w];
    assert ws'[..|ws'| - 1] == ws;
  }

  /** What a service call leaves: its outcome, the writes it made to the bot
      instance, and the one other table it changes. */
  datatype Effect<T, U> = Effect(result: Result<T>, writes: seq<Write>, table: U)

  // ---------------------------------------------------------------------
  // chat

  /** The prompt service, the model configuration table and the AI call,
      which the service passes through to the bot. */
  datatype ChatServices = ChatServices(
    configs: map<string, ModelResolver.ModelConfig>,
    prompts: Option<seq<PromptText>>,
    promptIds: seq<string>,
    send: string -> (int, string),
    readTree: string -> Option<GeminiService.Json>)

  predicate WellFormed(s: ChatServices) {
    |s.promptIds| == |s.prompts.GetOr([])|
  }

  /** What ChatBot.chat answers, given the history it first reads. */
  function ChatAnswer(h: seq<BotMessage>, s: ChatServices, botInstanceId: string, content: string): Result<string>
    requires WellFormed(s)
  {
    var reply := s.send(GeminiService.RequestBody(ChatBot.ChatContext(h, s.prompts, botInstanceId, s.promptIds, content), false));
    ChatBot.ChatFailed(GeminiService.ChatReply(reply.0, s.readTree(reply.1)))
  }

  function ChatFailedFor(botInstanceId: string): Failure {
    BusinessException("Chat failed for bot: " + botInstanceId)
  }

  /** What chat does with the bot's answer, the seeded messages being
      `ms`: on an answer the user's and the assistant's rows and "S";
      otherwise "F". */
  function Recorded(ms: seq<BotMessage>, botInstanceId: string, content: string, response: Result<string>,
                    userMessageId: string, assistantMessageId: string): Effect<BotMessage, seq<BotMessage>>
  {
    match response
    case Err(_) => Effect(Err(ChatFailedFor(botInstanceId)), [Status("F")], ms)
    case Ok(text) =>
      var answer := BotMessage(assistantMessageId, Some(botInstanceId), text, "assistant");
      Effect(Ok(answer), [Status("S")], ms + [BotMessage(userMessageId, Some(botInstanceId), content, "user"), answer])
  }

  /** What ChatBot.chat and the inserts after it leave, "R" having been
      written: the seeded history, and on an answer the user's and the
      assistant's rows. */
  function Converse(ms: seq<BotMessage>, s: ChatServices, botInstanceId: string, content: string,
                    userMessageId: string, assistantMessageId: string): Effect<BotMessage, seq<BotMessage>>
    requires WellFormed(s)
  {
    var h := MessagesOf(ms, botInstanceId);
    var seeded := ms + (if h == [] then ChatBot.Seed(s.prompts, botInstanceId, s.promptIds) else []);
    Recorded(seeded, botInstanceId, content, ChatAnswer(h, s, botInstanceId, content), userMessageId, assistantMessageId)
  }

  /** chat(botInstanceId, content): the tables and answer it leaves. */
  function ChatEffect(insts: map<string, BotInstance>, types: seq<BotType>, ms: seq<BotMessage>, s: ChatServices,
                      botInstanceId: string, content: string, userMessageId: string,
                      assistantMessageId: string): Effect<BotMessage, seq<BotMessage>>
    requires WellFormed(s)
  {
    match GetCurrentBot(insts, types, s.configs, botInstanceId)
    case Err(e) => Effect(Err(e), [], ms)
    case Ok(cur) =>
      if cur.kind != ChatKind then Effect(Err(ChatFailedFor(botInstanceId)), [Status("R"), Status("F")], ms)
      else
        var c := Converse(ms, s, botInstanceId, content, userMessageId, assistantMessageId);
        Effect(c.result, [Status("R")] + c.writes, c.table)
  }

  /** Once the bot is found, chat writes "R" first and leaves "S" exactly
      when it answers, "F" otherwise; a bot that is not a ChatBot gets no
      message; an answer is the last of the two rows appended after the
      user's. */
  lemma ChatStatusLifecycle(insts: map<string, BotInstance>, types: seq<BotType>, ms: seq<BotMessage>,
                            s: ChatServices, botInstanceId: string, content: string,
                            userMessageId: string, assistantMessageId: string)
    requires WellFormed(s)
    ensures var e := ChatEffect(insts, types, ms, s, botInstanceId, content, userMessageId, assistantMessageId);
      && (GetCurrentBot(insts, types, s.configs, botInstanceId).Err? <==> e.writes == [])
      && (e.writes != [] ==> e.writes[0] == Status("R")
                             && LastStatus(e.writes, "") == (if e.result.Ok? then "S" else "F"))
      && (e.writes != [] && GetCurrentBot(insts, types, s.configs, botInstanceId).value.kind != ChatKind ==>
            e.table == ms && e.result == Err(ChatFailedFor(botInstanceId)))
      && (e.result.Ok? ==> && |e.table| >= 2
                           && e.table[|e.table| - 2] == BotMessage(userMessageId, Some(botInstanceId), content, "user")
                           && e.table[|e.table| - 1] == e.result.value
                           && e.result.value.role == "assistant")
  {
  }

  /** The inserts and the final status after the bot has answered. */
  method Record(db: Db, botInstanceId: string, content: string, response: Result<string>,
                userMessageId: string, assistantMessageId: string,
                ghost before: map<string, BotInstance>, ghost ws: seq<Write>)
    returns (r: Result<BotMessage>, ghost ws': seq<Write>)
    requires botInstanceId in db.botInstances && db.botInstances == Apply(before, botInstanceId, ws)
    modifies db
    ensures var c := Recorded(old(db.messages), botInstanceId, content, response, userMessageId, assistantMessageId);
      && r == c.result && db.messages == c.table
      && ws' == ws + c.writes && db.botInstances == Apply(before, botInstanceId, ws')
    ensures db.tasks == old(db.tasks) && db.botTypes == old(db.botTypes) && db.contextNodes == old(db.contextNodes)
  {
    if response.Err? {
      ws' := Perform(db, botInstanceId, Status("F"), before, ws);
      r := Err(ChatFailedFor(botInstanceId));
      return;
    }
    var userMessage := db.InsertMessage(userMessageId, botInstanceId, content, "user");
    var botMessage := db.InsertMessage(assistantMessageId, botInstanceId, response.value, "assistant");
    ws' := Perform(db, botInstanceId, Status("S"), before, ws);
    r := Ok(botMessage);
  }

  /** The ChatBot branch of chat(botInstanceId, content), after "R". */
  method ChatWithChatBot(db: Db, bot: ChatBot.ChatBot, content: string, s: ChatServices,
                         userMessageId: string, assistantMessageId: string,
                         ghost before: map<string, BotInstance>, ghost ws: seq<Write>)
    returns (r: Result<BotMessage>, ghost ws': seq<Write>)
    requires WellFormed(s)
    requires bot.botInstance.id in db.botInstances && db.botInstances == Apply(before, bot.botInstance.id, ws)
    modifies db
    ensures var c := Converse(old(db.messages), s, bot.botInstance.id, content, userMessageId, assistantMessageId);
      && r == c.result && db.messages == c.table
      && ws' == ws + c.writes && db.botInstances == Apply(before, bot.botInstance.id, ws')
    ensures db.tasks == old(db.tasks) && db.botTypes == old(db.botTypes) && db.contextNodes == old(db.contextNodes)
  {
    var botInstanceId := bot.botInstance.id;
    ghost var h := MessagesOf(db.messages, botInstanceId);
    var response := ChatBot.Chat(bot, db, content, s.prompts, s.promptIds, s.send, s.readTree);
    assert response == ChatAnswer(h, s, botInstanceId, content);
    r, ws' := Record(db, botInstanceId, content, response, userMessageId, assistantMessageId, before, ws);
  }

  /** The writes and messages chat(botInstanceId, content) makes. The
      500 ms pause between the two inserts is not modelled. */
  method Chat(db: Db, botInstanceId: string, content: string, s: ChatServices,
              userMessageId: string, assistantMessageId: string) returns (r: Result<BotMessage>)
    requires Keyed(db.botInstances) && WellFormed(s)
    modifies db
    ensures var e := ChatEffect(old(db.botInstances), old(db.botTypes), old(db.messages), s, botInstanceId, content,
                                userMessageId, assistantMessageId);
      && r == e.result && db.messages == e.table
      && db.botInstances == Apply(old(db.botInstances), botInstanceId, e.writes)
    ensures db.tasks == old(db.tasks) && db.botTypes == old(db.botTypes) && db.contextNodes == old(db.contextNodes)
  {
    var cur := GetCurrentBot(db.botInstances, db.botTypes, s.configs, botInstanceId);
    if cur.Err? {
      return Err(cur.error);
    }
    ghost var before := db.botInstances;
    ghost var e := ChatEffect(before, db.botTypes, db.messages, s, botInstanceId, content, userMessageId, assistantMessageId);
    ghost var ws := Perform(db, botInstanceId, Status("R"), before, []);
    if cur.value.kind != ChatKind {
      ws := Perform(db, botInstanceId, Status("F"), before, ws);
      r := Err(ChatFailedFor(botInstanceId));
      assert ws == e.writes;
      return;
    }
    var bot := ChatBot.ChatBot(cur.value.instance, cur.value.botType, cur.value.aiModel);
    assert bot.botInstance.id == botInstanceId;
    r, ws := ChatWithChatBot(db, bot, content, s, userMessageId, assistantMessageId, before, ws);
  }

  /** chat(context): the bot instance ID from the request's CQN, then chat. */
  method ChatByContext(db: Db, cqn: string, content: string, s: ChatServices,
                       userMessageId: string, assistantMessageId: string) returns (r: Result<BotMessage>)
    requires Keyed(db.botInstances) && WellFormed(s)
    modifies db
    ensures match CqnCommon.ExtractBotInstanceId(cqn)
      case Err(e) => r == Err(e) && db.messages == old(db.messages) && db.botInstances == old(db.botInstances)
      case Ok(id) =>
        var e := ChatEffect(old(db.botInstances), old(db.botTypes), old(db.messages), s, id, content,
                            userMessageId, assistantMessageId);
        && r == e.result && db.messages == e.table
        && db.botInstances == Apply(old(db.botInstances), id, e.writes)
    ensures db.tasks == old(db.tasks) && db.botTypes == old(db.botTypes) && db.contextNodes == old(db.contextNodes)
  {
    var id := CqnCommon.ExtractBotInstanceId(cqn);
    if id.Err? {
      return Err(id.error);
    }
    r := Chat(db, id.value, content, s, userMessageId, assistantMessageId);
  }

  // ---------------------------------------------------------------------
  // execute

  function ExecutionFailed(botInstanceId: string): Failure {
    BusinessException("Execution failed for bot: " + botInstanceId)
  }

  /** What execute does once the bot is found, `run` being what
      FunctionCallingBot.execute gives. A ChatBot's execute throws; a
      CodingBot's returns null, so SUCCESS is written before reading its
      result fails. */
  function Run(kind: Kind, botInstanceId: string, run: Result<FunctionCallingBot.ReturnType>)
    : Effect<FunctionCallingBot.ReturnType, ()>
  {
    match kind
    case ChatKind => Effect(Err(ExecutionFailed(botInstanceId)), [Status("RUNNING"), Status("FAILED")], ())
    case CodingKind =>
      Effect(Err(ExecutionFailed(botInstanceId)), [Status("RUNNING"), Status("SUCCESS"), Status("FAILED")], ())
    case FunctionCallingKind =>
      match run
      case Err(_) => Effect(Err(ExecutionFailed(botInstanceId)), [Status("RUNNING"), Status("FAILED")], ())
      case Ok(rt) => Effect(Ok(rt), [Status("RUNNING"), Status("SUCCESS"), ResultField(rt.result)], ())
  }

  /** execute(botInstanceId): nothing is written when the bot is not
      found. */
  function ExecuteEffect(insts: map<string, BotInstance>, types: seq<BotType>,
                         configs: map<string, ModelResolver.ModelConfig>, botInstanceId: string,
                         run: Result<FunctionCallingBot.ReturnType>): Effect<FunctionCallingBot.ReturnType, ()>
  {
    match GetCurrentBot(insts, types, configs, botInstanceId)
    case Err(e) => Effect(Err(e), [], ())
    case Ok(cur) => Run(cur.kind, botInstanceId, run)
  }

  /** Once the bot is found, execute writes RUNNING first and leaves SUCCESS
      exactly when it returns a result, which it then stores; a failure
      leaves FAILED even where SUCCESS was written on the way. */
  lemma ExecuteStatusLifecycle(insts: map<string, BotInstance>, types: seq<BotType>,
                               configs: map<string, ModelResolver.ModelConfig>, botInstanceId: string,
                               run: Result<FunctionCallingBot.ReturnType>)
    ensures var e := ExecuteEffect(insts, types, configs, botInstanceId, run);
      && (GetCurrentBot(insts, types, configs, botInstanceId).Err? <==> e.writes == [])
      && (e.writes != [] ==> e.writes[0] == Status("RUNNING")
                             && LastStatus(e.writes, "") == (if e.result.Ok? then "SUCCESS" else "FAILED"))
      && (e.result.Ok? ==> e.writes[|e.writes| - 1] == ResultField(e.result.value.result))
      && (e.result.Err? ==> forall w :: w in e.writes ==> w.Status?)
  {
  }

  /** A CodingBot run is reported FAILED after SUCCESS was written. */
  lemma CodingBotFailsAfterSuccess(insts: map<string, BotInstance>, types: seq<BotType>,
                                   configs: map<string, ModelResolver.ModelConfig>, botInstanceId: string,
                                   run: Result<FunctionCallingBot.ReturnType>)
    requires GetCurrentBot(insts, types, configs, botInstanceId).Ok?
    requires GetCurrentBot(insts, types, configs, botInstanceId).value.kind == CodingKind
    ensures var e := ExecuteEffect(insts, types, configs, botInstanceId, run);
      && Status("SUCCESS") in e.writes && e.result == Err(ExecutionFailed(botInstanceId))
      && Apply(insts, botInstanceId, e.writes)[botInstanceId].statusCode == "FAILED"
  {
    var e := ExecuteEffect(insts, types, configs, botInstanceId, run);
    ApplyStatus(insts, botInstanceId, e.writes);
  }

  /** execute(botInstanceId); for a FunctionCallingBot the bot's execute
      runs with the given prompts, Spring-created bot execution and
      function-calling step. */
  method Execute<E>(db: Db, botInstanceId: string, configs: map<string, ModelResolver.ModelConfig>,
                    prompts: Option<seq<PromptText>>, created: Result<E>,
                    functionCalling: (seq<BotMessage>, seq<PromptText>, E) -> Result<FunctionCallingBot.Value>,
                    castMessage: FunctionCallingBot.Value -> string)
    returns (r: Result<FunctionCallingBot.ReturnType>)
    modifies db
    ensures var e := ExecuteEffect(old(db.botInstances), old(db.botTypes), configs, botInstanceId,
                                   FunctionCallingBot.ExecuteOutcome(prompts, created, functionCalling, castMessage));
      r == e.result && db.botInstances == Apply(old(db.botInstances), botInstanceId, e.writes)
    ensures db.tasks == old(db.tasks) && db.botTypes == old(db.botTypes)
    ensures db.messages == old(db.messages) && db.contextNodes == old(db.contextNodes)
  {
    var cur := GetCurrentBot(db.botInstances, db.botTypes, configs, botInstanceId);
    if cur.Err? {
      return Err(cur.error);
    }
    r := RunBot(db, botInstanceId, cur.value.kind, prompts, created, functionCalling, castMessage);
  }

  /** The writes of execute once the bot is found. */
  method RunBot<E>(db: Db, botInstanceId: string, kind: Kind,
                   prompts: Option<seq<PromptText>>, created: Result<E>,
                   functionCalling: (seq<BotMessage>, seq<PromptText>, E) -> Result<FunctionCallingBot.Value>,
                   castMessage: FunctionCallingBot.Value -> string)
    returns (r: Result<FunctionCallingBot.ReturnType>)
    requires botInstanceId in db.botInstances
    modifies db
    ensures var e := Run(kind, botInstanceId, FunctionCallingBot.ExecuteOutcome(prompts, created, functionCalling, castMessage));
      r == e.result && db.botInstances == Apply(old(db.botInstances), botInstanceId, e.writes)
    ensures db.tasks == old(db.tasks) && db.botTypes == old(db.botTypes)
    ensures db.messages == old(db.messages) && db.contextNodes == old(db.contextNodes)
  {
    ghost var before := db.botInstances;
    ghost var ws := Perform(db, botInstanceId, Status("RUNNING"), before, []);
    match kind {
      case ChatKind =>
        ws := Perform(db, botInstanceId, Status("FAILED"), before, ws);
        r := Err(ExecutionFailed(botInstanceId));
        assert ws == [Status("RUNNING"), Status("FAILED")];
      case CodingKind =>
        ws := Perform(db, botInstanceId, Status("SUCCESS"), before, ws);
        ws := Perform(db, botInstanceId, Status("FAILED"), before, ws);
        r := Err(ExecutionFailed(botInstanceId));
        assert ws == [Status("RUNNING"), Status("SUCCESS"), Status("FAILED")];
      case FunctionCallingKind =>
        r, ws := RunFunctionCallingBot(db, botInstanceId, prompts, created, functionCalling, castMessage, before, ws);
    }
  }

  /** execute on a FunctionCallingBot, after RUNNING: SUCCESS and the
      result, or FAILED. */
  method RunFunctionCallingBot<E>(db: Db, botInstanceId: string,
                                  prompts: Option<seq<PromptText>>, created: Result<E>,
                                  functionCalling: (seq<BotMessage>, seq<PromptText>, E) -> Result<FunctionCallingBot.Value>,
                                  castMessage: FunctionCallingBot.Value -> string,
                                  ghost before: map<string, BotInstance>, ghost ws: seq<Write>)
    returns (r: Result<FunctionCallingBot.ReturnType>, ghost ws': seq<Write>)
    requires ws == [Status("RUNNING")]
    requires botInstanceId in db.botInstances && db.botInstances == Apply(before, botInstanceId, ws)
    modifies db
    ensures var e := Run(FunctionCallingKind, botInstanceId,
                         FunctionCallingBot.ExecuteOutcome(prompts, created, functionCalling, castMessage));
      r == e.result && ws' == e.writes && db.botInstances == Apply(before, botInstanceId, ws')
    ensures db.tasks == old(db.tasks) && db.botTypes == old(db.botTypes)
    ensures db.messages == old(db.messages) && db.contextNodes == old(db.contextNodes)
  {
    var result := FunctionCallingBot.Execute(prompts, created, functionCalling, castMessage);
    if result.Err? {
      ws' := Perform(db, botInstanceId, Status("FAILED"), before, ws);
      r := Err(ExecutionFailed(botInstanceId));
      assert ws' == [Status("RUNNING"), Status("FAILED")];
    } else {
      ws' := Perform(db, botInstanceId, Status("SUCCESS"), before, ws);
      ws' := Perform(db, botInstanceId, ResultField(result.value.result), before, ws');
      r := result;
      assert ws' == [Status("RUNNING"), Status("SUCCESS"), ResultField(result.value.result)];
    }
  }

  // ---------------------------------------------------------------------
  // adopt

  function MessageNotFound(botInstanceId: string, messageId: string): Failure {
    BusinessException("Message " + messageId + " not found in bot instance " + botInstanceId)
  }

  /** getMessageById: the message with this ID in this bot instance. */
  function MessageById(ms: seq<BotMessage>, botInstanceId: string, messageId: string): (r: Result<BotMessage>)
    ensures r.Ok? ==> r.value in ms && r.value.id == messageId && r.value.botInstanceId == Some(botInstanceId)
    ensures r.Err? <==> forall m :: m in ms ==> !(m.id == messageId && m.botInstanceId == Some(botInstanceId))
    ensures r.Err? ==> r.error == MessageNotFound(botInstanceId, messageId)
  {
    if ms == [] then Err(MessageNotFound(botInstanceId, messageId))
    else if ms[0].id == messageId && ms[0].botInstanceId == Some(botInstanceId) then Ok(ms[0])
    else MessageById(ms[1..], botInstanceId, messageId)
  }

  function NoOutputPath(botInstanceId: string): Failure {
    BusinessException("No outputContextPath configured for botInstance: " + botInstanceId)
  }

  /** What adopt does once "R" is written and the output path is set: the
      full path, the main task, the upsert of the message text, then "S".
      Failures propagate and write nothing more. */
  function Deliver(tasks: map<string, Task>, insts: map<string, BotInstance>, rows: seq<ContextNode>,
                   botInstanceId: string, path: string, text: string, newId: string,
                   fuel: nat): Effect<ContextNode, seq<ContextNode>>
    requires CqnCommon.MainTaskId(tasks, insts, botInstanceId, fuel).Some?
  {
    match ContextService.ContextFullPath(path, CqnCommon.ParentTaskByBotInstance(tasks, insts, botInstanceId))
    case Err(e) => Effect(Err(e), [], rows)
    case Ok(full) =>
      match CqnCommon.MainTaskId(tasks, insts, botInstanceId, fuel).value
      case Err(e) => Effect(Err(e), [], rows)
      case Ok(mainTaskId) =>
        match ContextService.Upsert(rows, mainTaskId, full, Some(text), newId)
        case Err(e) => Effect(Err(e), [], rows)
        case Ok(u) => Effect(Ok(u.1), [Status("S")], u.0)
  }

  /** What adopt does once the message and the bot are found: "R", then
      the output path check, then the delivery. */
  function AdoptFound(tasks: map<string, Task>, insts: map<string, BotInstance>, rows: seq<ContextNode>,
                      botInstanceId: string, path: Option<string>, text: string, newId: string,
                      fuel: nat): Effect<ContextNode, seq<ContextNode>>
    requires CqnCommon.MainTaskId(tasks, insts, botInstanceId, fuel).Some?
  {
    if path.None? || IsBlank(path.value) then Effect(Err(NoOutputPath(botInstanceId)), [Status("R"), Status("F")], rows)
    else
      var d := Deliver(tasks, insts, rows, botInstanceId, path.value, text, newId, fuel);
      Effect(d.result, [Status("R")] + d.writes, d.table)
  }

  /** adopt(botInstanceId, messageId): the message text is upserted at the
      bot type's output path, resolved against the parent task. The walk
      to the main task is assumed to end within `fuel` steps. */
  function AdoptEffect(tasks: map<string, Task>, insts: map<string, BotInstance>, types: seq<BotType>,
                       ms: seq<BotMessage>, rows: seq<ContextNode>, configs: map<string, ModelResolver.ModelConfig>,
                       botInstanceId: string, messageId: string, newId: string,
                       fuel: nat): Effect<ContextNode, seq<ContextNode>>
    requires CqnCommon.MainTaskId(tasks, insts, botInstanceId, fuel).Some?
  {
    match MessageById(ms, botInstanceId, messageId)
    case Err(e) => Effect(Err(e), [], rows)
    case Ok(message) =>
      match GetCurrentBot(insts, types, configs, botInstanceId)
      case Err(e) => Effect(Err(e), [], rows)
      case Ok(cur) =>
        AdoptFound(tasks, insts, rows, botInstanceId, cur.botType.outputContextPath, message.message, newId, fuel)
  }

  /** A missing message fails before any write; otherwise, once the bot is
      found, "R" is written first and "S" is written exactly when the node
      is stored, at the full path and holding the message text; a failure
      after "R" other than a missing output path leaves "R". */
  lemma AdoptStatusLifecycle(tasks: map<string, Task>, insts: map<string, BotInstance>, types: seq<BotType>,
                             ms: seq<BotMessage>, rows: seq<ContextNode>,
                             configs: map<string, ModelResolver.ModelConfig>,
                             botInstanceId: string, messageId: string, newId: string, fuel: nat)
    requires CqnCommon.MainTaskId(tasks, insts, botInstanceId, fuel).Some?
    ensures var e := AdoptEffect(tasks, insts, types, ms, rows, configs, botInstanceId, messageId, newId, fuel);
      && (MessageById(ms, botInstanceId, messageId).Err? ==>
            e.result == Err(MessageNotFound(botInstanceId, messageId)) && e.writes == [] && e.table == rows)
      && (e.writes != [] ==> e.writes[0] == Status("R"))
      && (e.result.Ok? <==> e.writes == [Status("R"), Status("S")])
      && (e.result.Ok? ==> e.result.value in e.table
                           && e.result.value.value == Some(MessageById(ms, botInstanceId, messageId).value.message))
      && (e.result.Err? ==> e.table == rows)
  {
    match MessageById(ms, botInstanceId, messageId)
    case Err(_) =>
    case Ok(message) =>
      match GetCurrentBot(insts, types, configs, botInstanceId)
      case Err(_) =>
      case Ok(cur) =>
        AdoptFoundLifecycle(tasks, insts, rows, botInstanceId, cur.botType.outputContextPath, message.message,
                            newId, fuel);
  }

  /** Once the message and the bot are found: "R" first, then "S" exactly
      when the node holding the text is stored. */
  lemma AdoptFoundLifecycle(tasks: map<string, Task>, insts: map<string, BotInstance>, rows: seq<ContextNode>,
                            botInstanceId: string, path: Option<string>, text: string, newId: string, fuel: nat)
    requires CqnCommon.MainTaskId(tasks, insts, botInstanceId, fuel).Some?
    ensures var e := AdoptFound(tasks, insts, rows, botInstanceId, path, text, newId, fuel);
      && e.writes != [] && e.writes[0] == Status("R")
      && (e.result.Ok? <==> e.writes == [Status("R"), Status("S")])
      && (e.result.Ok? ==> e.result.value in e.table && e.result.value.value == Some(text))
      && (e.result.Err? ==> e.table == rows)
  {
    if !(path.None? || IsBlank(path.value)) {
      DeliverLifecycle(tasks, insts, rows, botInstanceId, path.value, text, newId, fuel);
    }
  }

  /** The delivery writes "S" exactly when the node is stored, at the full
      path and holding the text; a failed delivery writes nothing. */
  lemma DeliverLifecycle(tasks: map<string, Task>, insts: map<string, BotInstance>, rows: seq<ContextNode>,
                         botInstanceId: string, path: string, text: string, newId: string, fuel: nat)
    requires CqnCommon.MainTaskId(tasks, insts, botInstanceId, fuel).Some?
    ensures var d := Deliver(tasks, insts, rows, botInstanceId, path, text, newId, fuel);
      && (d.result.Ok? <==> d.writes == [Status("S")])
      && (d.result.Ok? ==> d.result.value in d.table && d.result.value.value == Some(text))
      && (d.result.Err? ==> d.writes == [] && d.table == rows)
  {
  }

  /** Only the status of a bot instance changed: the links the walk and the
      parent-task lookup follow are the same. */
  predicate SameLinks(a: map<string, BotInstance>, b: map<string, BotInstance>) {
    a.Keys == b.Keys && forall k :: k in a ==> a[k].taskId == b[k].taskId
  }

  /** Writes change only the status and the result of one instance. */
  lemma {:induction false} ApplySameLinks(insts: map<string, BotInstance>, botInstanceId: string, ws: seq<Write>)
    ensures SameLinks(insts, Apply(insts, botInstanceId, ws))
  {
    if ws != [] {
      ApplySameLinks(insts, botInstanceId, ws[..|ws| - 1]);
    }
  }

  lemma {:induction false} WalkSameLinks(tasks: map<string, Task>, a: map<string, BotInstance>,
                                         b: map<string, BotInstance>, botInstanceId: string,
                                         cur: Option<string>, fuel: nat)
    requires SameLinks(a, b)
    ensures CqnCommon.Walk(tasks, a, botInstanceId, cur, fuel) == CqnCommon.Walk(tasks, b, botInstanceId, cur, fuel)
    decreases fuel
  {
    if fuel > 0 && cur.Some? && cur.value in tasks && tasks[cur.value].isMain != Some(true) {
      var bi := tasks[cur.value].botInstanceId;
      if bi.Some? && bi.value != "" && bi.value in a {
        WalkSameLinks(tasks, a, b, botInstanceId, a[bi.value].taskId, fuel - 1);
      }
    }
  }

  lemma MainTaskIdSameLinks(tasks: map<string, Task>, a: map<string, BotInstance>, b: map<string, BotInstance>,
                            botInstanceId: string, fuel: nat)
    requires SameLinks(a, b)
    ensures CqnCommon.MainTaskId(tasks, a, botInstanceId, fuel) == CqnCommon.MainTaskId(tasks, b, botInstanceId, fuel)
    ensures CqnCommon.ParentTaskByBotInstance(tasks, a, botInstanceId)
         == CqnCommon.ParentTaskByBotInstance(tasks, b, botInstanceId)
  {
    if botInstanceId in a {
      WalkSameLinks(tasks, a, b, botInstanceId, a[botInstanceId].taskId, fuel);
    }
  }

  /** adopt(botInstanceId, messageId). */
  method Adopt(db: Db, botInstanceId: string, messageId: string, configs: map<string, ModelResolver.ModelConfig>,
               newId: string, ghost fuel: nat) returns (r: Result<ContextNode>)
    requires CqnCommon.MainTaskId(db.tasks, db.botInstances, botInstanceId, fuel).Some?
    modifies db
    ensures var e := AdoptEffect(old(db.tasks), old(db.botInstances), old(db.botTypes), old(db.messages),
                                 old(db.contextNodes), configs, botInstanceId, messageId, newId, fuel);
      && r == e.result && db.contextNodes == e.table
      && db.botInstances == Apply(old(db.botInstances), botInstanceId, e.writes)
    ensures db.tasks == old(db.tasks) && db.botTypes == old(db.botTypes) && db.messages == old(db.messages)
  {
    var message := MessageById(db.messages, botInstanceId, messageId);
    if message.Err? {
      return Err(message.error);
    }
    var cur := GetCurrentBot(db.botInstances, db.botTypes, configs, botInstanceId);
    if cur.Err? {
      return Err(cur.error);
    }
    r := AdoptMessage(db, botInstanceId, cur.value.botType.outputContextPath, message.value.message, newId, fuel);
  }

  function MessageIdNotFound(messageId: string): Failure {
    BusinessException("Message not found: " + messageId)
  }

  function NoBotInstance(messageId: string): Failure {
    BusinessException("No bot instance associated with message: " + messageId)
  }

  /** getBotInstanceIdByMessageId: the bot instance link of the message
      with this ID (selectSingle on the ID), null when it has none. */
  function BotInstanceIdByMessageId(ms: seq<BotMessage>, messageId: string): (r: Result<Option<string>>)
    ensures r.Err? <==> forall m :: m in ms ==> m.id != messageId
    ensures r.Err? ==> r.error == MessageIdNotFound(messageId)
    ensures r.Ok? ==> exists k :: 0 <= k < |ms| && ms[k].id == messageId && ms[k].botInstanceId == r.value
  {
    if ms == [] then Err(MessageIdNotFound(messageId))
    else if ms[0].id == messageId then Ok(ms[0].botInstanceId)
    else
      var r := BotInstanceIdByMessageId(ms[1..], messageId);
      assert r.Ok? ==> exists k :: 1 <= k < |ms| && ms[k].id == messageId && ms[k].botInstanceId == r.value by {
        if r.Ok? {
          var k :| 0 <= k < |ms[1..]| && ms[1..][k].id == messageId && ms[1..][k].botInstanceId == r.value;
          assert ms[k + 1] == ms[1..][k];
        }
      }
      r
  }

  /** The walk from the message's bot instance to the main task ends
      within `fuel` steps, when the message has a bot instance. */
  predicate LinkedWalkEnds(tasks: map<string, Task>, insts: map<string, BotInstance>, ms: seq<BotMessage>,
                           messageId: string, fuel: nat)
  {
    var b := BotInstanceIdByMessageId(ms, messageId);
    b.Ok? && b.value.Some? ==> CqnCommon.MainTaskId(tasks, insts, b.value.value, fuel).Some?
  }

  /** adopt(context): the message's bot instance, then
      adopt(botInstanceId, messageId). */
  function AdoptByContextEffect(tasks: map<string, Task>, insts: map<string, BotInstance>, types: seq<BotType>,
                                ms: seq<BotMessage>, rows: seq<ContextNode>,
                                configs: map<string, ModelResolver.ModelConfig>,
                                messageId: string, newId: string, fuel: nat): Effect<ContextNode, seq<ContextNode>>
    requires LinkedWalkEnds(tasks, insts, ms, messageId, fuel)
  {
    match BotInstanceIdByMessageId(ms, messageId)
    case Err(e) => Effect(Err(e), [], rows)
    case Ok(None) => Effect(Err(NoBotInstance(messageId)), [], rows)
    case Ok(Some(b)) => AdoptEffect(tasks, insts, types, ms, rows, configs, b, messageId, newId, fuel)
  }

  /** Message IDs are keys. */
  predicate UniqueIds(ms: seq<BotMessage>) {
    forall i, j :: 0 <= i < |ms| && 0 <= j < |ms| && ms[i].id == ms[j].id ==> i == j
  }

  /** With message IDs unique: a missing message and a message without a
      bot instance fail before any write; a message with one is adopted
      into its own bot instance, where getMessageById finds it, so the
      answer is adopt(botInstanceId, messageId) for that instance and is
      never its message-not-found failure. */
  lemma AdoptByContextCases(tasks: map<string, Task>, insts: map<string, BotInstance>, types: seq<BotType>,
                            ms: seq<BotMessage>, rows: seq<ContextNode>,
                            configs: map<string, ModelResolver.ModelConfig>,
                            messageId: string, newId: string, fuel: nat, k: nat)
    requires LinkedWalkEnds(tasks, insts, ms, messageId, fuel) && UniqueIds(ms)
    requires k < |ms| && ms[k].id == messageId
    ensures var e := AdoptByContextEffect(tasks, insts, types, ms, rows, configs, messageId, newId, fuel);
      && (ms[k].botInstanceId.None? ==> e == Effect(Err(NoBotInstance(messageId)), [], rows))
      && (ms[k].botInstanceId.Some? ==>
            var b := ms[k].botInstanceId.value;
            && CqnCommon.MainTaskId(tasks, insts, b, fuel).Some?
            && MessageById(ms, b, messageId) == Ok(ms[k])
            && e == AdoptEffect(tasks, insts, types, ms, rows, configs, b, messageId, newId, fuel))
  {
    var r := BotInstanceIdByMessageId(ms, messageId);
    assert r.Ok? by { assert ms[k] in ms; }
    var j :| 0 <= j < |ms| && ms[j].id == messageId && ms[j].botInstanceId == r.value;
    assert j == k;
    if ms[k].botInstanceId.Some? {
      var b := ms[k].botInstanceId.value;
      MessageByIdUnique(ms, b, messageId, k);
    }
  }

  /** getMessageById finds the one message with this ID when it belongs to
      this bot instance. */
  lemma {:induction false} MessageByIdUnique(ms: seq<BotMessage>, botInstanceId: string, messageId: string, k: nat)
    requires UniqueIds(ms) && k < |ms| && ms[k].id == messageId && ms[k].botInstanceId == Some(botInstanceId)
    ensures MessageById(ms, botInstanceId, messageId) == Ok(ms[k])
  {
    if k > 0 {
      assert ms[0].id != messageId;
      assert UniqueIds(ms[1..]) by {
        forall i, j | 0 <= i < |ms[1..]| && 0 <= j < |ms[1..]| && ms[1..][i].id == ms[1..][j].id ensures i == j {
          assert ms[1..][i] == ms[i + 1] && ms[1..][j] == ms[j + 1];
        }
      }
      MessageByIdUnique(ms[1..], botInstanceId, messageId, k - 1);
    }
  }

  /** A message with no row fails with the lookup's not-found message. */
  lemma AdoptByContextMissing(tasks: map<string, Task>, insts: map<string, BotInstance>, types: seq<BotType>,
                              ms: seq<BotMessage>, rows: seq<ContextNode>,
                              configs: map<string, ModelResolver.ModelConfig>,
                              messageId: string, newId: string, fuel: nat)
    requires forall m :: m in ms ==> m.id != messageId
    ensures LinkedWalkEnds(tasks, insts, ms, messageId, fuel)
    ensures AdoptByContextEffect(tasks, insts, types, ms, rows, configs, messageId, newId, fuel)
            == Effect(Err(MessageIdNotFound(messageId)), [], rows)
  {
  }

  /** adopt(context). */
  method AdoptByContext(db: Db, messageId: string, configs: map<string, ModelResolver.ModelConfig>,
                        newId: string, ghost fuel: nat) returns (r: Result<ContextNode>)
    requires LinkedWalkEnds(db.tasks, db.botInstances, db.messages, messageId, fuel)
    modifies db
    ensures var e := AdoptByContextEffect(old(db.tasks), old(db.botInstances), old(db.botTypes), old(db.messages),
                                          old(db.contextNodes), configs, messageId, newId, fuel);
      && r == e.result && db.contextNodes == e.table
      && match BotInstanceIdByMessageId(old(db.messages), messageId)
         case Ok(Some(b)) => db.botInstances == Apply(old(db.botInstances), b, e.writes)
         case _ => db.botInstances == old(db.botInstances)
    ensures db.tasks == old(db.tasks) && db.botTypes == old(db.botTypes) && db.messages == old(db.messages)
  {
    var botInstanceId := BotInstanceIdByMessageId(db.messages, messageId);
    if botInstanceId.Err? {
      return Err(botInstanceId.error);
    }
    if botInstanceId.value.None? {
      return Err(NoBotInstance(messageId));
    }
    r := Adopt(db, botInstanceId.value.value, messageId, configs, newId, fuel);
  }

  /** adopt once the message and the bot are found. */
  method AdoptMessage(db: Db, botInstanceId: string, path: Option<string>, text: string, newId: string, ghost fuel: nat)
    returns (r: Result<ContextNode>)
    requires CqnCommon.MainTaskId(db.tasks, db.botInstances, botInstanceId, fuel).Some?
    requires botInstanceId in db.botInstances
    modifies db
    ensures var e := AdoptFound(old(db.tasks), old(db.botInstances), old(db.contextNodes), botInstanceId, path, text,
                                newId, fuel);
      && r == e.result && db.contextNodes == e.table
      && db.botInstances == Apply(old(db.botInstances), botInstanceId, e.writes)
    ensures db.tasks == old(db.tasks) && db.botTypes == old(db.botTypes) && db.messages == old(db.messages)
  {
    ghost var before := db.botInstances;
    ghost var e := AdoptFound(db.tasks, before, db.contextNodes, botInstanceId, path, text, newId, fuel);
    ghost var ws := Perform(db, botInstanceId, Status("R"), before, []);
    ApplySameLinks(before, botInstanceId, ws);
    if path.None? || IsBlank(path.value) {
      ws := Perform(db, botInstanceId, Status("F"), before, ws);
      r := Err(NoOutputPath(botInstanceId));
      assert e == Effect(r, ws, db.contextNodes);
      return;
    }
    ghost var d := Deliver(db.tasks, before, db.contextNodes, botInstanceId, path.value, text, newId, fuel);
    assert e == Effect(d.result, [Status("R")] + d.writes, d.table);
    r, ws := DeliverMessage(db, botInstanceId, path.value, text, newId, fuel, before, ws);
    assert ws == e.writes;
  }

  /** adopt after "R": resolve the full path, upsert, then write "S". */
  method DeliverMessage(db: Db, botInstanceId: string, path: string, text: string, newId: string, ghost fuel: nat,
                        ghost before: map<string, BotInstance>, ghost ws: seq<Write>)
    returns (r: Result<ContextNode>, ghost ws': seq<Write>)
    requires CqnCommon.MainTaskId(db.tasks, before, botInstanceId, fuel).Some?
    requires botInstanceId in db.botInstances && db.botInstances == Apply(before, botInstanceId, ws)
    requires SameLinks(before, db.botInstances)
    modifies db
    ensures var d := Deliver(old(db.tasks), before, old(db.contextNodes), botInstanceId, path, text, newId, fuel);
      && r == d.result && db.contextNodes == d.table
      && ws' == ws + d.writes && db.botInstances == Apply(before, botInstanceId, ws')
    ensures db.tasks == old(db.tasks) && db.botTypes == old(db.botTypes) && db.messages == old(db.messages)
  {
    MainTaskIdSameLinks(db.tasks, before, db.botInstances, botInstanceId, fuel);
    var full := ContextService.ContextFullPath(path, CqnCommon.ParentTaskByBotInstance(db.tasks, db.botInstances, botInstanceId));
    if full.Err? {
      return Err(full.error), ws;
    }
    var node := ContextService.UpsertContext(db, botInstanceId, full.value, Some(text), newId, fuel);
    if node.Err? {
      return node, ws;
    }
    ws' := Perform(db, botInstanceId, Status("S"), before, ws);
    r := node;
  }

  // ---------------------------------------------------------------------
  // Stubs

  /** The operations of the bot service. */
  datatype Operation = ChatOp | ChatInStreamingOp | ExecuteOp | ExecuteAsyncOp | AdoptOp

  function Name(op: Operation): string {
    match op
    case ChatOp => "chat"
    case ChatInStreamingOp => "chatInStreaming"
    case ExecuteOp => "execute"
    case ExecuteAsyncOp => "executeAsync"
    case AdoptOp => "adopt"
  }

  /** The UnsupportedOperationException of an unimplemented operation. */
  function Unimplemented(op: Operation): (f: Failure)
    ensures f.UnsupportedOperation?
  {
    UnsupportedOperation(Bot.UNIMPLEMENTED + Name(op) + "'")
  }

  /** The operations this service leaves as stubs. */
  function Dispatch(op: Operation): (r: Option<Failure>)
    ensures r.None? <==> op in [ChatOp, ExecuteOp, AdoptOp]
    ensures r.Some? ==> r.value == Unimplemented(op)
  {
    match op
    case ChatInStreamingOp => Some(Unimplemented(op))
    case ExecuteAsyncOp => Some(Unimplemented(op))
    case _ => None
  }
}
