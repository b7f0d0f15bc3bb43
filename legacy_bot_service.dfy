/** The older bot service (service/impl/BotServiceImpl): only chat bots,
    and a chat that inserts the user's and the assistant's messages but
    never writes a status. */
module LegacyBotService {
  import opened Wrappers
  import opened Store
  import ModelResolver
  import ChatBot
  import LegacyChatBot
  import CqnCommon
  import BotService

  /** createBotInstance: only "A" (the other cases are commented out). */
  function CreateBotInstance(functionTypeCode: string): (r: Result<()>)
    ensures r.Ok? <==> functionTypeCode == "A"
    ensures r.Err? ==> r.error == BotService.UnsupportedType(functionTypeCode)
  {
    if functionTypeCode == "A" then Ok(()) else Err(BotService.UnsupportedType(functionTypeCode))
  }

  /** getBotTypeById of the older GenericCqnService: its not-found throw
      is commented out, so a missing row fails in `result.single`. */
  function ImplBotTypeById(types: seq<BotType>, id: string): (r: Result<BotType>)
    ensures r.Ok? <==> BotTypeById(types, id).Ok?
    ensures r.Ok? ==> r == BotTypeById(types, id)
    ensures r.Err? ==> r.error == EmptyResult(id)
  {
    match BotTypeById(types, id)
    case Err(_) => Err(EmptyResult(id))
    case Ok(t) => Ok(t)
  }

  /** getCurrentBot: the instance, its type, the resolved model, then the
      switch.  The instance and the type come from the older
      GenericCqnService, whose lookups fail with CAP's empty-result
      exception. */
  function GetCurrentBot(insts: map<string, BotInstance>, types: seq<BotType>,
                         configs: map<string, ModelResolver.ModelConfig>, botInstanceId: string): (r: Result<ChatBot.ChatBot>)
    ensures botInstanceId !in insts ==> r == Err(EmptyResult(botInstanceId))
    ensures botInstanceId in insts && BotTypeById(types, insts[botInstanceId].typeId).Err? ==>
              r == Err(EmptyResult(insts[botInstanceId].typeId))
    ensures r.Ok? ==> botInstanceId in insts && r.value.botInstance == insts[botInstanceId]
                      && r.value.botType.functionType == "A"
  {
    if botInstanceId !in insts then Err(EmptyResult(botInstanceId))
    else
      var inst := insts[botInstanceId];
      match ImplBotTypeById(types, inst.typeId)
      case Err(e) => Err(e)
      case Ok(botType) =>
        match ModelResolver.ResolveAIModelById(configs, botType.modelId)
        case Err(e) => Err(e)
        case Ok(model) =>
          match CreateBotInstance(botType.functionType)
          case Err(e) => Err(e)
          case Ok(_) => Ok(ChatBot.ChatBot(inst, botType, model))
  }

  /** The older service finds a bot exactly when the current one finds a
      chat bot, the same one; a function-calling or coding bot type that the
      current service accepts is rejected here as unsupported, and a
      missing instance fails with CAP's empty-result exception where the
      current service throws its own not-found message. */
  lemma OlderServiceOnlyChatBots(insts: map<string, BotInstance>, types: seq<BotType>,
                                 configs: map<string, ModelResolver.ModelConfig>, botInstanceId: string)
    ensures var cur := BotService.GetCurrentBot(insts, types, configs, botInstanceId);
      var old_ := GetCurrentBot(insts, types, configs, botInstanceId);
      && (old_.Ok? <==> cur.Ok? && cur.value.kind == BotService.ChatKind)
      && (old_.Ok? ==> old_.value == ChatBot.ChatBot(cur.value.instance, cur.value.botType, cur.value.aiModel))
      && (cur.Ok? && cur.value.kind != BotService.ChatKind ==>
            old_ == Err(BotService.UnsupportedType(cur.value.botType.functionType)))
      && (botInstanceId !in insts ==>
            cur == Err(BusinessException("BotInstance not found: " + botInstanceId))
            && old_ == Err(EmptyResult(botInstanceId)))
  {
  }

  /** chat(botInstanceId, content): on a chat bot, the answer and the
      messages are those of the current service's chat bot branch, and no
      status is written. Failures to find the bot are not wrapped. */
  method Chat(db: Db, botInstanceId: string, content: string, s: BotService.ChatServices,
              userMessageId: string, assistantMessageId: string) returns (r: Result<BotMessage>)
    requires BotService.Keyed(db.botInstances) && BotService.WellFormed(s)
    modifies db
    ensures match GetCurrentBot(old(db.botInstances), old(db.botTypes), s.configs, botInstanceId)
      case Err(e) => r == Err(e) && db.messages == old(db.messages)
      case Ok(_) =>
        var c := BotService.Converse(old(db.messages), s, botInstanceId, content, userMessageId, assistantMessageId);
        r == c.result && db.messages == c.table
    ensures db.botInstances == old(db.botInstances)
    ensures db.tasks == old(db.tasks) && db.botTypes == old(db.botTypes) && db.contextNodes == old(db.contextNodes)
  {
    var bot := GetCurrentBot(db.botInstances, db.botTypes, s.configs, botInstanceId);
    if bot.Err? {
      return Err(bot.error);
    }
    r := Converse(db, bot.value, content, s, userMessageId, assistantMessageId);
  }

  /** The chat with a found bot: the chat bot's history and answer, then
      the user's and the assistant's rows on an answer. */
  method Converse(db: Db, bot: ChatBot.ChatBot, content: string, s: BotService.ChatServices,
                  userMessageId: string, assistantMessageId: string) returns (r: Result<BotMessage>)
    requires BotService.WellFormed(s)
    modifies db
    ensures var c := BotService.Converse(old(db.messages), s, bot.botInstance.id, content, userMessageId, assistantMessageId);
      r == c.result && db.messages == c.table
    ensures db.botInstances == old(db.botInstances)
    ensures db.tasks == old(db.tasks) && db.botTypes == old(db.botTypes) && db.contextNodes == old(db.contextNodes)
  {
    var id := bot.botInstance.id;
    ghost var h := MessagesOf(db.messages, id);
    var response := LegacyChatBot.Chat(bot, db, content, s.prompts, s.promptIds, s.send, s.readTree);
    assert response == BotService.ChatAnswer(h, s, id, content);
    r := Record(db, id, content, response, userMessageId, assistantMessageId);
  }

  /** The inserts after the answer: the user's and the assistant's rows on
      an answer, nothing on a failure. */
  method Record(db: Db, id: string, content: string, response: Result<string>,
                userMessageId: string, assistantMessageId: string) returns (r: Result<BotMessage>)
    modifies db
    ensures var c := BotService.Recorded(old(db.messages), id, content, response, userMessageId, assistantMessageId);
      r == c.result && db.messages == c.table
    ensures db.botInstances == old(db.botInstances)
    ensures db.tasks == old(db.tasks) && db.botTypes == old(db.botTypes) && db.contextNodes == old(db.contextNodes)
  {
    if response.Err? {
      return Err(BotService.ChatFailedFor(id));
    }
    var userMessage := db.InsertMessage(userMessageId, id, content, "user");
    var botMessage := db.InsertMessage(assistantMessageId, id, response.value, "assistant");
    r := Ok(botMessage);
  }

  /** chat(context): the ID from the request's CQN (the same leftmost
      `"val":"…"` match), then chat. */
  method ChatByContext(db: Db, cqn: string, content: string, s: BotService.ChatServices,
                       userMessageId: string, assistantMessageId: string) returns (r: Result<BotMessage>)
    requires BotService.Keyed(db.botInstances) && BotService.WellFormed(s)
    modifies db
    ensures match CqnCommon.ExtractBotInstanceId(cqn)
      case Err(e) => r == Err(e) && db.messages == old(db.messages)
      case Ok(id) =>
        match GetCurrentBot(old(db.botInstances), old(db.botTypes), s.configs, id)
        case Err(e) => r == Err(e) && db.messages == old(db.messages)
        case Ok(_) =>
          var c := BotService.Converse(old(db.messages), s, id, content, userMessageId, assistantMessageId);
          r == c.result && db.messages == c.table
    ensures db.botInstances == old(db.botInstances)
    ensures db.tasks == old(db.tasks) && db.botTypes == old(db.botTypes) && db.contextNodes == old(db.contextNodes)
  {
    var id := CqnCommon.ExtractBotInstanceId(cqn);
    if id.Err? {
      return Err(id.error);
    }
    r := Chat(db, id.value, content, s, userMessageId, assistantMessageId);
  }

  /** Everything but chat is a stub here. */
  function Dispatch(op: BotService.Operation): (r: Option<Failure>)
    ensures r.None? <==> op == BotService.ChatOp
    ensures r.Some? ==> r.value == BotService.Unimplemented(op)
  {
    if op == BotService.ChatOp then None else Some(BotService.Unimplemented(op))
  }
}
