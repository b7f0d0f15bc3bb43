/** The older chat bot (model/ChatBot.java): it asks isFirstCall instead
    of looking at the history it reads, and always reads the history after
    seeding. */
module LegacyChatBot {
  import opened Wrappers
  import opened Store
  import Bot
  import CqnCommon
  import GeminiService
  import ChatBot

  /** chat: seeding when isFirstCall holds, then the history, then one
      blocking call; any failure becomes "Chat failed".  On a store whose
      reads succeed it sends exactly what the newer chat bot sends. */
  method Chat(bot: ChatBot.ChatBot, db: Db, content: string, prompts: Option<seq<PromptText>>, ids: seq<string>,
              send: string -> (int, string), readTree: string -> Option<GeminiService.Json>)
    returns (r: Result<string>)
    requires |ids| == |prompts.GetOr([])|
    modifies db
    ensures var id := bot.botInstance.id;
      var h := MessagesOf(old(db.messages), id);
      && db.messages == old(db.messages) + (if h == [] then ChatBot.Seed(prompts, id, ids) else [])
      && var reply := send(GeminiService.RequestBody(ChatBot.ChatContext(h, prompts, id, ids, content), false));
         r == ChatBot.ChatFailed(GeminiService.ChatReply(reply.0, readTree(reply.1)))
    ensures db.tasks == old(db.tasks) && db.botInstances == old(db.botInstances)
    ensures db.botTypes == old(db.botTypes) && db.contextNodes == old(db.contextNodes)
  {
    var id := bot.botInstance.id;
    ghost var before := db.messages;
    var passed: Option<seq<PromptText>> := Some([]);
    var isFirstCall := CqnCommon.IsFirstCall(Ok(db.History(id)));
    if isFirstCall {
      passed := prompts;
      if prompts.Some? && prompts.value != [] {
        ChatBot.SavePromptMessages(db, id, prompts.value, ids);
        ghost var added := ChatBot.PromptMessages(prompts.value, id, ids);
        MessagesOfAppend(before, added, id);
        ChatBot.MessagesOfOwn(added, id);
      }
    }
    var history := db.History(id);
    assert history == (if MessagesOf(before, id) == [] then ChatBot.Seed(prompts, id, ids) else MessagesOf(before, id));
    assert passed == (if MessagesOf(before, id) == [] then prompts else Some([]));
    var response := GeminiService.ChatWithAI(Some(history), passed, Some(content), send, readTree);
    r := ChatBot.ChatFailed(response);
  }

  /** Every operation but chat is a stub, chatInStreaming included. */
  function Dispatch(op: Bot.Operation): (r: Option<Failure>)
    ensures r.None? <==> op == Bot.Chat
    ensures r.Some? ==> r.value == Bot.Unimplemented(op)
  {
    if op == Bot.Chat then None else Some(Bot.Unimplemented(op))
  }
}
