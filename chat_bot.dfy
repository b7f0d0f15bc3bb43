/** The chat bot (model/bot/ChatBot.java): on the first call of a bot
    instance it seeds the instance's history with the bot type's prompts,
    then asks the Gemini service, blocking or streaming.  Fetching the
    prompts, the HTTP exchange and Jackson's reader are parameters; message
    UUIDs are given. */
module ChatBot {
  import opened Wrappers
  import opened JavaText
  import opened Store
  import Bot
  import ModelResolver
  import GeminiService

  /** The fields a chat bot is built with; none of them changes later. */
  datatype ChatBot = ChatBot(botInstance: BotInstance, botType: BotType, aiModel: ModelResolver.AIModel)

  // ---------------------------------------------------------------------
  // savePromptMessages

  /** A prompt that savePromptMessages stores: content non-null and
      non-empty (not trimmed). */
  predicate Saved(p: PromptText) {
    p.content.Some? && p.content.value != []
  }

  /** The "system" rows savePromptMessages inserts, in prompt order;
      `ids[k]` is the UUID prompt k would be stored under. */
  function PromptMessages(ps: seq<PromptText>, botInstanceId: string, ids: seq<string>): (r: seq<BotMessage>)
    requires |ids| == |ps|
    ensures |r| <= |ps|
    ensures forall k :: 0 <= k < |r| ==>
      r[k].botInstanceId == Some(botInstanceId) && r[k].role == "system" && r[k].message != []
  {
    if ps == [] then []
    else
      var n := |ps| - 1;
      PromptMessages(ps[..n], botInstanceId, ids[..n])
      + (if Saved(ps[n]) then [BotMessage(ids[n], Some(botInstanceId), ps[n].content.value, "system")] else [])
  }

  /** Exactly the saved prompts are stored, each under its own UUID. */
  lemma {:induction false} PromptMessagesExact(ps: seq<PromptText>, botInstanceId: string, ids: seq<string>, m: BotMessage)
    requires |ids| == |ps|
    ensures m in PromptMessages(ps, botInstanceId, ids)
        <==> exists k :: 0 <= k < |ps| && Saved(ps[k])
                         && m == BotMessage(ids[k], Some(botInstanceId), ps[k].content.value, "system")
  {
    if ps != [] {
      var n := |ps| - 1;
      PromptMessagesExact(ps[..n], botInstanceId, ids[..n], m);
      if m in PromptMessages(ps, botInstanceId, ids) && m !in PromptMessages(ps[..n], botInstanceId, ids[..n]) {
        assert Saved(ps[n]) && m == BotMessage(ids[n], Some(botInstanceId), ps[n].content.value, "system");
      }
      if exists k :: 0 <= k < |ps| && Saved(ps[k]) && m == BotMessage(ids[k], Some(botInstanceId), ps[k].content.value, "system") {
        var k :| 0 <= k < |ps| && Saved(ps[k]) && m == BotMessage(ids[k], Some(botInstanceId), ps[k].content.value, "system");
        if k < n {
          assert ps[..n][k] == ps[k] && ids[..n][k] == ids[k];
        }
      }
    }
  }

  /** savePromptMessages: one createAndInsertBotMessage per saved prompt. */
  method SavePromptMessages(db: Db, botInstanceId: string, prompts: seq<PromptText>, ids: seq<string>)
    requires |ids| == |prompts|
    modifies db
    ensures db.messages == old(db.messages) + PromptMessages(prompts, botInstanceId, ids)
    ensures db.tasks == old(db.tasks) && db.botInstances == old(db.botInstances)
    ensures db.botTypes == old(db.botTypes) && db.contextNodes == old(db.contextNodes)
  {
    var i := 0;
    while i < |prompts|
      invariant 0 <= i <= |prompts|
      invariant db.messages == old(db.messages) + PromptMessages(prompts[..i], botInstanceId, ids[..i])
      invariant db.tasks == old(db.tasks) && db.botInstances == old(db.botInstances)
      invariant db.botTypes == old(db.botTypes) && db.contextNodes == old(db.contextNodes)
    {
      assert prompts[..i + 1][..i] == prompts[..i] && ids[..i + 1][..i] == ids[..i];
      var p := prompts[i];
      if p.content.Some? && p.content.value != [] {
        var m := db.InsertMessage(ids[i], botInstanceId, p.content.value, "system");
      }
      i := i + 1;
    }
    assert prompts[..i] == prompts && ids[..i] == ids;
  }

  // ---------------------------------------------------------------------
  // First-call seeding

  /** The rows seeding adds: none when getPrompts gave null or an empty
      list. */
  function Seed(prompts: Option<seq<PromptText>>, botInstanceId: string, ids: seq<string>): seq<BotMessage>
    requires |ids| == |prompts.GetOr([])|
  {
    if prompts.Some? && prompts.value != [] then PromptMessages(prompts.value, botInstanceId, ids) else []
  }

  /** Rows that all belong to the instance are all of its history. */
  lemma {:induction false} MessagesOfOwn(ms: seq<BotMessage>, botInstanceId: string)
    requires forall k :: 0 <= k < |ms| ==> ms[k].botInstanceId == Some(botInstanceId)
    ensures MessagesOf(ms, botInstanceId) == ms
  {
    if ms != [] {
      var n := |ms| - 1;
      var prefix := ms[..n];
      assert MessagesOf(prefix, botInstanceId) == prefix by {
        assert forall k :: 0 <= k < n ==> prefix[k] == ms[k];
        MessagesOfOwn(prefix, botInstanceId);
      }
      calc {
        MessagesOf(ms, botInstanceId);
        MessagesOf(prefix, botInstanceId) + [ms[n]];
        prefix + [ms[n]];
        { assert prefix + [ms[n]] == ms; }
        ms;
      }
    }
  }

  /** Steps 2 and 3 of chat and chatInStreaming: read the history; if it is
      empty, fetch the prompts (`prompts`, what getPrompts returns) and,
      when there are any, save them and read the history again.  Returns
      the history and the prompt list handed to the AI service: the
      fetched one on a first call, the initial empty list otherwise. */
  method LoadHistory(db: Db, botInstanceId: string, prompts: Option<seq<PromptText>>, ids: seq<string>)
    returns (history: seq<BotMessage>, passed: Option<seq<PromptText>>)
    requires |ids| == |prompts.GetOr([])|
    modifies db
    ensures var h := MessagesOf(old(db.messages), botInstanceId);
      && db.messages == old(db.messages) + (if h == [] then Seed(prompts, botInstanceId, ids) else [])
      && history == (if h == [] then Seed(prompts, botInstanceId, ids) else h)
      && passed == (if h == [] then prompts else Some([]))
    ensures db.tasks == old(db.tasks) && db.botInstances == old(db.botInstances)
    ensures db.botTypes == old(db.botTypes) && db.contextNodes == old(db.contextNodes)
  {
    history := db.History(botInstanceId);
    passed := Some([]);
    if history == [] {
      passed := prompts;
      if prompts.Some? && prompts.value != [] {
        ghost var before := db.messages;
        SavePromptMessages(db, botInstanceId, prompts.value, ids);
        history := db.History(botInstanceId);
        ghost var added := PromptMessages(prompts.value, botInstanceId, ids);
        MessagesOfAppend(before, added, botInstanceId);
        MessagesOfOwn(added, botInstanceId);
      }
    }
  }

  /** The conversation context a chat call sends, given the history `h`
      it first reads. */
  function ChatContext(h: seq<BotMessage>, prompts: Option<seq<PromptText>>, botInstanceId: string,
                       ids: seq<string>, content: string): seq<GeminiService.Turn>
    requires |ids| == |prompts.GetOr([])|
  {
    if h == [] then GeminiService.ConversationContext(Some(Seed(prompts, botInstanceId, ids)), prompts, Some(content))
    else GeminiService.ConversationContext(Some(h), Some([]), Some(content))
  }

  /** Seeded rows come back as history turns exactly as the prompts
      themselves become system turns: a saved but blank prompt is dropped
      on both sides. */
  lemma {:induction false} SeedTurns(ps: seq<PromptText>, botInstanceId: string, ids: seq<string>)
    requires |ids| == |ps|
    ensures GeminiService.HistoryTurns(PromptMessages(ps, botInstanceId, ids)) == GeminiService.SystemTurns(ps)
  {
    if ps != [] {
      var n := |ps| - 1;
      var init := PromptMessages(ps[..n], botInstanceId, ids[..n]);
      SeedTurns(ps[..n], botInstanceId, ids[..n]);
      var pm := PromptMessages(ps, botInstanceId, ids);
      assert GeminiService.SystemTurns(ps) == GeminiService.SystemTurns(ps[..n])
        + (if GeminiService.Sent(ps[n]) then [GeminiService.Turn("system", ps[n].content.value)] else []);
      if Saved(ps[n]) {
        var m := BotMessage(ids[n], Some(botInstanceId), ps[n].content.value, "system");
        assert pm == init + [m];
        assert (init + [m])[..|init|] == init;
        assert GeminiService.HistoryTurns(pm) == GeminiService.HistoryTurns(init)
          + (if !TrimEmpty(m.message) then [GeminiService.Turn("system", m.message)] else []);
      } else {
        assert pm == init;
        assert !GeminiService.Sent(ps[n]);
      }
    }
  }

  /** On a first call every prompt is sent twice: once as a prompt and
      once more as the history row seeding just wrote. */
  lemma FirstCallSendsPromptsTwice(ps: seq<PromptText>, botInstanceId: string, ids: seq<string>, content: string)
    requires |ids| == |ps|
    ensures ChatContext([], Some(ps), botInstanceId, ids, content)
         == GeminiService.SystemTurns(ps) + GeminiService.SystemTurns(ps) + GeminiService.UserTurns(Some(content))
  {
    SeedTurns(ps, botInstanceId, ids);
  }

  /** Later calls send no prompts, only the stored history and the new
      content. */
  lemma LaterCallSendsHistory(h: seq<BotMessage>, prompts: Option<seq<PromptText>>, botInstanceId: string,
                              ids: seq<string>, content: string)
    requires |ids| == |prompts.GetOr([])| && h != []
    ensures ChatContext(h, prompts, botInstanceId, ids, content)
         == GeminiService.HistoryTurns(h) + GeminiService.UserTurns(Some(content))
  {
  }

  // ---------------------------------------------------------------------
  // chat

  /** Any failure of the call surfaces as BusinessException("Chat failed"). */
  function ChatFailed(r: Result<string>): (w: Result<string>)
    ensures w.Ok? <==> r.Ok?
    ensures w.Ok? ==> w == r
    ensures w.Err? ==> w.error == BusinessException("Chat failed")
  {
    match r
    case Ok(t) => Ok(t)
    case Err(_) => Err(BusinessException("Chat failed"))
  }

  /** chat: seed on the first call, then one blocking Gemini exchange.
      The user and assistant messages are not stored here. */
  method Chat(bot: ChatBot, db: Db, content: string, prompts: Option<seq<PromptText>>, ids: seq<string>,
              send: string -> (int, string), readTree: string -> Option<GeminiService.Json>)
    returns (r: Result<string>)
    requires |ids| == |prompts.GetOr([])|
    modifies db
    ensures var id := bot.botInstance.id;
      var h := MessagesOf(old(db.messages), id);
      && db.messages == old(db.messages) + (if h == [] then Seed(prompts, id, ids) else [])
      && var reply := send(GeminiService.RequestBody(ChatContext(h, prompts, id, ids, content), false));
         r == ChatFailed(GeminiService.ChatReply(reply.0, readTree(reply.1)))
    ensures db.tasks == old(db.tasks) && db.botInstances == old(db.botInstances)
    ensures db.botTypes == old(db.botTypes) && db.contextNodes == old(db.contextNodes)
  {
    var history, passed := LoadHistory(db, bot.botInstance.id, prompts, ids);
    var response := GeminiService.ChatWithAI(Some(history), passed, Some(content), send, readTree);
    r := ChatFailed(response);
  }

  // ---------------------------------------------------------------------
  // chatInStreaming

  /** The completion callback: the user message, then the assistant
      message holding the complete response. */
  method SaveConversation(db: Db, botInstanceId: string, content: string, completeResponse: string,
                          userMessageId: string, assistantMessageId: string)
    modifies db
    ensures db.messages == old(db.messages)
      + [BotMessage(userMessageId, Some(botInstanceId), content, "user"),
         BotMessage(assistantMessageId, Some(botInstanceId), completeResponse, "assistant")]
    ensures db.tasks == old(db.tasks) && db.botInstances == old(db.botInstances)
    ensures db.botTypes == old(db.botTypes) && db.contextNodes == old(db.contextNodes)
  {
    var user := db.InsertMessage(userMessageId, botInstanceId, content, "user");
    var assistant := db.InsertMessage(assistantMessageId, botInstanceId, completeResponse, "assistant");
  }

  /** chatInStreaming, with the executor's task run to its end: seed on the
      first call, stream the reply, and on a complete stream store the
      exchange.  Returns the chunks sent to the emitter. */
  method ChatInStreaming(bot: ChatBot, db: Db, content: string, prompts: Option<seq<PromptText>>, ids: seq<string>,
                         userMessageId: string, assistantMessageId: string,
                         send: string -> (int, seq<string>), readTree: string -> Option<GeminiService.Json>)
    returns (chunks: seq<string>)
    requires |ids| == |prompts.GetOr([])|
    modifies db
    ensures var id := bot.botInstance.id;
      var h := MessagesOf(old(db.messages), id);
      var reply := send(GeminiService.RequestBody(ChatContext(h, prompts, id, ids, content), true));
      var streamed := GeminiService.Chunks(reply.1, GeminiService.ChunkReader(readTree), true);
      && chunks == (if reply.0 == 200 then streamed else [])
      && db.messages == old(db.messages) + (if h == [] then Seed(prompts, id, ids) else [])
         + (if reply.0 == 200
            then [BotMessage(userMessageId, Some(id), content, "user"),
                  BotMessage(assistantMessageId, Some(id), GeminiService.Concat(streamed), "assistant")]
            else [])
    ensures db.tasks == old(db.tasks) && db.botInstances == old(db.botInstances)
    ensures db.botTypes == old(db.botTypes) && db.contextNodes == old(db.contextNodes)
  {
    var id := bot.botInstance.id;
    var history, passed := LoadHistory(db, id, prompts, ids);
    var context := GeminiService.BuildConversationContext(Some(history), passed, Some(content));
    var processed;
    processed, chunks := GeminiService.StreamGemini(context, send, readTree);
    if processed.Some? {
      SaveConversation(db, id, content, processed.value, userMessageId, assistantMessageId);
    }
  }

  /** The operations this bot leaves as stubs: None for the two it
      implements. */
  function Dispatch(op: Bot.Operation): (r: Option<Failure>)
    ensures r.None? <==> op == Bot.Chat || op == Bot.ChatInStreaming
    ensures r.Some? ==> r.value == Bot.Unimplemented(op)
  {
    match op
    case Chat => None
    case ChatInStreaming => None
    case _ => Some(Bot.Unimplemented(op))
  }
}
