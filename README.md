# ai2code core, modelled in Dafny

ai2code is an SAP CAP application. It organises work as tasks, each with a
chain of bots (an AI chat bot, a function-calling bot, a coding bot), and
stores what the bots produce as context nodes addressed by dotted paths
such as `report.sections[0].title`. This project models the logic at the
centre of that application and proves what it guarantees:

- **Context trees.** `convertToFlatStructure` turns path records into a
  numbered flat tree of folders and leaves (`FlatTree`, with the proofs in
  `FlatTreeProofs`). `ContextServiceImpl` builds the parent/children
  hierarchy, resolves `SubContext:`/`Context:` paths, makes labels and
  upserts nodes (`ContextService`). The task detail screen merges fetched
  children into a tree node (`TaskDetail`).
- **String utilities.** The two label generators (`CqnCommon`, `CqnImpl`),
  the CQN `"val":"…"` ID extractor (`CqnCommon`), function-name
  sanitising and the Java-type to JSON-schema mapping (`FunctionCalls`),
  the `.env` reader and its getters (`DotEnv`), and the Gemini
  conversation, request body and streaming reader (`GeminiService`).
- **State machines, dispatch and validators.** The bot-instance status
  writes of chat, execute and adopt (`BotService`, and the older
  `LegacyBotService`), first-call prompt seeding (`ChatBot`,
  `LegacyChatBot`, `FunctionCallingBot`), the main-task walk
  (`CqnCommon`), bean and constructor resolution
  (`BotExecutionFactory`), model resolution (`ModelResolver`), and the
  request validators (`ChatController`, `CreateTasks`, `TaskCreation`).

The tables the services read and write live in `Store.Db`: a class whose
fields are maps from ID to row, or sequences where the source depends on
row order. Code that changes state step by step is written as methods.
Each method is proved to leave exactly the state that a function of the
old tables describes (`ChatEffect`, `AdoptEffect`, `FlatStructure`, …).
Lemmas then prove what that state means. `JavaText` gives the
`java.lang.String` behaviour the code relies on: `trim`, `split`
dropping trailing empty pieces, `indexOf`, `replace` and `parseInt`.
`LinkedSets` and `StableSort` give `LinkedHashSet` insertion order and
the stability of `Collections.sort`. AI replies, UUIDs, `hashCode`,
clocks, bean registries and class loading are parameters.

## Model

| member | source | states |
|---|---|---|
| Bot.Unimplemented | srv/src/main/java/com/sap/cap/ai2code/model/bot/ChatBot.java:51-78 | a stub fails with UnsupportedOperationException |
| Bot.UnimplementedNamesOperation | srv/src/main/java/com/sap/cap/ai2code/model/bot/ChatBot.java:51-78 | two stubs throw the same message exactly when they stub the same method, because the message names the method |
| ModelResolver.ResolveAIModel | srv/src/main/java/com/sap/cap/ai2code/model/AIModelResolver.java:39-57 | a resolved model keeps the configuration it came from |
| ModelResolver.ResolveOnlyGemini20 | srv/src/main/java/com/sap/cap/ai2code/model/AIModelResolver.java:39-57 | resolution succeeds iff the provider is "SAPAICore-Gemini" and the model name is "gemini-2.0"; every other configuration fails with IllegalArgumentException "Unsupported model: provider/modelName" |
| ModelResolver.ResolveAIModelById | srv/src/main/java/com/sap/cap/ai2code/model/AIModelResolver.java:31-34 | a missing configuration row fails with CAP's empty-result error naming the ID; a present one resolves as resolveAIModel(ModelConfigs) does |
| ModelResolver.ResolvedModelName | srv/src/main/java/com/sap/cap/ai2code/model/ai/SAPAICoreGemini20.java:19-22 | every model that resolves reports the name "gemini-2.0" |
| ModelResolver.ResolveAIService | srv/src/main/java/com/sap/cap/ai2code/model/AIModelResolver.java:62-71 | every provider, known or not, gets the Gemini service |
| LegacyBotService.CreateBotInstance | srv/src/main/java/com/sap/cap/ai2code/service/impl/BotServiceImpl.java:187-200 | only function type "A" makes a bot; any other code fails with "Unsupported bot function type: " and the code |
| LegacyBotService.ImplBotTypeById | srv/src/main/java/com/sap/cap/ai2code/service/impl/GenericCqnService.java:51-60 | finds the same type as the lookup by ID, and a missing type fails with CAP's empty-result error naming the ID |
| LegacyBotService.GetCurrentBot | srv/src/main/java/com/sap/cap/ai2code/service/impl/BotServiceImpl.java:41-56 | a missing instance or type fails with the empty-result error for its ID; a bot found wraps the stored instance and has function type "A" |
| LegacyBotService.OlderServiceOnlyChatBots | srv/src/main/java/com/sap/cap/ai2code/service/impl/BotServiceImpl.java:187-200 | the older service finds a bot iff the current one finds a chat bot, and it is the same bot; a function-calling or coding type is rejected as unsupported; a missing instance fails with the empty-result error where the current service throws "BotInstance not found" |
| LegacyBotService.Chat | srv/src/main/java/com/sap/cap/ai2code/service/impl/BotServiceImpl.java:74-106 | a lookup failure is returned unchanged and writes nothing; otherwise the answer and the message table are those of the shared chat specification; no status and no other table changes |
| LegacyBotService.Converse | srv/src/main/java/com/sap/cap/ai2code/service/impl/BotServiceImpl.java:78-93 | with a bot found, the reply and the new message table follow the shared chat specification |
| LegacyBotService.Record | srv/src/main/java/com/sap/cap/ai2code/service/impl/BotServiceImpl.java:86-98 | on an answer, the user row and then the assistant row are appended and the assistant row is returned; on a failure, nothing is written and the result is "Chat failed for bot: " and the ID |
| LegacyBotService.ChatByContext | srv/src/main/java/com/sap/cap/ai2code/service/impl/BotServiceImpl.java:66-71 | the ID comes from the CQN text (a missing match is the extraction error), then chat as above |
| LegacyBotService.Dispatch | srv/src/main/java/com/sap/cap/ai2code/service/impl/BotServiceImpl.java:108-148 | every operation but chat is an "Unimplemented method" stub |
| LegacyChatBot.Chat | srv/src/main/java/com/sap/cap/ai2code/model/ChatBot.java:84-130 | the prompts are saved only when the history is empty; the request sent is the one GeminiService.RequestBody builds, on the assumption that the older service behaves like the newer one; any failure becomes "Chat failed" |
| LegacyChatBot.Dispatch | srv/src/main/java/com/sap/cap/ai2code/model/ChatBot.java:48-82 | every operation but chat, chatInStreaming included, is an "Unimplemented method" stub |
| Store.MessagesOf | srv/src/main/java/com/sap/cap/ai2code/service/common/GenericCqnService.java:265-270 | the history has no more rows than the table |
| Store.MessagesOfMembers | srv/src/main/java/com/sap/cap/ai2code/service/common/GenericCqnService.java:265-270 | a row is in an instance's history iff it is in the table and links to that instance |
| Store.MessagesOfAppend | srv/src/main/java/com/sap/cap/ai2code/service/common/GenericCqnService.java:265-270 | the history of a table with rows appended is the old history followed by the appended rows' history |
| Store.RowsAt | srv/src/main/java/com/sap/cap/ai2code/service/common/GenericCqnService.java:338-354 | lists exactly the positions of the rows of that task at that path, each in range |
| Store.BotTypeById | srv/src/main/java/com/sap/cap/ai2code/service/common/GenericCqnService.java:72-77 | a row found has the ID asked for; the lookup fails iff no row has it |
| Store.Db.InsertMessage | srv/src/main/java/com/sap/cap/ai2code/service/common/GenericCqnService.java:300-309 | appends one row, linked to the instance, with the given text and role, and changes nothing else |
| Store.Db.SetStatus | srv/src/main/java/com/sap/cap/ai2code/service/common/GenericCqnService.java:224-229 | a missing instance fails and changes nothing; otherwise only that instance's status changes |
| Store.Db.SetResult | srv/src/main/java/com/sap/cap/ai2code/service/common/GenericCqnService.java:234-239 | a missing instance fails and changes nothing; otherwise only that instance's result changes |
| CqnCommon.MatchAt | srv/src/main/java/com/sap/cap/ai2code/service/common/GenericCqnService.java:171-174 | a capture is non-empty and has no quote in it |
| CqnCommon.FindValFrom | srv/src/main/java/com/sap/cap/ai2code/service/common/GenericCqnService.java:173-177 | Matcher.find: nothing is found iff the pattern matches at no position from i; otherwise the capture is that of the leftmost match |
| CqnCommon.ExtractBotInstanceId | srv/src/main/java/com/sap/cap/ai2code/service/common/GenericCqnService.java:171-183 | the ID is a non-empty, quote-free capture; the call fails iff the pattern matches nowhere, with "Could not extract bot instance ID from CQN: " and the CQN text |
| CqnCommon.NoMatchBeforeQuote | srv/src/main/java/com/sap/cap/ai2code/service/common/GenericCqnService.java:173 | the pattern cannot match before the first quote |
| CqnCommon.MatchAtKey | srv/src/main/java/com/sap/cap/ai2code/service/common/GenericCqnService.java:173 | at a `"val":"` key, the match captures up to the next quote |
| CqnCommon.FindFirstMatch | srv/src/main/java/com/sap/cap/ai2code/service/common/GenericCqnService.java:175-177 | a match with no match before it is the one find() reports |
| CqnCommon.ExtractEmbedded | srv/src/main/java/com/sap/cap/ai2code/service/common/GenericCqnService.java:171-178 | an ID written into a `"val":"<id>"` filter, with no quote before it, is the ID read back, whatever follows |
| CqnCommon.IsFirstCall | srv/src/main/java/com/sap/cap/ai2code/service/common/GenericCqnService.java:314-322 | a failed history query counts as a first call, as the catch returns true; a read history makes the call first exactly when it is empty |
| CqnCommon.FirstCallNoMessages | srv/src/main/java/com/sap/cap/ai2code/service/common/GenericCqnService.java:314-322 | on a readable store, a call is the first iff no message row links to the instance |
| CqnCommon.Walk | srv/src/main/java/com/sap/cap/ai2code/service/common/GenericCqnService.java:407-428 | a task the walk returns exists and is marked main |
| CqnCommon.MainTaskId | srv/src/main/java/com/sap/cap/ai2code/service/common/GenericCqnService.java:400-432 | a task returned exists and is marked main; a missing bot instance fails with "BotInstance not found: " and the ID |
| CqnCommon.WalkMoreFuel | srv/src/main/java/com/sap/cap/ai2code/service/common/GenericCqnService.java:407-428 | more iterations never change an outcome the walk already reached |
| CqnCommon.SelfCycleNeverEnds | srv/src/main/java/com/sap/cap/ai2code/service/common/GenericCqnService.java:407-428 | a non-main task whose own bot instance belongs to it makes the loop run forever: no iteration bound reaches an outcome |
| CqnCommon.GetMainTaskId | srv/src/main/java/com/sap/cap/ai2code/service/common/GenericCqnService.java:400-432 | the loop returns the walk's outcome, and a task it returns exists and is marked main |
| CqnCommon.ParentTaskByBotInstance | srv/src/main/java/com/sap/cap/ai2code/service/common/GenericCqnService.java:437-458 | succeeds iff the instance exists, has a task ID and that task exists, returning that task; every failure becomes "Failed to get parent task for botInstance: " and the ID |
| CqnCommon.CamelSpace | srv/src/main/java/com/sap/cap/ai2code/service/common/GenericCqnService.java:474 | the replacement never shortens the text |
| CqnCommon.CamelSpaceNoBoundary | srv/src/main/java/com/sap/cap/ai2code/service/common/GenericCqnService.java:474 | with no lower-case letter before an upper-case one, the text is unchanged |
| CqnCommon.CamelSpaceOnlyInsertsSpaces | srv/src/main/java/com/sap/cap/ai2code/service/common/GenericCqnService.java:474 | the replacement only inserts spaces: removing spaces gives the same text before and after |
| CqnCommon.Spaced | srv/src/main/java/com/sap/cap/ai2code/service/common/GenericCqnService.java:474-477 | the result has no '_', no '-' and no upper-case letter |
| CqnCommon.LastSegment | srv/src/main/java/com/sap/cap/ai2code/service/common/GenericCqnService.java:470-471 | the last piece of the split has no dot |
| CqnCommon.CapsFrom | srv/src/main/java/com/sap/cap/ai2code/service/common/GenericCqnService.java:480-492 | the scan keeps the length |
| CqnCommon.CapsFromPointwise | srv/src/main/java/com/sap/cap/ai2code/service/common/GenericCqnService.java:480-492 | exactly the first character of each word is upper-cased; everything else is copied |
| CqnCommon.CapitalizeWords | srv/src/main/java/com/sap/cap/ai2code/service/common/GenericCqnService.java:480-493 | the loop keeps the length and upper-cases exactly the first character of each word |
| CqnCommon.CapitalizedIsCaps | srv/src/main/java/com/sap/cap/ai2code/service/common/GenericCqnService.java:480-493 | the loop's output is the recursive scan's output |
| CqnCommon.GenerateLabelFromPath | srv/src/main/java/com/sap/cap/ai2code/service/common/GenericCqnService.java:464-494 | the label is the last segment, spaced, lower-cased, with each word's first letter upper-cased |
| CqnCommon.LastSegmentOf | srv/src/main/java/com/sap/cap/ai2code/service/common/GenericCqnService.java:470-471 | the last segment of "a.b" is b |
| CqnCommon.CamelTwoWords | srv/src/main/java/com/sap/cap/ai2code/service/common/GenericCqnService.java:474 | a lower-case word followed by a capitalised one is split by one space |
| CqnCommon.UserNameLabel | srv/src/main/java/com/sap/cap/ai2code/service/common/GenericCqnService.java:464-494 | "report.userName" is labelled "User Name" |
| CqnCommon.CapsFromWord | srv/src/main/java/com/sap/cap/ai2code/service/common/GenericCqnService.java:480-492 | inside a word the scan copies characters, and the space after it arms the flag for the next word |
| CqnCommon.TwoWordsCapitalized | srv/src/main/java/com/sap/cap/ai2code/service/common/GenericCqnService.java:480-492 | two words separated by one space each get their first letter upper-cased |
| CqnImpl.WordLen | srv/src/main/java/com/sap/cap/ai2code/service/impl/GenericCqnService.java:332 | the leading run has no \\s character and stops at one |
| CqnImpl.Words | srv/src/main/java/com/sap/cap/ai2code/service/impl/GenericCqnService.java:332-335 | the non-empty pieces of split("\\s+") are non-empty and contain only characters of the text that are not \\s |
| CqnImpl.CapWord | srv/src/main/java/com/sap/cap/ai2code/service/impl/GenericCqnService.java:336-339 | the first character is upper-cased; the rest is kept |
| CqnImpl.CapWords | srv/src/main/java/com/sap/cap/ai2code/service/impl/GenericCqnService.java:334-341 | each word capitalised, in order |
| CqnImpl.AssembleWords | srv/src/main/java/com/sap/cap/ai2code/service/impl/GenericCqnService.java:333-342 | the StringBuilder holds each word capitalised and followed by one space |
| CqnImpl.GenerateLabelFromPath | srv/src/main/java/com/sap/cap/ai2code/service/impl/GenericCqnService.java:318-344 | an empty path gives "Context"; otherwise the trimmed, capitalised words of the processed last segment |
| CqnImpl.AssembledIsJoin | srv/src/main/java/com/sap/cap/ai2code/service/impl/GenericCqnService.java:333-342 | the assembled words are the capitalised words joined by single spaces, plus one trailing space |
| CqnImpl.TrimmedWordsAreJoin | srv/src/main/java/com/sap/cap/ai2code/service/impl/GenericCqnService.java:332-343 | without control characters, the trimmed result is the capitalised words joined by single spaces |
| CqnImpl.WordLabelIsJoin | srv/src/main/java/com/sap/cap/ai2code/service/impl/GenericCqnService.java:323-343 | without control characters in the segment, the label is its capitalised words joined by single spaces, or empty when there is none |
| CqnImpl.WordLabelNoDoubleSpace | srv/src/main/java/com/sap/cap/ai2code/service/impl/GenericCqnService.java:332-343 | the older label never has two spaces in a row, where the common service's label keeps every whitespace run |
| ChatBot.PromptMessages | srv/src/main/java/com/sap/cap/ai2code/model/bot/ChatBot.java:182-189 | every stored row links to the instance, has role "system" and non-empty text, and there are no more rows than prompts |
| ChatBot.PromptMessagesExact | srv/src/main/java/com/sap/cap/ai2code/model/bot/ChatBot.java:182-189 | a row is stored iff it is the row of some prompt whose content is non-null and non-empty, under that prompt's UUID |
| ChatBot.SavePromptMessages | srv/src/main/java/com/sap/cap/ai2code/model/bot/ChatBot.java:182-189 | appends exactly those rows, in prompt order, and changes nothing else |
| ChatBot.MessagesOfOwn | srv/src/main/java/com/sap/cap/ai2code/model/bot/ChatBot.java:182-189 | rows that all belong to the instance are all of its history |
| ChatBot.LoadHistory | srv/src/main/java/com/sap/cap/ai2code/model/bot/ChatBot.java:151-162 | on an empty history the prompts are fetched and their rows saved, and the re-read history is those rows; otherwise nothing is written and the prompts passed on are the initial empty list |
| ChatBot.SeedTurns | srv/src/main/java/com/sap/cap/ai2code/model/bot/ChatBot.java:155-165 | seeded rows come back as history turns exactly as the prompts become system turns |
| ChatBot.FirstCallSendsPromptsTwice | srv/src/main/java/com/sap/cap/ai2code/model/bot/ChatBot.java:155-165 | on a first call every prompt is sent twice: as a prompt and as the history row just written |
| ChatBot.LaterCallSendsHistory | srv/src/main/java/com/sap/cap/ai2code/model/bot/ChatBot.java:151-165 | a later call sends no prompts, only the stored history and the new content |
| ChatBot.ChatFailed | srv/src/main/java/com/sap/cap/ai2code/model/bot/ChatBot.java:169-171 | a success passes through; every failure becomes BusinessException "Chat failed" |
| ChatBot.Chat | srv/src/main/java/com/sap/cap/ai2code/model/bot/ChatBot.java:142-172 | seeds on a first call, sends the request built from the history, prompts and content, and returns the reply or "Chat failed"; the user and assistant rows are not stored here |
| ChatBot.SaveConversation | srv/src/main/java/com/sap/cap/ai2code/model/bot/ChatBot.java:110-133 | appends the user row, then the assistant row with the complete response |
| ChatBot.ChatInStreaming | srv/src/main/java/com/sap/cap/ai2code/model/bot/ChatBot.java:80-140 | seeds on a first call, streams the reply, and on a complete stream stores the user row and the assistant row holding the concatenated chunks; on a failed call nothing more is stored |
| ChatBot.Dispatch | srv/src/main/java/com/sap/cap/ai2code/model/bot/ChatBot.java:48-78 | every operation except chat and chatInStreaming is an "Unimplemented method" stub |
| ChatController.Validate | srv/src/main/java/com/sap/cap/ai2code/controllers/StreamingChatController.java:82-89 | validation passes iff neither the ID nor the content is null or blank once trimmed; a failure is an IllegalArgumentException |
| ChatController.ValidatedRequestHasText | srv/src/main/java/com/sap/cap/ai2code/controllers/StreamingChatController.java:82-89 | a valid request has an ID and a content that are non-empty once trimmed; the ID is checked first, so a request missing both is reported for its ID |
| ChatController.StreamChat | srv/src/main/java/com/sap/cap/ai2code/controllers/StreamingChatController.java:54-67 | a validation failure becomes BusinessException "Validation failed:" plus its message; otherwise the answer is chatInStreaming's for the untrimmed ID and content |
| ChatController.EndpointAlwaysFails | srv/src/main/java/com/sap/cap/ai2code/controllers/StreamingChatController.java:54-67 | with the bot service the endpoint is wired to, every request fails: with the validation message when invalid, with "Unimplemented method 'chatInStreaming'" when valid |
| ChatController.InvalidRequestNeverReachesService | srv/src/main/java/com/sap/cap/ai2code/controllers/StreamingChatController.java:58-64 | an invalid request gets the same answer whichever service is wired in |
| CreateTasks.FirstIncomplete | srv/src/main/java/com/sap/cap/ai2code/service/bot/CreateTasksBotExecution.java:52-55 | every parameter before the position found has a sequence, a name and a description, and the one at it (if any) lacks one |
| CreateTasks.CallsFor | srv/src/main/java/com/sap/cap/ai2code/service/bot/CreateTasksBotExecution.java:52-59 | one task-service call per parameter, in order, with its name, description, context path and sequence |
| CreateTasks.Execute | srv/src/main/java/com/sap/cap/ai2code/service/bot/CreateTasksBotExecution.java:39-61 | null or empty parameters fail first, then a null or empty bot instance ID, each before any call; otherwise the loop stops at the first parameter that is incomplete (its message, no call for it) or whose task the service fails to create (the service's failure, after that call): the calls for the parameters before it have been made; success iff all inputs are present and every parameter is complete and created, with the created task IDs in order |
| CreateTasks.FirstFailing | srv/src/main/java/com/sap/cap/ai2code/service/bot/CreateTasksBotExecution.java:52-59 | every parameter before the position found is complete and its task is created, and the one at it (if any) is not |
| CreateTasks.TasksFor | srv/src/main/java/com/sap/cap/ai2code/service/bot/CreateTasksBotExecution.java:57-58 | one task ID per parameter, in order, each the ID the service returned for that parameter's call |
| CreateTasks.FirstFailingIs | srv/src/main/java/com/sap/cap/ai2code/service/bot/CreateTasksBotExecution.java:52-59 | the first failing parameter is the one before which every task is created and whose own is not |
| CreateTasks.FailingNoLaterThanIncomplete | srv/src/main/java/com/sap/cap/ai2code/service/bot/CreateTasksBotExecution.java:52-59 | a service failure only stops the loop earlier: the first failure is at or before the first incomplete parameter, and at it when the service never fails |
| CreateTasks.FirstIncompleteIs | srv/src/main/java/com/sap/cap/ai2code/service/bot/CreateTasksBotExecution.java:52-55 | the first incomplete parameter is the one before which all are complete and which is not |
| TaskCreation.Before | srv/src/main/java/com/sap/cap/ai2code/handlers/createTaskWithBotsHandler.java:33-45 | passes iff neither the type ID nor the name is null or blank once trimmed; the type ID is checked first; the description is not checked |
| TaskCreation.BotTypesOf | srv/src/main/java/com/sap/cap/ai2code/handlers/createTaskWithBotsHandler.java:88-92 | exactly the bot types of that task type, in table order |
| TaskCreation.WithInstancesContents | srv/src/main/java/com/sap/cap/ai2code/handlers/createTaskWithBotsHandler.java:96-113 | with fresh, distinct IDs the old instances stay, and the instance under the k-th ID is the one made for the k-th bot type |
| TaskCreation.CreateTaskWithBots | srv/src/main/java/com/sap/cap/ai2code/handlers/createTaskWithBotsHandler.java:33-132 | a rejected request changes nothing; otherwise the main task (untrimmed name, type and description, isMain true, null context path, sequence 0) is inserted, then one Created instance per bot type of its task type, then the description's context node |
| TaskCreation.BotPerType | srv/src/main/java/com/sap/cap/ai2code/handlers/createTaskWithBotsHandler.java:96-113 | each bot type of its task type gets its own Created instance of the new task with that type's ID and sequence; no other instance changes |
| TaskCreation.DescriptionNodeHoldsDescription | srv/src/main/java/com/sap/cap/ai2code/handlers/createTaskWithBotsHandler.java:115-126 | the new context node belongs to the new task and holds the description as path, label, type and value; a null description leaves the value null |
| DotEnv.Unquote | srv/src/main/java/com/sap/cap/ai2code/handlers/envLoader.java:61-65 | the key is kept; the call fails exactly on a lone `"` value, where substring(1, 0) throws |
| DotEnv.SplitEntry | srv/src/main/java/com/sap/cap/ai2code/handlers/envLoader.java:55-66 | a key read is non-empty and has no '=' |
| DotEnv.ParseLine | srv/src/main/java/com/sap/cap/ai2code/handlers/envLoader.java:46-66 | a blank or comment line adds nothing; a key read is non-empty and has no '=' |
| DotEnv.ParseUncommented | srv/src/main/java/com/sap/cap/ai2code/handlers/envLoader.java:47-56 | a trimmed line that does not start with '#' is split at its first '=' |
| DotEnv.EntryLine | srv/src/main/java/com/sap/cap/ai2code/handlers/envLoader.java:55-62 | the line `key=rest` gives that key with the trimmed rest, unquoted |
| DotEnv.ParsePlainLine | srv/src/main/java/com/sap/cap/ai2code/handlers/envLoader.java:46-66 | `key=value` with a plain key and value reads back as that key and value |
| DotEnv.ParseQuotedLine | srv/src/main/java/com/sap/cap/ai2code/handlers/envLoader.java:61-63 | `key="value"` reads back as that key and exactly what lies between the quotes |
| DotEnv.ParseLoneQuote | srv/src/main/java/com/sap/cap/ai2code/handlers/envLoader.java:61-63 | a lone quote as the value is the one line that fails |
| DotEnv.LastLineWins | srv/src/main/java/com/sap/cap/ai2code/handlers/envLoader.java:46-68 | when every line reads, a key ends up with the value of the last line that sets it, and a key no line sets keeps its earlier value |
| DotEnv.LoadStep | srv/src/main/java/com/sap/cap/ai2code/handlers/envLoader.java:46-66 | one more line: a failure stops the read, a skipped line changes nothing, an entry overwrites its key |
| DotEnv.LoadFailureStays | srv/src/main/java/com/sap/cap/ai2code/handlers/envLoader.java:44-68 | a failed line decides the outcome of every longer prefix of the file |
| DotEnv.Candidates | srv/src/main/java/com/sap/cap/ai2code/handlers/envLoader.java:24-29 | four candidates, tried in order: ".env", user.dir's, "/etc/myapp/.env", user.home's |
| DotEnv.FirstOpen | srv/src/main/java/com/sap/cap/ai2code/handlers/envLoader.java:31-39 | the index found is the first candidate that opens; none found means none opens |
| DotEnv.FirstOpenStays | srv/src/main/java/com/sap/cap/ai2code/handlers/envLoader.java:31-39 | a candidate that opens stays the first one however many more are tried |
| DotEnv.EnvLoader.LoadFromReader | srv/src/main/java/com/sap/cap/ai2code/handlers/envLoader.java:44-69 | the map is the old map with the file's entries applied in order, up to a failing line; `loaded` becomes true only when every line is read |
| DotEnv.EnvLoader.ReadLines | srv/src/main/java/com/sap/cap/ai2code/handlers/envLoader.java:45-68 | the reading loop applies each line's entry in turn and stops at the first failure |
| DotEnv.EnvLoader.LoadEnvFile | srv/src/main/java/com/sap/cap/ai2code/handlers/envLoader.java:18-42 | nothing is read once loaded; otherwise the first candidate that opens is read and no later one is tried; with none, nothing changes |
| DotEnv.EnvLoader.Get | srv/src/main/java/com/sap/cap/ai2code/handlers/envLoader.java:71-80 | the process environment wins; otherwise the file's value, if any |
| DotEnv.EnvLoader.GetOr | srv/src/main/java/com/sap/cap/ai2code/handlers/envLoader.java:82-85 | the value when present, the default otherwise |
| DotEnv.EnvLoader.GetRequired | srv/src/main/java/com/sap/cap/ai2code/handlers/envLoader.java:88-94 | succeeds iff the value is present and not blank, returning it; otherwise RuntimeException "Required environment variable '<key>' is not set" |
| DotEnv.EnvLoader.GetInt | srv/src/main/java/com/sap/cap/ai2code/handlers/envLoader.java:96-106 | the parsed int when the value is present and parses, the default otherwise |
| DotEnv.EnvLoader.GetRequiredInt | srv/src/main/java/com/sap/cap/ai2code/handlers/envLoader.java:108-115 | getRequired's failure passes through; a result is the parse of the required value |
| DotEnv.EnvLoader.GetBoolean | srv/src/main/java/com/sap/cap/ai2code/handlers/envLoader.java:117-123 | a present value gives true iff it equals "true" ignoring case; a missing one gives the default |
| DotEnv.EnvLoader.GetIntRoundTrip | srv/src/main/java/com/sap/cap/ai2code/handlers/envLoader.java:96-106 | an int written by Integer.toString is read back by getInt |
| DotEnv.EnvLoader.FileValueVisible | srv/src/main/java/com/sap/cap/ai2code/handlers/envLoader.java:71-94 | a value set by the file is what get returns, and getRequired accepts it when it is not blank, unless the process environment has the key |
| FlatTree.Lookup | srv/src/main/java/com/sap/cap/ai2code/handlers/getContextNodesTreeHandler.java:133 | Map.get finds a path exactly when it was put, with the id put for it (also lines 161, 167) |
| FlatTree.HandlerParentPath | srv/src/main/java/com/sap/cap/ai2code/handlers/getContextNodesTreeHandler.java:164-168 | a parent path exists iff the last dot is past position 0, and it is a proper, non-empty prefix (also lines 221-224) |
| FlatTree.PrefixList | srv/src/main/java/com/sap/cap/ai2code/handlers/getContextNodesTreeHandler.java:105-112 | one value of currentPath per part, the j-th being the path after j+1 parts |
| FlatTree.LeafParent | srv/src/main/java/com/sap/cap/ai2code/handlers/getContextNodesTreeHandler.java:161-175 | the item's own path's folder id when there is one; with neither its own folder nor a parent path, no parent |
| FlatTree.MarkDrill | srv/src/main/java/com/sap/cap/ai2code/handlers/getContextNodesTreeHandler.java:206-216 | step 4 keeps the row count |
| FlatTree.SameParentsSameChildren | srv/src/main/java/com/sap/cap/ai2code/handlers/getContextNodesTreeHandler.java:209-210 | whether a folder has children depends only on the ParentNodeIDs |
| FlatTree.SortedSegmented | srv/src/main/java/com/sap/cap/ai2code/handlers/getContextNodesTreeHandler.java:117-128 | every sorted folder path has a last part, so parts[parts.length - 1] never fails |
| FlatTree.SplitNonEmpty | srv/src/main/java/com/sap/cap/ai2code/handlers/getContextNodesTreeHandler.java:97 | split("\\.") of the empty string or of a path with a non-dot gives at least one part (also line 127) |
| FlatTree.ItemFoldersSegmented | srv/src/main/java/com/sap/cap/ai2code/handlers/getContextNodesTreeHandler.java:94-114 | every folder path step 1 adds for one item has at least one part |
| FlatTree.CollectedSegmented | srv/src/main/java/com/sap/cap/ai2code/handlers/getContextNodesTreeHandler.java:94-114 | every folder path step 1 collects has at least one part |
| FlatTree.FindParentLevel | srv/src/main/java/com/sap/cap/ai2code/handlers/getContextNodesTreeHandler.java:178-184 | the level of the first node carrying the parent id, or -1 when none does |
| FlatTree.AddPrefixes | srv/src/main/java/com/sap/cap/ai2code/handlers/getContextNodesTreeHandler.java:105-112 | the prefix loop adds each currentPath value to the ordered set in turn |
| FlatTree.AddPathFolders | srv/src/main/java/com/sap/cap/ai2code/handlers/getContextNodesTreeHandler.java:95-113 | one item adds parts[0] and then its prefixes; a null-free empty path adds nothing |
| FlatTree.CollectFolderPaths | srv/src/main/java/com/sap/cap/ai2code/handlers/getContextNodesTreeHandler.java:91-114 | step 1 leaves the LinkedHashSet holding the items' folder paths in first-seen order |
| FlatTree.FolderPassStep | srv/src/main/java/com/sap/cap/ai2code/handlers/getContextNodesTreeHandler.java:122-153 | one sorted path: skipped when already numbered, otherwise a node numbered one past the last and recorded in pathToNodeId |
| FlatTree.BuildFolderNodes | srv/src/main/java/com/sap/cap/ai2code/handlers/getContextNodesTreeHandler.java:116-153 | step 2's nodes and id map are FolderPass of the sorted paths |
| FlatTree.AddLeaves | srv/src/main/java/com/sap/cap/ai2code/handlers/getContextNodesTreeHandler.java:155-202 | step 3 appends one leaf per item that finds a parent, in input order |
| FlatTree.MarkChildlessFolders | srv/src/main/java/com/sap/cap/ai2code/handlers/getContextNodesTreeHandler.java:204-216 | step 4's result is MarkDrill of the rows |
| FlatTree.ConvertToFlatStructure | srv/src/main/java/com/sap/cap/ai2code/handlers/getContextNodesTreeHandler.java:81-219 | the result is FlatStructure of the items, whose properties the lemmas below state |
| FlatTreeProofs.FolderPassIds | srv/src/main/java/com/sap/cap/ai2code/handlers/getContextNodesTreeHandler.java:122-153 | on distinct sorted paths every path is numbered by its position plus one |
| FlatTreeProofs.FolderPassAt | srv/src/main/java/com/sap/cap/ai2code/handlers/getContextNodesTreeHandler.java:122-153 | on distinct paths the i-th folder node is built for the i-th path from the ids numbered before it |
| FlatTreeProofs.FolderParentId | srv/src/main/java/com/sap/cap/ai2code/handlers/getContextNodesTreeHandler.java:127-147 | folder i has id i+1, its path, level parts-1, DrillState "expanded", type "folder", no ID/value; a single-part folder has no parent; otherwise it has one iff its parent path came earlier, and then it is that path's id |
| FlatTreeProofs.FolderParentShape | srv/src/main/java/com/sap/cap/ai2code/handlers/getContextNodesTreeHandler.java:129 | a multi-part folder is its parent path, a dot, and a dot-free last part |
| FlatTreeProofs.FolderParentOf | srv/src/main/java/com/sap/cap/ai2code/handlers/getContextNodesTreeHandler.java:129 | the parent of c + "." + t, t dot-free, is c |
| FlatTreeProofs.ParentSegCount | srv/src/main/java/com/sap/cap/ai2code/handlers/getContextNodesTreeHandler.java:118-120 | a parent path never has more parts than its child, so the sort by part count can only put it earlier or level (also line 129) |
| FlatTreeProofs.ItemFoldersParentsEarlier | srv/src/main/java/com/sap/cap/ai2code/handlers/getContextNodesTreeHandler.java:94-114 | for one item, every multi-part folder path is preceded by its parent path |
| FlatTreeProofs.ItemFolderRoot | srv/src/main/java/com/sap/cap/ai2code/handlers/getContextNodesTreeHandler.java:99-102 | an item's first folder path is its first part, a single segment |
| FlatTreeProofs.CollectedParentsEarlier | srv/src/main/java/com/sap/cap/ai2code/handlers/getContextNodesTreeHandler.java:91-114 | the collected folder paths are distinct and each multi-part one is preceded by its parent |
| FlatTreeProofs.SortedParentsEarlier | srv/src/main/java/com/sap/cap/ai2code/handlers/getContextNodesTreeHandler.java:117-120 | after the stable sort by part count, parents still come before children and no path repeats |
| FlatTreeProofs.CleanParent | srv/src/main/java/com/sap/cap/ai2code/handlers/getContextNodesTreeHandler.java:129 | the parent of a folder without empty segments has none either, and exactly one part fewer |
| FlatTreeProofs.PlacedExact | srv/src/main/java/com/sap/cap/ai2code/handlers/getContextNodesTreeHandler.java:161-175 | the items placed are exactly those whose path is a folder or whose text before the last dot is |
| FlatTreeProofs.LevelOfNumbered | srv/src/main/java/com/sap/cap/ai2code/handlers/getContextNodesTreeHandler.java:178-184 | on rows numbered by position, the level found for an id is that row's level |
| FlatTreeProofs.LeafParentPlaceable | srv/src/main/java/com/sap/cap/ai2code/handlers/getContextNodesTreeHandler.java:161-175 | an item finds a parent id iff it is placeable, and the id is one of the folders' |
| FlatTreeProofs.KeptPlaced | srv/src/main/java/com/sap/cap/ai2code/handlers/getContextNodesTreeHandler.java:161-175 | the items step 3 keeps are the placeable ones, in input order |
| FlatTreeProofs.LeafPassNumbers | srv/src/main/java/com/sap/cap/ai2code/handlers/getContextNodesTreeHandler.java:155-202 | step 3 keeps the folder rows, adds one row per kept item, and every row's NodeID is its position plus one |
| FlatTreeProofs.LeafAt | srv/src/main/java/com/sap/cap/ai2code/handlers/getContextNodesTreeHandler.java:177-201 | the k-th kept item becomes row folders+k: a leaf numbered next, one level below its parent folder |
| FlatTreeProofs.ItemFolderMembers | srv/src/main/java/com/sap/cap/ai2code/handlers/getContextNodesTreeHandler.java:94-114 | an item adds exactly its currentPath values, and nothing for an empty path |
| FlatTreeProofs.CollectedMembers | srv/src/main/java/com/sap/cap/ai2code/handlers/getContextNodesTreeHandler.java:91-114 | a path is collected iff some item adds it |
| FlatTreeProofs.FolderPathsExact | srv/src/main/java/com/sap/cap/ai2code/handlers/getContextNodesTreeHandler.java:91-120 | the sorted folder list holds exactly the items' folders, once each, ordered by part count, each part count keeping first-seen order |
| FlatTreeProofs.CleanOwnFolder | srv/src/main/java/com/sap/cap/ai2code/handlers/getContextNodesTreeHandler.java:105-112 | a path without empty segments is itself a folder (the last currentPath value) |
| FlatTreeProofs.EmptyFolderNeedsLeadingDot | srv/src/main/java/com/sap/cap/ai2code/handlers/getContextNodesTreeHandler.java:97-112 | the folder "" arises only from a path starting with a dot |
| FlatTreeProofs.ItemFolderIsDotPrefix | srv/src/main/java/com/sap/cap/ai2code/handlers/getContextNodesTreeHandler.java:105-112 | each folder a clean path adds is a dot-prefix of the path |
| FlatTreeProofs.DotPrefixIsItemFolder | srv/src/main/java/com/sap/cap/ai2code/handlers/getContextNodesTreeHandler.java:105-112 | each proper dot-prefix of a clean path is one of its folders |
| FlatTreeProofs.ItemFoldersAreDotPrefixes | srv/src/main/java/com/sap/cap/ai2code/handlers/getContextNodesTreeHandler.java:94-114 | for a path without empty segments, its folders are exactly its dot-prefixes, the whole path included |
| FlatTreeProofs.FolderPassOk | srv/src/main/java/com/sap/cap/ai2code/handlers/getContextNodesTreeHandler.java:122-153 | step 2 on distinct segmented paths hands step 3 position-numbered nodes and an id map that inverts the numbering |
| FlatTreeProofs.StageFacts | srv/src/main/java/com/sap/cap/ai2code/handlers/getContextNodesTreeHandler.java:91-153 | the sorted folder list is segmented, distinct and parent-first, and step 2 numbers it by position |
| FlatTreeProofs.MarkDrillKeeps | srv/src/main/java/com/sap/cap/ai2code/handlers/getContextNodesTreeHandler.java:206-216 | step 4 changes each row only by Drilled, and which ids have children is unchanged |
| FlatTreeProofs.FlatShape | srv/src/main/java/com/sap/cap/ai2code/handlers/getContextNodesTreeHandler.java:81-219 | the result has one folder row per folder path, then one leaf per placed item; row i has NodeID i+1 and is a folder iff i is below the folder count |
| FlatTreeProofs.FlatStructureIsResultOf | srv/src/main/java/com/sap/cap/ai2code/handlers/getContextNodesTreeHandler.java:81-219 | the result is ResultOf the sorted folder list |
| FlatTreeProofs.FolderParentFound | srv/src/main/java/com/sap/cap/ai2code/handlers/getContextNodesTreeHandler.java:129-134 | with parents first, every multi-part folder finds its parent's id among the earlier rows |
| FlatTreeProofs.FolderRow | srv/src/main/java/com/sap/cap/ai2code/handlers/getContextNodesTreeHandler.java:122-153 | folder row i: NodeID i+1, its path, type "folder", no ID/value, level parts-1, label the last part, a root has no parent, otherwise the parent is an earlier row whose path is the parent path; DrillState is "leaf" iff no row names it as parent, "expanded" otherwise (also lines 204-216) |
| FlatTreeProofs.FolderRowsAreDotPrefixes | srv/src/main/java/com/sap/cap/ai2code/handlers/getContextNodesTreeHandler.java:91-153 | when no path has an empty segment, the folder rows' paths are exactly the dot-prefixes of the item paths |
| FlatTreeProofs.FolderLevelUnderParent | srv/src/main/java/com/sap/cap/ai2code/handlers/getContextNodesTreeHandler.java:129-141 | a clean multi-part folder row sits exactly one level below its parent row, which comes before it |
| FlatTreeProofs.MarkDrillLeafRow | srv/src/main/java/com/sap/cap/ai2code/handlers/getContextNodesTreeHandler.java:206-216 | step 4 leaves leaf rows as they are |
| FlatTreeProofs.LeafRow | srv/src/main/java/com/sap/cap/ai2code/handlers/getContextNodesTreeHandler.java:155-202 | the k-th placed item, in input order, is row folders+k: a leaf with NodeID the row plus one, the item's ID, path, label, type and value, under its own path's folder or else its parent path's, one level below that row |
| FlatTreeProofs.CleanItemPlaced | srv/src/main/java/com/sap/cap/ai2code/handlers/getContextNodesTreeHandler.java:94-112 | an item whose path has no empty segment is always placed, under its own path's folder (also line 161) |
| FlatTreeProofs.EmptyPathSkipped | srv/src/main/java/com/sap/cap/ai2code/handlers/getContextNodesTreeHandler.java:96 | with no path starting with a dot there is no "" folder, and no item with an empty path gets a leaf (also lines 161-175) |
| ContextService.ParentPath | srv/src/main/java/com/sap/cap/ai2code/service/context/ContextServiceImpl.java:200-221 | a parent is a non-empty proper prefix of the path ending just before a dot; a dot-free path has none |
| ContextService.ParentPathByDot | srv/src/main/java/com/sap/cap/ai2code/service/context/ContextServiceImpl.java:206-210 | when the last dot is after the last ']' and past 0, the parent is the text before that dot |
| ContextService.ParentPathByBracket | srv/src/main/java/com/sap/cap/ai2code/service/context/ContextServiceImpl.java:211-217 | otherwise, with a ']' past 0, the parent is the text before the last dot preceding the last '[' |
| ContextService.ParentOfField | srv/src/main/java/com/sap/cap/ai2code/service/context/ContextServiceImpl.java:200-221 | "a.b.c" and "a.b[0].c" style: a field below a non-empty path has that path as parent |
| ContextService.ParentOfIndexed | srv/src/main/java/com/sap/cap/ai2code/service/context/ContextServiceImpl.java:211-217 | "a.b[0]" style: an indexed element has the path before its array name as parent |
| ContextService.ContextFullPath | srv/src/main/java/com/sap/cap/ai2code/service/context/ContextServiceImpl.java:63-88 | a path without the SubContext: prefix always resolves; with it, a failed parent-task lookup is the result |
| ContextService.JoinContextPath | srv/src/main/java/com/sap/cap/ai2code/service/context/ContextServiceImpl.java:66-80 | the joined path ends with the relative path, starts with the task's context path when there is one, and adds at most one character between them |
| ContextService.JoinAddsOneDot | srv/src/main/java/com/sap/cap/ai2code/service/context/ContextServiceImpl.java:76-80 | when neither side supplies a dot, exactly one is put between a task's context path and the relative path |
| ContextService.JoinKeepsSuppliedDot | srv/src/main/java/com/sap/cap/ai2code/service/context/ContextServiceImpl.java:76-77 | when either side supplies a dot they are concatenated, so two supplied dots stay doubled |
| ContextService.FullPathCases | srv/src/main/java/com/sap/cap/ai2code/service/context/ContextServiceImpl.java:63-87 | SubContext:rest joins rest to its task's context path (rest alone for a null or empty one); Context:rest gives rest |
| ContextService.ReplaceLeading | srv/src/main/java/com/sap/cap/ai2code/service/context/ContextServiceImpl.java:68 | removing every occurrence of a marker that occurs only at the start removes that prefix (also line 83) |
| ContextService.DigitRun | srv/src/main/java/com/sap/cap/ai2code/service/context/ContextServiceImpl.java:236 | the number of leading ASCII digits, which stops at the first non-digit |
| ContextService.IndexTokenLen | srv/src/main/java/com/sap/cap/ai2code/service/context/ContextServiceImpl.java:236 | a match of \\[\\d+\\] at the start is at least three characters, bracketed |
| ContextService.RemoveIndexes | srv/src/main/java/com/sap/cap/ai2code/service/context/ContextServiceImpl.java:236 | replaceAll never lengthens, and changes nothing without a '[' |
| ContextService.RemoveIndexesToken | srv/src/main/java/com/sap/cap/ai2code/service/context/ContextServiceImpl.java:236 | each [digits] token is removed and the text either side is scanned as if apart |
| ContextService.ContextLabel | srv/src/main/java/com/sap/cap/ai2code/service/context/ContextServiceImpl.java:226-244 | generateLabelFromPath always gives a non-empty label ("Root", "Node", or a capitalised last part) |
| ContextService.LabelOfIndexedName | srv/src/main/java/com/sap/cap/ai2code/service/context/ContextServiceImpl.java:232-240 | a last segment name[digits] is labelled with name capitalised |
| ContextService.LabelOfBareIndex | srv/src/main/java/com/sap/cap/ai2code/service/context/ContextServiceImpl.java:232-243 | a last segment of index tokens only is labelled "Node" |
| ContextService.LabelOfField | srv/src/main/java/com/sap/cap/ai2code/service/context/ContextServiceImpl.java:232-240 | a last segment without index tokens is only capitalised |
| ContextService.NodeMapLast | srv/src/main/java/com/sap/cap/ai2code/service/context/ContextServiceImpl.java:30-41 | nodeMap keeps, for each path, the last node with that path |
| ContextService.ChildrenMembers | srv/src/main/java/com/sap/cap/ai2code/service/context/ContextServiceImpl.java:44-52 | a children list holds exactly the map's nodes for the input nodes whose parent path is that node's path |
| ContextService.RootsMembers | srv/src/main/java/com/sap/cap/ai2code/service/context/ContextServiceImpl.java:44-56 | the root list holds exactly the map's nodes for the input nodes without a parent node |
| ContextService.BuildNodeMap | srv/src/main/java/com/sap/cap/ai2code/service/context/ContextServiceImpl.java:26-41 | the first loop's map is NodeMap, holding the last node per path |
| ContextService.LinkNodes | srv/src/main/java/com/sap/cap/ai2code/service/context/ContextServiceImpl.java:43-57 | the second loop gives each node the children lists ChildrenUpTo and the roots RootsUpTo, and places each input node once: roots plus children total the input length |
| ContextService.BuildContextAsHierarchy | srv/src/main/java/com/sap/cap/ai2code/service/context/ContextServiceImpl.java:24-60 | buildContextAsHierarchy: children and roots as above with ParentPath as getParentPath; every input node is placed once |
| ContextService.TargetIsLast | srv/src/main/java/com/sap/cap/ai2code/service/context/ContextServiceImpl.java:40 | with duplicate paths, each duplicate attaches the last node with that path (also lines 52, 55) |
| ContextService.DistinctTargetsSelf | srv/src/main/java/com/sap/cap/ai2code/service/context/ContextServiceImpl.java:30-41 | with distinct paths every node is its own map entry |
| ContextService.DistinctPlacedOnce | srv/src/main/java/com/sap/cap/ai2code/service/context/ContextServiceImpl.java:44-56 | with distinct paths a node is a root iff it has no parent node, and a child of p iff p is its parent node |
| ContextService.DistinctChildrenOrdered | srv/src/main/java/com/sap/cap/ai2code/service/context/ContextServiceImpl.java:44-56 | with distinct paths every children list keeps input order |
| ContextService.Upsert | srv/src/main/java/com/sap/cap/ai2code/service/context/ContextServiceImpl.java:122-153 | fails, with "Failed to upsert context node for mainTaskId: …, contextPath: …", iff the lookup finds no single node and the path cannot be labelled; a result node has the main task, the path and the value and is in the new table |
| ContextService.UpsertUpdatesOnlyValue | srv/src/main/java/com/sap/cap/ai2code/service/context/ContextServiceImpl.java:137-139 | an existing node has only its value changed, in place; every other row is unchanged |
| ContextService.UpsertInserts | srv/src/main/java/com/sap/cap/ai2code/service/context/ContextServiceImpl.java:131-146 | with no single match (a lookup failure counts as absent) a node with the generated label and type "text" is appended |
| ContextService.UpsertTwice | srv/src/main/java/com/sap/cap/ai2code/service/context/ContextServiceImpl.java:129-147 | upserting a fresh (task, path) twice inserts once and then updates that row |
| ContextService.UpsertDuplicatesGrow | srv/src/main/java/com/sap/cap/ai2code/service/context/ContextServiceImpl.java:131-146 | once a (task, path) has two rows, every further upsert appends another |
| ContextService.UpsertContextWithMainTaskId | srv/src/main/java/com/sap/cap/ai2code/service/context/ContextServiceImpl.java:121-153 | the store changes as Upsert says, or not at all on failure; no other table changes |
| ContextService.UpsertContext | srv/src/main/java/com/sap/cap/ai2code/service/context/ContextServiceImpl.java:90-96 | a failed main-task walk is the result and nothing changes; otherwise the upsert at the main task |
| ContextService.BatchWithoutMainTask | srv/src/main/java/com/sap/cap/ai2code/service/context/ContextServiceImpl.java:160-174 | when the walk to the main task fails every entry fails: no node and no change |
| ContextService.BatchAllSucceed | srv/src/main/java/com/sap/cap/ai2code/service/context/ContextServiceImpl.java:160-174 | with a main task and labelable paths, one node per entry in order, each with the entry's path and value |
| ContextService.UpsertContextBatch | srv/src/main/java/com/sap/cap/ai2code/service/context/ContextServiceImpl.java:160-174 | the table and the result list are Batch: each entry upserted in turn, failures skipped |
| TaskDetail.Tag | app/task-runtime/webapp/controller/TaskDetail.controller.js:394-398 | each fetched row keeps its ID and fields and gets the tree type (also lines 434-438) |
| TaskDetail.Merge | app/task-runtime/webapp/controller/TaskDetail.controller.js:408-418 | the forEach push loop never drops or reorders an existing child, adds at most one item per fetched item, and adds only fetched items |
| TaskDetail.MergeIsKept | app/task-runtime/webapp/controller/TaskDetail.controller.js:408-418 | the merged list is the existing children followed by exactly the batch items whose ID is neither already present nor on an earlier batch item, in batch order (also lines 448-458) |
| TaskDetail.MergeIds | app/task-runtime/webapp/controller/TaskDetail.controller.js:408-418 | an ID is in the merged list iff it was already there or some batch item carries it |
| TaskDetail.MergeKeepsExisting | app/task-runtime/webapp/controller/TaskDetail.controller.js:408-418 | existing children stay in front, in order and unchanged |
| TaskDetail.MergeDistinct | app/task-runtime/webapp/controller/TaskDetail.controller.js:409-417 | a list with distinct IDs keeps them distinct |
| TaskDetail.MergeNothingNew | app/task-runtime/webapp/controller/TaskDetail.controller.js:409-417 | a batch whose every ID is present changes nothing |
| TaskDetail.MergeIdempotent | app/task-runtime/webapp/controller/TaskDetail.controller.js:409-417 | merging the same batch twice gives the same list as merging it once |
| TaskDetail.TreeNode.MergeChildren | app/task-runtime/webapp/controller/TaskDetail.controller.js:408-418 | the node's list becomes the merge of the batch; nothing else on the node changes |
| TaskDetail.TreeNode.OnTaskSelect | app/task-runtime/webapp/controller/TaskDetail.controller.js:380-465 | nodes is initialised to [] when absent; the outcome and the new list are SelectOutcome; the node's other fields are unchanged |
| TaskDetail.SelectOutcome | app/task-runtime/webapp/controller/TaskDetail.controller.js:383-465 | the handler fails (ReferenceError on newItem under "use strict") iff it fetches and the node already has children; then, or when it does not fetch, the list is left as it was |
| TaskDetail.StrayCheckLosesChildren | app/task-runtime/webapp/controller/TaskDetail.controller.js:402-406 | on a node with children, a fetched item with a new ID is not added, though the merge loop would add it (also lines 442-446) |
| TaskDetail.IntendedOutcomeProperties | app/task-runtime/webapp/controller/TaskDetail.controller.js:383-465 | the intended handler keeps existing children in front, holds every fetched ID when it fetches (bot → task, non-main task → bot), and is idempotent |
| TaskDetail.OutcomesAgreeWhenEmpty | app/task-runtime/webapp/controller/TaskDetail.controller.js:383-465 | on a node without children the handler as written and the intended one agree |
| TaskDetail.JsTrimNonEmpty | app/task-runtime/webapp/controller/TaskDetail.controller.js:260 | trim() leaves something iff the text has a character trim does not remove |
| TaskDetail.FilledIff | app/task-runtime/webapp/controller/TaskDetail.controller.js:258-261 | an input counts as filled iff it exists and holds a non-white-space character |
| TaskDetail.CreateEnabled | app/task-runtime/webapp/controller/TaskDetail.controller.js:251-263 | an enabled button means every input was found; a missing input or an empty value disables it |
| TaskDetail.CreateEnabledIff | app/task-runtime/webapp/controller/TaskDetail.controller.js:251-263 | the create button is enabled exactly when all four inputs exist and each holds a character other than JavaScript white space |
| FunctionCalls.Wrap32 | srv/src/main/java/com/sap/cap/ai2code/service/execution/functioncall/FunctionCallProcessor.java:132 | an int wrapped to 32 bits, two's complement, is congruent to it and unchanged when it already fits |
| FunctionCalls.HashCode | srv/src/main/java/com/sap/cap/ai2code/service/execution/functioncall/FunctionCallProcessor.java:132 | String.hashCode stays a 32-bit int |
| FunctionCalls.Abs32 | srv/src/main/java/com/sap/cap/ai2code/service/execution/functioncall/FunctionCallProcessor.java:132 | Math.abs(int) is non-negative except on Integer.MIN_VALUE, which it returns unchanged |
| FunctionCalls.ReplaceInvalid | srv/src/main/java/com/sap/cap/ai2code/service/execution/functioncall/FunctionCallProcessor.java:126 | each character outside [a-zA-Z0-9_.-] becomes "_", the rest stay, length unchanged |
| FunctionCalls.CollapseUnderscores | srv/src/main/java/com/sap/cap/ai2code/service/execution/functioncall/FunctionCallProcessor.java:127 | no two adjacent underscores remain; the first and last character and the alphabet are kept |
| FunctionCalls.DropLeadingUnderscores | srv/src/main/java/com/sap/cap/ai2code/service/execution/functioncall/FunctionCallProcessor.java:128 | a suffix of the text that does not start with "_" |
| FunctionCalls.DropTrailingUnderscores | srv/src/main/java/com/sap/cap/ai2code/service/execution/functioncall/FunctionCallProcessor.java:128 | a prefix of the text that does not end with "_" |
| FunctionCalls.Sanitized | srv/src/main/java/com/sap/cap/ai2code/service/execution/functioncall/FunctionCallProcessor.java:125-128 | the replaceAll chain gives only [a-zA-Z0-9_.-], no "__", no leading or trailing "_" |
| FunctionCalls.FallbackName | srv/src/main/java/com/sap/cap/ai2code/service/execution/functioncall/FunctionCallProcessor.java:131-133 | the fallback is "function_" + abs(hashCode), a well-formed name |
| FunctionCalls.UnknownName | srv/src/main/java/com/sap/cap/ai2code/service/execution/functioncall/FunctionCallProcessor.java:120-122 | "unknown_function" is a well-formed name |
| FunctionCalls.FuncPrefixed | srv/src/main/java/com/sap/cap/ai2code/service/execution/functioncall/FunctionCallProcessor.java:136-138 | "func_" before a sanitised name gives a well-formed name |
| FunctionCalls.SanitizeFunctionName | srv/src/main/java/com/sap/cap/ai2code/service/execution/functioncall/FunctionCallProcessor.java:119-141 | the empty input gives "unknown_function"; every result has only [a-zA-Z0-9_.-], starts with an ASCII letter, has no "__" and does not end with "_" |
| FunctionCalls.SanitizedKeeps | srv/src/main/java/com/sap/cap/ai2code/service/execution/functioncall/FunctionCallProcessor.java:125-128 | sanitising keeps exactly the valid characters other than "_", in order |
| FunctionCalls.SanitizedEmptyIff | srv/src/main/java/com/sap/cap/ai2code/service/execution/functioncall/FunctionCallProcessor.java:131 | nothing survives sanitising iff the input has no valid character other than "_" |
| FunctionCalls.SanitizeKeepsCharacters | srv/src/main/java/com/sap/cap/ai2code/service/execution/functioncall/FunctionCallProcessor.java:125-140 | the non-underscore characters of the result are the input's valid ones, with "func" in front when the first is not a letter |
| FunctionCalls.SanitizeFallback | srv/src/main/java/com/sap/cap/ai2code/service/execution/functioncall/FunctionCallProcessor.java:131-133 | an input with no valid non-underscore character becomes "function_" + abs(hashCode) |
| FunctionCalls.SanitizeFixedPoint | srv/src/main/java/com/sap/cap/ai2code/service/execution/functioncall/FunctionCallProcessor.java:119-141 | a name is left unchanged iff it is already well-formed |
| FunctionCalls.SanitizeIdempotent | srv/src/main/java/com/sap/cap/ai2code/service/execution/functioncall/FunctionCallProcessor.java:119-141 | sanitising twice is sanitising once |
| FunctionCalls.IsComplexType | srv/src/main/java/com/sap/cap/ai2code/service/execution/functioncall/FunctionCallProcessor.java:248-254 | a complex type is neither primitive nor Object, and String, Integer, Boolean, Double, List, Map and LocalDate are never complex |
| FunctionCalls.JsonSchemaType | srv/src/main/java/com/sap/cap/ai2code/service/execution/functioncall/FunctionCallProcessor.java:380-397 | always a JSON-schema type; String gives "string", Integer/int "integer", Boolean/boolean "boolean", Double/double/Float/float "number"; otherwise "array" iff a List, "object" iff not a List and a Map or complex; "string" iff a String or none of these (the fall-through) |
| FunctionCalls.SchemaTypesAgree | srv/src/main/java/com/sap/cap/ai2code/service/execution/functioncall/FunctionCallProcessor.java:186-243 | extractParameterTypeInfo's type is getJsonSchemaType's (also lines 380-397) |
| FunctionCalls.LongIsString | srv/src/main/java/com/sap/cap/ai2code/service/execution/functioncall/FunctionCallProcessor.java:394-396 | java.lang.Long falls through to "string" |
| FunctionCalls.GetterProperty | srv/src/main/java/com/sap/cap/ai2code/service/execution/functioncall/FunctionCallProcessor.java:368-375 | "getXyz" gives "xyz" (first character lower-cased); exactly "get", and any other name, is returned unchanged |
| FunctionCalls.GetterPropertyOfGetter | srv/src/main/java/com/sap/cap/ai2code/service/execution/functioncall/FunctionCallProcessor.java:368-375 | the property of the getter built for a lower-case property name is that name |
| FunctionCalls.ParameterName | srv/src/main/java/com/sap/cap/ai2code/service/execution/functioncall/FunctionCallProcessor.java:402-420 | a non-blank annotation name first, else the reflected name if present, else "arg" + index |
| FunctionCalls.ExtractParameterInfos | srv/src/main/java/com/sap/cap/ai2code/service/execution/functioncall/FunctionCallProcessor.java:146-181 | the loop gives ParameterInfos: one info per annotated parameter, in order |
| FunctionCalls.ParameterInfosCover | srv/src/main/java/com/sap/cap/ai2code/service/execution/functioncall/FunctionCallProcessor.java:150-177 | every annotated parameter has its info in the list |
| FunctionCalls.ParameterInfosAnnotated | srv/src/main/java/com/sap/cap/ai2code/service/execution/functioncall/FunctionCallProcessor.java:150-177 | every info in the list comes from an annotated parameter |
| FunctionCalls.CreateFunctionInfo | srv/src/main/java/com/sap/cap/ai2code/service/execution/functioncall/FunctionCallProcessor.java:94-113 | name: the operation if non-empty, else botName + "_" + methodName, sanitised; description: "Function from " + botName when the bot has none; method, class and logExecution copied |
| FunctionCalls.OperationNameKept | srv/src/main/java/com/sap/cap/ai2code/service/execution/functioncall/FunctionCallProcessor.java:95-98 | an operation that is already well-formed is the function's name |
| FunctionCalls.FunctionInfos | srv/src/main/java/com/sap/cap/ai2code/service/execution/functioncall/FunctionCallProcessor.java:77-89 | at most one info per method, each with a well-formed name |
| FunctionCalls.ExtractFunctionInfosFromClass | srv/src/main/java/com/sap/cap/ai2code/service/execution/functioncall/FunctionCallProcessor.java:77-89 | the loop gives FunctionInfos: one info per annotated method, in order |
| FunctionCalls.InstanceFunctionInfos | srv/src/main/java/com/sap/cap/ai2code/service/execution/functioncall/FunctionCallProcessor.java:63-72 | no infos without an enabled BotExecutor annotation; otherwise the class's infos |
| FunctionCalls.FindFunction | srv/src/main/java/com/sap/cap/ai2code/service/execution/functioncall/FunctionCallProcessor.java:619-621 | none iff no info has the name; otherwise the first info with that name (also lines 656-660) |
| FunctionCalls.FindFunctionDistinct | srv/src/main/java/com/sap/cap/ai2code/service/execution/functioncall/FunctionCallProcessor.java:656-660 | with distinct names every info is found by its own name |
| FunctionCalls.ConvertArgument | srv/src/main/java/com/sap/cap/ai2code/service/execution/functioncall/FunctionCallProcessor.java:473-521 | null stays null, and every failure of any branch is "Failed to convert argument to parameter type: " plus the parameter type's name |
| FunctionCalls.ConvertScalar | srv/src/main/java/com/sap/cap/ai2code/service/execution/functioncall/FunctionCallProcessor.java:483-499 | for a non-null value and a non-List parameter: a String parameter always succeeds with the value's toString; an Integer parameter succeeds exactly when the value is a Number or its text parses as an int, and gives a 32-bit int; a Boolean parameter always succeeds, keeping a Boolean and reading other values as parseBoolean does |
| FunctionCalls.IntegerRoundTrip | srv/src/main/java/com/sap/cap/ai2code/service/execution/functioncall/FunctionCallProcessor.java:488-493 | an int sent as a number or as its decimal text reaches an Integer parameter as that int |
| FunctionCalls.BooleanToIntegerFails | srv/src/main/java/com/sap/cap/ai2code/service/execution/functioncall/FunctionCallProcessor.java:488-520 | a Boolean sent to an Integer parameter fails with the wrapped conversion message, because parseInt rejects "true" and "false" |
| FunctionCalls.BooleanTextRoundTrip | srv/src/main/java/com/sap/cap/ai2code/service/execution/functioncall/FunctionCallProcessor.java:494-499 | "true" in any letter case and "false" reach a Boolean parameter as that Boolean |
| FunctionCalls.SimpleParametersNeverFail | srv/src/main/java/com/sap/cap/ai2code/service/execution/functioncall/FunctionCallProcessor.java:450-499 | when every parameter is a String or a Boolean, preparing the arguments never fails, whatever was sent |
| FunctionCalls.PreparedArguments | srv/src/main/java/com/sap/cap/ai2code/service/execution/functioncall/FunctionCallProcessor.java:450-468 | fails iff converting some annotated parameter's argument fails; otherwise one slot per parameter, each ConvertArgument of the argument found under the raw annotation name (null when not annotated or not sent) |
| FunctionCalls.PreparedFailureStays | srv/src/main/java/com/sap/cap/ai2code/service/execution/functioncall/FunctionCallProcessor.java:454-465 | the first failing parameter's error is the outcome |
| FunctionCalls.PrepareMethodArguments | srv/src/main/java/com/sap/cap/ai2code/service/execution/functioncall/FunctionCallProcessor.java:450-468 | a fresh array holding PreparedArguments, or its error |
| FunctionCalls.AdvertisedNameIsLookupKey | srv/src/main/java/com/sap/cap/ai2code/service/execution/functioncall/FunctionCallProcessor.java:402-411 | a non-blank annotation name is both the advertised parameter name and the lookup key (also lines 459-460) |
| FunctionCalls.BlankAnnotationNameMisses | srv/src/main/java/com/sap/cap/ai2code/service/execution/functioncall/FunctionCallProcessor.java:402-420 | a blank annotation name advertises the reflected name, but the lookup uses the blank name, so the argument is missed (also lines 459-460) |
| FunctionCalls.CallOnInstance | srv/src/main/java/com/sap/cap/ai2code/service/execution/functioncall/FunctionCallProcessor.java:614-651 | no matching function: "Function not found in instance: <name>", before parsing; unparsable JSON: "Failed to parse function arguments: <json>"; a call uses a matching info with one argument per parameter |
| FunctionCalls.Call | srv/src/main/java/com/sap/cap/ai2code/service/execution/functioncall/FunctionCallProcessor.java:425-445 | no matching function: "Function not found: <name>"; a call uses a matching info with one argument per parameter |
| FunctionCallingBot.Casts | srv/src/main/java/com/sap/cap/ai2code/model/bot/FunctionCallingBot.java:104-107 | the (String) casts succeed iff every element is a String, giving them in order; otherwise the first non-String element's ClassCastException |
| FunctionCallingBot.ProcessExecutionResult | srv/src/main/java/com/sap/cap/ai2code/model/bot/FunctionCallingBot.java:96-129 | the return type is Processed of the result |
| FunctionCallingBot.ProcessedTasks | srv/src/main/java/com/sap/cap/ai2code/model/bot/FunctionCallingBot.java:100-111 | a non-empty collection of Strings, list or not, sets tasks to all of them in order and no result |
| FunctionCallingBot.ProcessedCastFailure | srv/src/main/java/com/sap/cap/ai2code/model/bot/FunctionCallingBot.java:103-107 | a collection starting with a String and holding a later non-String gives only result "Error processing result: " + the cast message (also lines 122-127) |
| FunctionCallingBot.ProcessedOthers | srv/src/main/java/com/sap/cap/ai2code/model/bot/FunctionCallingBot.java:98 | a String sets result to itself unchanged; any other value or an empty collection sets neither field (also lines 113-120) |
| FunctionCallingBot.ConvertResultToString | srv/src/main/java/com/sap/cap/ai2code/model/bot/FunctionCallingBot.java:134-152 | the text is Converted of the result |
| FunctionCallingBot.ListingLines | srv/src/main/java/com/sap/cap/ai2code/model/bot/FunctionCallingBot.java:138-145 | a List's text is the header "Function call returned N items:", then one "i. item" line per element numbered from 1, then the final newline |
| FunctionCallingBot.ItemsAt | srv/src/main/java/com/sap/cap/ai2code/model/bot/FunctionCallingBot.java:142-144 | line k of the listing is "k+1. " + the element's toString |
| FunctionCallingBot.Execute | srv/src/main/java/com/sap/cap/ai2code/model/bot/FunctionCallingBot.java:42-91 | a null prompt list fails; a failed instance creation or function call fails with its error; otherwise the processed result of the call, made with empty history |
| FunctionCallingBot.Chat | srv/src/main/java/com/sap/cap/ai2code/model/bot/FunctionCallingBot.java:184-215 | the store gains the seeded system prompts exactly when the history is empty; the reply is the Gemini reply to the context built from the history read before seeding, reloaded history and prompts, wrapped as "Chat failed" on error; nothing else changes (also lines 225-232) |
| FunctionCallingBot.Dispatch | srv/src/main/java/com/sap/cap/ai2code/model/bot/FunctionCallingBot.java:154-182 | only execute and chat are implemented; every other operation fails with the stub's UnsupportedOperationException |
| GeminiService.SystemTurns | srv/src/main/java/com/sap/cap/ai2code/service/ai/SAPGeminiAIServiceImpl.java:98-107 | each turn is a "system" turn with non-blank content, at most one per prompt |
| GeminiService.SystemTurnsExact | srv/src/main/java/com/sap/cap/ai2code/service/ai/SAPGeminiAIServiceImpl.java:98-107 | a system turn holds c iff some prompt has non-blank content c |
| GeminiService.HistoryTurns | srv/src/main/java/com/sap/cap/ai2code/service/ai/SAPGeminiAIServiceImpl.java:110-119 | at most one turn per message, each non-blank |
| GeminiService.HistoryTurnsExact | srv/src/main/java/com/sap/cap/ai2code/service/ai/SAPGeminiAIServiceImpl.java:110-119 | a turn is there iff some message with non-blank text has that role and text |
| GeminiService.UserTurns | srv/src/main/java/com/sap/cap/ai2code/service/ai/SAPGeminiAIServiceImpl.java:122-127 | one "user" turn iff the content is present and non-blank |
| GeminiService.ConversationContext | srv/src/main/java/com/sap/cap/ai2code/service/ai/SAPGeminiAIServiceImpl.java:92-130 | null lists count as empty; at most one turn per prompt, one per message and one more, all non-blank |
| GeminiService.ContextLayout | srv/src/main/java/com/sap/cap/ai2code/service/ai/SAPGeminiAIServiceImpl.java:92-130 | the system turns come first; the user turn, when there is one, comes last; without it the rest is the history turns |
| GeminiService.BuildConversationContext | srv/src/main/java/com/sap/cap/ai2code/service/ai/SAPGeminiAIServiceImpl.java:92-130 | the three loops give ConversationContext |
| GeminiService.AddSystemTurns | srv/src/main/java/com/sap/cap/ai2code/service/ai/SAPGeminiAIServiceImpl.java:98-107 | the prompt loop gives SystemTurns |
| GeminiService.AddHistoryTurns | srv/src/main/java/com/sap/cap/ai2code/service/ai/SAPGeminiAIServiceImpl.java:110-119 | the history loop appends HistoryTurns |
| GeminiService.GeminiRole | srv/src/main/java/com/sap/cap/ai2code/service/ai/SAPGeminiAIServiceImpl.java:150 | "user" stays "user"; every other role becomes "model" (also line 288) |
| GeminiService.Escape | srv/src/main/java/com/sap/cap/ai2code/service/ai/SAPGeminiAIServiceImpl.java:147 | text without '"' or newline passes through unchanged (also line 285) |
| GeminiService.EscapeCons | srv/src/main/java/com/sap/cap/ai2code/service/ai/SAPGeminiAIServiceImpl.java:147 | only '"' becomes \\" and newline becomes \\n; every other character, backslash included, passes through (also line 285) |
| GeminiService.EscapeMisreadsBackslash | srv/src/main/java/com/sap/cap/ai2code/service/ai/SAPGeminiAIServiceImpl.java:147 | a backslash followed by n and a real newline escape to the same text, which reads back as a newline (also line 285) |
| GeminiService.PlainEscapesAgree | srv/src/main/java/com/sap/cap/ai2code/service/ai/SAPGeminiAIServiceImpl.java:147 | on text without backslashes or control characters other than newline, the as-written escape is proper JSON escaping (also line 285) |
| GeminiService.JsonEscape | srv/src/main/java/com/sap/cap/ai2code/service/ai/SAPGeminiAIServiceImpl.java:147 | the intended escape never shortens the text (also line 285) |
| GeminiService.ReadEscaped | srv/src/main/java/com/sap/cap/ai2code/service/ai/SAPGeminiAIServiceImpl.java:147 | a JSON string reader reads the intended escape of any text back exactly, stopping at the closing quote (also line 285) |
| GeminiService.JsonEscapeInjective | srv/src/main/java/com/sap/cap/ai2code/service/ai/SAPGeminiAIServiceImpl.java:147 | distinct texts escape to distinct texts under the intended escape (also line 285) |
| GeminiService.PlainEscape | srv/src/main/java/com/sap/cap/ai2code/service/ai/SAPGeminiAIServiceImpl.java:147 | the intended escape leaves text without '"', backslash or control characters unchanged (also line 285) |
| GeminiService.BuildRequestBody | srv/src/main/java/com/sap/cap/ai2code/service/ai/SAPGeminiAIServiceImpl.java:278-313 | the builder's loop gives RequestBody: the as-written escape inside the shared body layout |
| GeminiService.SeparatedSnoc | srv/src/main/java/com/sap/cap/ai2code/service/ai/SAPGeminiAIServiceImpl.java:295-297 | one comma between message objects, none trailing |
| GeminiService.Wire | srv/src/main/java/com/sap/cap/ai2code/service/ai/SAPGeminiAIServiceImpl.java:146-150 | the (Gemini role, content) pairs the body is meant to carry (also lines 284-288) |
| GeminiService.BodyRoundTrip | srv/src/main/java/com/sap/cap/ai2code/service/ai/SAPGeminiAIServiceImpl.java:278-313 | with a proper escape, a JSON reader reads back each message's Gemini role and content in order, and whether the generationConfig is there (streaming only) |
| GeminiService.RequestBodyRoundTrip | srv/src/main/java/com/sap/cap/ai2code/service/ai/SAPGeminiAIServiceImpl.java:135-163 | the as-written body reads back correctly when no content has a backslash or a control character other than newline (also lines 278-313) |
| GeminiService.IntendedRequestBodyRoundTrip | srv/src/main/java/com/sap/cap/ai2code/service/ai/SAPGeminiAIServiceImpl.java:278-313 | the corrected body reads back every conversation exactly |
| GeminiService.RequestBodyConflates | srv/src/main/java/com/sap/cap/ai2code/service/ai/SAPGeminiAIServiceImpl.java:147 | a message holding backslash-n and one holding a newline give the same request body, read back as a newline (also line 285) |
| GeminiService.Field | srv/src/main/java/com/sap/cap/ai2code/service/ai/SAPGeminiAIServiceImpl.java:190-197 | JsonNode.get finds a field iff the node is an object holding it |
| GeminiService.Element | srv/src/main/java/com/sap/cap/ai2code/service/ai/SAPGeminiAIServiceImpl.java:193 | JsonNode.get(i) finds an element iff the node is an array that long (also line 197) |
| GeminiService.FirstText | srv/src/main/java/com/sap/cap/ai2code/service/ai/SAPGeminiAIServiceImpl.java:188-206 | the only failure is the NullPointerException from an empty candidate element |
| GeminiService.ParseGeminiResponse | srv/src/main/java/com/sap/cap/ai2code/service/ai/SAPGeminiAIServiceImpl.java:188-206 | the first candidate's first part text; "No response from AI" when any step is missing |
| GeminiService.ParseStreamingChunk | srv/src/main/java/com/sap/cap/ai2code/service/ai/SAPGeminiAIServiceImpl.java:351-370 | a non-empty chunk is the first candidate's first part text; "" otherwise, errors included |
| GeminiService.ReplyTextRoundTrip | srv/src/main/java/com/sap/cap/ai2code/service/ai/SAPGeminiAIServiceImpl.java:188-206 | a reply carrying text t parses to t in both parsers (also lines 351-370) |
| GeminiService.ParsersAgree | srv/src/main/java/com/sap/cap/ai2code/service/ai/SAPGeminiAIServiceImpl.java:188-206 | where the chunk parser finds text the response parser finds the same; where the response parser fails the chunk parser gives "" (also lines 351-370) |
| GeminiService.ChatReply | srv/src/main/java/com/sap/cap/ai2code/service/ai/SAPGeminiAIServiceImpl.java:48-61 | the reply succeeds iff status 200 and the parse succeeds, and is then the parsed text; any failure becomes "Failed to call Gemini API" (also lines 175-182) |
| GeminiService.ChatWithAI | srv/src/main/java/com/sap/cap/ai2code/service/ai/SAPGeminiAIServiceImpl.java:48-61 | the request body of the conversation context, not streaming, and the reply as ChatReply (also lines 135-183) |
| GeminiService.StripPrefix | srv/src/main/java/com/sap/cap/ai2code/service/ai/SAPGeminiAIServiceImpl.java:241-242 | the payload after "data: " exists iff the line starts with it (also lines 325-326) |
| GeminiService.Chunks | srv/src/main/java/com/sap/cap/ai2code/service/ai/SAPGeminiAIServiceImpl.java:240-261 | every chunk sent is non-empty |
| GeminiService.ChunksAt | srv/src/main/java/com/sap/cap/ai2code/service/ai/SAPGeminiAIServiceImpl.java:240-261 | one line: a non-data line is skipped; a stopping line ends the stream; an empty chunk is skipped; a non-empty chunk is sent (also lines 324-345) |
| GeminiService.ReadStream | srv/src/main/java/com/sap/cap/ai2code/service/ai/SAPGeminiAIServiceImpl.java:237-261 | the chunks sent are Chunks of the lines (stopping at "[DONE]" or an empty payload) and the response is their concatenation |
| GeminiService.ProcessStreamingResponse | srv/src/main/java/com/sap/cap/ai2code/service/ai/SAPGeminiAIServiceImpl.java:318-346 | the chunks sent are Chunks of the lines stopping only at "[DONE]", appended to the builder |
| GeminiService.StreamGemini | srv/src/main/java/com/sap/cap/ai2code/service/ai/SAPGeminiAIServiceImpl.java:208-273 | the streaming body is sent; a non-200 status sends nothing and hands nothing to the processor; otherwise the processor gets the concatenated chunks |
| GeminiService.ChunksCutAtStop | srv/src/main/java/com/sap/cap/ai2code/service/ai/SAPGeminiAIServiceImpl.java:244-246 | nothing after a stopping line is read (also lines 328-330) |
| GeminiService.LoopsAgree | srv/src/main/java/com/sap/cap/ai2code/service/ai/SAPGeminiAIServiceImpl.java:240-261 | the two loops agree when no data line has an empty payload (also lines 324-345) |
| GeminiService.EmptyPayloadDiffers | srv/src/main/java/com/sap/cap/ai2code/service/ai/SAPGeminiAIServiceImpl.java:244 | an empty payload ends the streaming-API loop but not processStreamingResponse (also line 328) |
| BotService.CreateBotInstance | srv/src/main/java/com/sap/cap/ai2code/service/bot/BotServiceImpl.java:202-216 | any code other than "A", "F", "C" fails with "Unsupported bot function type: " and the code |
| BotService.CreateBotInstanceInvertsCode | srv/src/main/java/com/sap/cap/ai2code/service/bot/BotServiceImpl.java:202-216 | the switch accepts exactly "A", "F" and "C", and maps each bot kind's code back to that kind |
| BotService.GetCurrentBot | srv/src/main/java/com/sap/cap/ai2code/service/bot/BotServiceImpl.java:48-64 | a missing instance fails with "BotInstance not found"; a bot found has the stored instance, a type with the instance's type ID, the model resolved for the type's model ID and the kind its function type selects |
| BotService.BotInstanceByTaskAndSequence | srv/src/main/java/com/sap/cap/ai2code/service/common/GenericCqnService.java:198-204 | succeeds exactly when one instance has this task and sequence, and returns it; none fails with "BotInstance not found for task: …, sequence: …" |
| BotService.GetCurrentBotAt | srv/src/main/java/com/sap/cap/ai2code/service/bot/BotServiceImpl.java:66-71 | fails unless exactly one instance sits at that task and sequence; a bot found is that instance's getCurrentBot |
| BotService.Apply | srv/src/main/java/com/sap/cap/ai2code/service/common/GenericCqnService.java:224-239 | status and result writes change only the named instance and keep every other row |
| BotService.ApplyStatus | srv/src/main/java/com/sap/cap/ai2code/service/common/GenericCqnService.java:224-229 | an instance is left with the last status written to it |
| BotService.Perform | srv/src/main/java/com/sap/cap/ai2code/service/bot/BotServiceImpl.java:218-224 | one more write to an existing instance; the other tables are unchanged |
| BotService.ChatStatusLifecycle | srv/src/main/java/com/sap/cap/ai2code/service/bot/BotServiceImpl.java:82-113 | a bot that cannot be built gets no write; otherwise "R" first and the last status is "S" exactly on success, "F" otherwise; a non-ChatBot fails with "Chat failed for bot: " and the ID and adds no message; a reply is the last of two new rows, after the user's message |
| BotService.Record | srv/src/main/java/com/sap/cap/ai2code/service/bot/BotServiceImpl.java:97-111 | a failed answer writes "F"; an answer inserts the user message, then the assistant message, then writes "S" |
| BotService.ChatWithChatBot | srv/src/main/java/com/sap/cap/ai2code/service/bot/BotServiceImpl.java:91-106 | the ChatBot's answer to the instance's history is recorded as chat records it |
| BotService.Chat | srv/src/main/java/com/sap/cap/ai2code/service/bot/BotServiceImpl.java:82-113 | the result, the message table and the instance table are those ChatEffect gives; tasks, types and context nodes are unchanged |
| BotService.ChatByContext | srv/src/main/java/com/sap/cap/ai2code/service/bot/BotServiceImpl.java:73-80 | a CQN with no bot instance key fails and writes nothing; otherwise chat on the extracted ID |
| BotService.ExecuteStatusLifecycle | srv/src/main/java/com/sap/cap/ai2code/service/bot/BotServiceImpl.java:139-161 | a bot that cannot be built gets no write; otherwise "RUNNING" first, the last status is "SUCCESS" exactly on success, a success stores the result as the last write, and a failure writes only statuses |
| BotService.CodingBotFailsAfterSuccess | srv/src/main/java/com/sap/cap/ai2code/service/bot/BotServiceImpl.java:144-158 | a CodingBot's execute writes "SUCCESS" and is still reported as failed, leaving the status "FAILED" |
| BotService.Execute | srv/src/main/java/com/sap/cap/ai2code/service/bot/BotServiceImpl.java:139-161 | the result and the instance table are those ExecuteEffect gives; no other table changes |
| BotService.RunBot | srv/src/main/java/com/sap/cap/ai2code/service/bot/BotServiceImpl.java:143-159 | after "RUNNING": a ChatBot fails, a CodingBot fails after "SUCCESS", a FunctionCallingBot runs |
| BotService.RunFunctionCallingBot | srv/src/main/java/com/sap/cap/ai2code/service/bot/BotServiceImpl.java:145-159 | "SUCCESS" and the result when the bot's execute returns, "FAILED" when it fails |
| BotService.MessageById | srv/src/main/java/com/sap/cap/ai2code/service/common/GenericCqnService.java:275-281 | finds a message with this ID in this bot instance, and fails exactly when there is none |
| BotService.BotInstanceIdByMessageId | srv/src/main/java/com/sap/cap/ai2code/service/common/GenericCqnService.java:286-295 | fails exactly when no message has this ID; otherwise the bot instance link of such a message, possibly null |
| BotService.AdoptStatusLifecycle | srv/src/main/java/com/sap/cap/ai2code/service/bot/BotServiceImpl.java:176-200 | a missing message fails before any write; "R" comes first; success exactly when the writes are "R" then "S", and the stored node holds the message text; a failure stores no node |
| BotService.AdoptFoundLifecycle | srv/src/main/java/com/sap/cap/ai2code/service/bot/BotServiceImpl.java:185-199 | after "R", "S" is written exactly when the node holding the text is stored |
| BotService.DeliverLifecycle | srv/src/main/java/com/sap/cap/ai2code/service/bot/BotServiceImpl.java:194-199 | "S" is written exactly when the upsert stores the node; a failed full path or upsert writes nothing more |
| BotService.ApplySameLinks | srv/src/main/java/com/sap/cap/ai2code/service/bot/BotServiceImpl.java:186 | status writes keep every instance's task link |
| BotService.WalkSameLinks | srv/src/main/java/com/sap/cap/ai2code/service/bot/BotServiceImpl.java:186-194 | the walk to the main task gives the same answer after status writes |
| BotService.MainTaskIdSameLinks | srv/src/main/java/com/sap/cap/ai2code/service/bot/BotServiceImpl.java:186-194 | the main task and the parent task are the same after status writes |
| BotService.Adopt | srv/src/main/java/com/sap/cap/ai2code/service/bot/BotServiceImpl.java:176-200 | the result, the context nodes and the instance table are those AdoptEffect gives; tasks, types and messages are unchanged |
| BotService.AdoptMessage | srv/src/main/java/com/sap/cap/ai2code/service/bot/BotServiceImpl.java:185-199 | a missing or blank output path writes "F" after "R" and fails; otherwise delivers |
| BotService.DeliverMessage | srv/src/main/java/com/sap/cap/ai2code/service/bot/BotServiceImpl.java:194-199 | the node stored at the full path, then "S" |
| BotService.AdoptByContextCases | srv/src/main/java/com/sap/cap/ai2code/service/bot/BotServiceImpl.java:163-173 | a message without a bot instance fails with "No bot instance associated with message"; one with a bot instance is adopted in that instance, and that adopt finds the message |
| BotService.MessageByIdUnique | srv/src/main/java/com/sap/cap/ai2code/service/common/GenericCqnService.java:275-281 | with unique message IDs, getMessageById returns the message with that ID |
| BotService.AdoptByContextMissing | srv/src/main/java/com/sap/cap/ai2code/service/common/GenericCqnService.java:286-295 | an unknown message ID fails with "Message not found" and writes nothing |
| BotService.AdoptByContext | srv/src/main/java/com/sap/cap/ai2code/service/bot/BotServiceImpl.java:163-173 | the result and tables are those AdoptByContextEffect gives; the instance table changes only through the adopt of the message's own instance |
| BotService.Unimplemented | srv/src/main/java/com/sap/cap/ai2code/service/bot/BotServiceImpl.java:115-131 | a stub fails with UnsupportedOperationException |
| BotService.Dispatch | srv/src/main/java/com/sap/cap/ai2code/service/bot/BotServiceImpl.java:115-131 | exactly chat, execute and adopt are implemented; chatInStreaming and executeAsync fail with their stub's exception |
| BotExecutionFactory.Candidates | srv/src/main/java/com/sap/cap/ai2code/service/bot/BotExecutionFactoryService.java:181 | the beans of a type are exactly the registered beans whose class is assignable to it, in registration order |
| BotExecutionFactory.BeanNameByType | srv/src/main/java/com/sap/cap/ai2code/service/bot/BotExecutionFactoryService.java:213-230 | a name exactly when the simple name ends in Service, Repository, Dao, Manager or Handler; the name is the simple name with its first letter lower-cased |
| BotExecutionFactory.ByInterfaces | srv/src/main/java/com/sap/cap/ai2code/service/bot/BotExecutionFactoryService.java:248-258 | a bean exactly when some direct interface has beans; it is the first bean of the first such interface |
| BotExecutionFactory.ResolveBean | srv/src/main/java/com/sap/cap/ai2code/service/bot/BotExecutionFactoryService.java:178-208 | a resolved bean is one of the container's, and a type with a bean always resolves |
| BotExecutionFactory.TryResolveByInterface | srv/src/main/java/com/sap/cap/ai2code/service/bot/BotExecutionFactoryService.java:235-264 | a resolved bean is one of the container's; nothing resolves exactly when the type is not an interface with beans and none of its direct interfaces has beans |
| BotExecutionFactory.ResolvedBeanOrigin | srv/src/main/java/com/sap/cap/ai2code/service/bot/BotExecutionFactoryService.java:178-264 | a resolved bean is in the container; unless taken by its conventional name it has the requested type; a type without beans resolves exactly when one of its interfaces has beans |
| BotExecutionFactory.ArgsFor | srv/src/main/java/com/sap/cap/ai2code/service/bot/BotExecutionFactoryService.java:148-173 | arguments exactly when every parameter type resolves to a bean, one per parameter in order |
| BotExecutionFactory.ArgsForMissing | srv/src/main/java/com/sap/cap/ai2code/service/bot/BotExecutionFactoryService.java:156-164 | one parameter without a bean makes the whole argument list null |
| BotExecutionFactory.ArgsForAll | srv/src/main/java/com/sap/cap/ai2code/service/bot/BotExecutionFactoryService.java:152-167 | when every parameter resolves, the arguments are those beans |
| BotExecutionFactory.ResolveConstructorArgs | srv/src/main/java/com/sap/cap/ai2code/service/bot/BotExecutionFactoryService.java:148-173 | the loop returns exactly ArgsFor |
| BotExecutionFactory.FirstUsable | srv/src/main/java/com/sap/cap/ai2code/service/bot/BotExecutionFactoryService.java:123-133 | the first constructor from a position on that takes parameters which all resolve; none means no later constructor is usable |
| BotExecutionFactory.Injected | srv/src/main/java/com/sap/cap/ai2code/service/bot/BotExecutionFactoryService.java:119-143 | a new instance is always of the requested class |
| BotExecutionFactory.InjectedUsesFirstUsable | srv/src/main/java/com/sap/cap/ai2code/service/bot/BotExecutionFactoryService.java:119-143 | the constructor used is the first usable one and gets one bean per parameter; only when no constructor is usable, the no-argument constructor or "No suitable constructor found" |
| BotExecutionFactory.CreateInstanceWithDependencyInjection | srv/src/main/java/com/sap/cap/ai2code/service/bot/BotExecutionFactoryService.java:119-143 | the loop returns exactly Injected |
| BotExecutionFactory.InPackages | srv/src/main/java/com/sap/cap/ai2code/service/bot/BotExecutionFactoryService.java:74-83 | a class exactly when some search package holds the name, and it is that class |
| BotExecutionFactory.BySimpleName | srv/src/main/java/com/sap/cap/ai2code/service/bot/BotExecutionFactoryService.java:92-113 | a class exactly when some BotExecution bean's class has that simple name, and it is such a class |
| BotExecutionFactory.ClassFor | srv/src/main/java/com/sap/cap/ai2code/service/bot/BotExecutionFactoryService.java:67-87 | a failure is ClassNotFoundException; a dotted name loads that class; a simple name is found in a search package or among the beans |
| BotExecutionFactory.ResolveClass | srv/src/main/java/com/sap/cap/ai2code/service/bot/BotExecutionFactoryService.java:67-113 | the loops return exactly ClassFor |
| BotExecutionFactory.ExecutionInstance | srv/src/main/java/com/sap/cap/ai2code/service/bot/BotExecutionFactoryService.java:34-62 | every failure is "Implementation class not found" or "Failed to create bot execution instance" |
| BotExecutionFactory.OnlyBotExecutions | srv/src/main/java/com/sap/cap/ai2code/service/bot/BotExecutionFactoryService.java:34-62 | an instance comes only from a class that is a BotExecution; it is the container's bean exactly when one bean has the class, else a new object of that class |
| BotExecutionFactory.CreateBotExecutionInstance | srv/src/main/java/com/sap/cap/ai2code/service/bot/BotExecutionFactoryService.java:34-62 | returns exactly ExecutionInstance |
| BotExecutionFactory.SimpleNames | srv/src/main/java/com/sap/cap/ai2code/service/bot/BotExecutionFactoryService.java:283-291 | the simple names of the interfaces, one per interface in order |
| BotExecutionFactory.AppendNames | srv/src/main/java/com/sap/cap/ai2code/service/bot/BotExecutionFactoryService.java:285-292 | the loop appends the names joined by ", " |
| BotExecutionFactory.GetBotExecutionInstanceInfo | srv/src/main/java/com/sap/cap/ai2code/service/bot/BotExecutionFactoryService.java:271-296 | the builder returns exactly Info |
| BotExecutionFactory.CommaJoinEndsWithLast | srv/src/main/java/com/sap/cap/ai2code/service/bot/BotExecutionFactoryService.java:286-291 | no separator follows the last name |
| BotExecutionFactory.InfoListsInterfaces | srv/src/main/java/com/sap/cap/ai2code/service/bot/BotExecutionFactoryService.java:271-296 | the info of a class with interfaces ends with its last interface's simple name and a newline |
| LinkedSets.AddUnique | srv/src/main/java/com/sap/cap/ai2code/handlers/getContextNodesTreeHandler.java:101 | LinkedHashSet.add: the element is then present, the earlier elements keep their places, distinctness is kept, and adding a present element changes nothing |
| LinkedSets.AddAllSnoc | srv/src/main/java/com/sap/cap/ai2code/handlers/getContextNodesTreeHandler.java:91-111 | adding one more element after a run of adds is one more add |
| LinkedSets.AddAllConcat | srv/src/main/java/com/sap/cap/ai2code/handlers/getContextNodesTreeHandler.java:91-111 | adding xs then ys is adding xs + ys |
| LinkedSets.AddAllMembers | srv/src/main/java/com/sap/cap/ai2code/handlers/getContextNodesTreeHandler.java:91-111 | the set holds exactly what it held and what was added |
| LinkedSets.AddAllDistinct | srv/src/main/java/com/sap/cap/ai2code/handlers/getContextNodesTreeHandler.java:91-111 | the set never holds an element twice |
| LinkedSets.AddAllExtends | srv/src/main/java/com/sap/cap/ai2code/handlers/getContextNodesTreeHandler.java:91-111 | insertion order: earlier elements keep their positions |
| LinkedSets.AddAllParentsEarlier | srv/src/main/java/com/sap/cap/ai2code/handlers/getContextNodesTreeHandler.java:104-112 | adding elements each after its parent keeps every parent before its children |
| LinkedSets.AddEachMembers | srv/src/main/java/com/sap/cap/ai2code/handlers/getContextNodesTreeHandler.java:94-114 | adding the folders of every item holds exactly the folders of some item |
| StableSort.InsertPos | srv/src/main/java/com/sap/cap/ai2code/handlers/getContextNodesTreeHandler.java:120 | the insertion point comes after every element of no greater key and before every element of greater key |
| StableSort.SortPermutes | srv/src/main/java/com/sap/cap/ai2code/handlers/getContextNodesTreeHandler.java:117-120 | Collections.sort is a permutation of the list |
| StableSort.SortMembers | srv/src/main/java/com/sap/cap/ai2code/handlers/getContextNodesTreeHandler.java:117-120 | sorting keeps exactly the members |
| StableSort.SortDistinct | srv/src/main/java/com/sap/cap/ai2code/handlers/getContextNodesTreeHandler.java:117-120 | a list without duplicates stays without duplicates |
| StableSort.InsertSorted | srv/src/main/java/com/sap/cap/ai2code/handlers/getContextNodesTreeHandler.java:120 | inserting into a sorted list keeps it sorted |
| StableSort.SortSorted | srv/src/main/java/com/sap/cap/ai2code/handlers/getContextNodesTreeHandler.java:120 | the result is sorted by the segment count |
| StableSort.WithKeyAppend | srv/src/main/java/com/sap/cap/ai2code/handlers/getContextNodesTreeHandler.java:120 | the elements of one key of a + b are those of a, then those of b |
| StableSort.InsertWithKey | srv/src/main/java/com/sap/cap/ai2code/handlers/getContextNodesTreeHandler.java:120 | inserting adds the new element after the existing ones of its key |
| StableSort.SortStable | srv/src/main/java/com/sap/cap/ai2code/handlers/getContextNodesTreeHandler.java:120 | stability: among paths of equal segment count the sort keeps their insertion order |
| StableSort.InsertKeepsPrecedes | srv/src/main/java/com/sap/cap/ai2code/handlers/getContextNodesTreeHandler.java:120 | inserting keeps every existing order |
| StableSort.InsertAfter | srv/src/main/java/com/sap/cap/ai2code/handlers/getContextNodesTreeHandler.java:120 | the inserted element goes after every element of no greater key |
| StableSort.SortKeepsBefore | srv/src/main/java/com/sap/cap/ai2code/handlers/getContextNodesTreeHandler.java:120 | an element before another of no smaller key stays before it |
| JavaText.LowerCase | srv/src/main/java/com/sap/cap/ai2code/service/common/GenericCqnService.java:477 | lower-cases each ASCII capital in place, keeping the length |
| JavaText.Trim | srv/src/main/java/com/sap/cap/ai2code/handlers/envLoader.java:47 | String.trim: no character at or below a space at either end, never longer |
| JavaText.TrimEmptyIff | srv/src/main/java/com/sap/cap/ai2code/handlers/envLoader.java:90 | trim() is empty exactly when every character is at or below a space |
| JavaText.TrimUntrimmed | srv/src/main/java/com/sap/cap/ai2code/handlers/envLoader.java:57-58 | trim leaves a string without such characters at its ends as it is |
| JavaText.IndexOf | srv/src/main/java/com/sap/cap/ai2code/handlers/envLoader.java:55 | the first position of the character, or -1 exactly when it is absent |
| JavaText.LastIndexOf | srv/src/main/java/com/sap/cap/ai2code/handlers/getContextNodesTreeHandler.java:129 | the last position of the character, or -1 exactly when it is absent |
| JavaText.LastIndexOfFrom | srv/src/main/java/com/sap/cap/ai2code/service/context/ContextServiceImpl.java:214 | the last position at or before the start index, with no occurrence between it and the start |
| JavaText.ReplaceAbsent | srv/src/main/java/com/sap/cap/ai2code/service/context/ContextServiceImpl.java:68 | replace leaves a string without the target unchanged |
| JavaText.ReplaceChar | srv/src/main/java/com/sap/cap/ai2code/service/common/GenericCqnService.java:475-476 | replacing a character removes it unless the replacement holds it, and adds only replacement characters |
| JavaText.ReplaceCharAppend | srv/src/main/java/com/sap/cap/ai2code/service/common/GenericCqnService.java:475-476 | replacing distributes over concatenation |
| JavaText.Pieces | srv/src/main/java/com/sap/cap/ai2code/handlers/getContextNodesTreeHandler.java:97 | at least one piece, none holding the separator |
| JavaText.JoinPieces | srv/src/main/java/com/sap/cap/ai2code/handlers/getContextNodesTreeHandler.java:97 | joining the pieces with the separator gives the string back |
| JavaText.PiecesJoin | srv/src/main/java/com/sap/cap/ai2code/handlers/getContextNodesTreeHandler.java:97 | splitting a join of separator-free pieces gives the pieces back |
| JavaText.PiecesAppend | srv/src/main/java/com/sap/cap/ai2code/handlers/getContextNodesTreeHandler.java:104-112 | the pieces of s, a separator and t are the pieces of s, then those of t |
| JavaText.LastIndexOfSnoc | srv/src/main/java/com/sap/cap/ai2code/handlers/getContextNodesTreeHandler.java:129 | the last separator of s, a separator and a separator-free t is the one before t |
| JavaText.DropTrailingEmpty | srv/src/main/java/com/sap/cap/ai2code/handlers/getContextNodesTreeHandler.java:97 | String.split drops exactly the trailing empty pieces |
| JavaText.Split | srv/src/main/java/com/sap/cap/ai2code/handlers/getContextNodesTreeHandler.java:97 | no piece holds the separator; an empty string splits into one empty piece, a separator-free string into itself |
| JavaText.SplitClean | srv/src/main/java/com/sap/cap/ai2code/handlers/getContextNodesTreeHandler.java:97 | without empty segments split gives all the pieces |
| JavaText.SplitHasPiece | srv/src/main/java/com/sap/cap/ai2code/handlers/getContextNodesTreeHandler.java:97 | a string with a non-separator character, or the empty string, splits into at least one piece |
| JavaText.JoinAllSeparators | srv/src/main/java/com/sap/cap/ai2code/handlers/getContextNodesTreeHandler.java:97 | a string made only of separators joins only empty pieces |
| JavaText.ParseInt | srv/src/main/java/com/sap/cap/ai2code/handlers/envLoader.java:100 | Integer.parseInt: only 32-bit values, and the empty string fails |
| JavaText.DecimalValue | srv/src/main/java/com/sap/cap/ai2code/handlers/envLoader.java:96-106 | the decimal digits of n read back as n |
| JavaText.ParseIntToString | srv/src/main/java/com/sap/cap/ai2code/handlers/envLoader.java:96-106 | parseInt reads back every 32-bit integer's decimal form |

## Left out

- Network, SSE and threads: HTTP calls, `SseEmitter`, the executor, `GeminiChatService` and `chatCompletionHandler` are not modelled. An AI reply is a function parameter (`send`, `functionCalling`), and so is the HTTP status.
- DotEnv.EnvLoader.LoadEnvFile: an `IOException` raised while an opened file is read is not modelled. The source catches it like a failure to open (handlers/envLoader.java:32-36): the entries already put stay in the map, and the next candidate path is tried. In the model an opened file is read to its end or to a failing line.
- GeminiService.ReadStream: an `IOException` in the middle of a stream read is not modelled; the lines of a stream are a finite sequence that is read to its end or to a stopping line.
- BotService.Chat: the 500 ms `Thread.sleep` between the two inserts is left out, and so is its `InterruptedException` path to status "F". The model's "F" comes from a failed answer or a bot that is not a ChatBot.
- CreateTasks.Execute: the task service is the parameter `create`, which returns the new task's ID or the failure it throws; the tables it writes (TaskCreation.CreateTaskWithBots models that handler) are not threaded through this loop, so the model does not say which tasks exist after a failure part-way.
- ChatBot.ChatInStreaming, ChatBot.SaveConversation: the 500 ms `Thread.sleep` between the user row and the assistant row (model/bot/ChatBot.java:120) is left out, and so is the `catch (Exception)` at lines 128-131 that only prints. The model's inserts never fail and the sleep is never interrupted, so it always stores both rows; the program stores only the user row when the sleep or the second insert throws.
- TaskDetail.TreeNode.OnTaskSelect: the asynchronous OData `.then` chains, their timeouts and their failures are not modelled. The fetched rows are a parameter, and the handler runs to completion in one step.
- Store.MessagesOf: a bot instance's history is its rows in insertion order. The source orders by `createdAt` ascending (service/common/GenericCqnService.java:265-269). Rows written in one request can share a timestamp, so the database may order them differently.
- LegacyChatBot.Chat, LegacyBotService.Converse, LegacyBotService.Chat: the older chat bot calls `service.interfaces.AIService.chatWithAI` (model/ChatBot.java:89-105). `model/AIModelResolver.java` (lines 8 and 62-65) resolves that to `service.impl.SAPGeminiAIServiceImpl`, whose source is not part of this model. It is assumed to build the same request and read the reply as `service/ai/SAPGeminiAIServiceImpl.java` does, so these members use GeminiService.ChatWithAI.
- ModelResolver.ResolveAIModel: the current bot service imports `model.ai.AIModelResolver`, whose source is not part of this model. It is assumed to behave like `model/AIModelResolver.java`, which is modelled.
- JavaText.ToUpper, JavaText.ToLower, JavaText.LowerCase: case mapping is ASCII only. Java's `toUpperCase`, `toLowerCase` and `Character.toUpperCase` also map non-ASCII letters, and `String.toLowerCase` depends on the default locale. So the label generators, `BotExecutionFactory.BeanNameByType` and `FunctionCalls.GetterProperty` differ from the source on non-ASCII letters.
- JavaText.ParseInt: only ASCII digits are accepted. `Integer.parseInt` also accepts every other Unicode decimal digit.
- JavaText.Trim, JavaText.IndexOf, JavaText.LastIndexOf, JavaText.Split, CqnImpl.CapWord, FunctionCalls.GetterProperty: a string is a sequence of Unicode scalar values (Dafny's `char`). Java and JavaScript strings are sequences of UTF-16 code units. The two agree on text inside the Basic Multilingual Plane. A character outside it counts as two units in Java and as one character in the model, so lengths, the positions `indexOf` and `lastIndexOf` return, and `substring` bounds differ there. The older label generator's `substring(0, 1)` takes half of a surrogate pair, where the model takes the whole character. Only `String.hashCode` is computed on UTF-16 units (`FunctionCalls.Utf16Units`). Nothing is normalised.
- CqnCommon.GenerateLabelFromPath, CqnImpl.GenerateLabelFromPath, ContextService.ContextLabel: these require a path that is empty or holds a character other than '.'. For a path made only of dots, `split("\\.")` returns an empty array and the source throws `ArrayIndexOutOfBoundsException`. ContextService.Upsert does model that crash, as its failure "Failed to upsert context node" (`Labelable`).
- FlatTree.ConvertToFlatStructure: an item's path is never null. In the source, an item with a null path is skipped by step 1, and `path.lastIndexOf` then throws `NullPointerException` in step 3 (handlers/getContextNodesTreeHandler.java:164).
- TaskCreation.DescriptionNode: a null description is stored as "" in the new node's path, label and type. The source stores null there (handlers/createTaskWithBotsHandler.java:115-126). Context-node paths are non-null strings throughout the model. So where the program's tree handler would throw `NullPointerException` on that node in step 3, the model's handler skips the "" path (FlatTreeProofs.EmptyPathSkipped). Only the value field keeps the null.
- DotEnv.Unquote: the one-character value `"` is the `StringIndexOutOfBoundsException` of `substring(1, 0)`. It is modelled as a failure that stops the load, with the exception's message text.
- CqnCommon.MainTaskId, CqnCommon.Walk: the upward walk of `getMainTaskId` has no bound in the source and loops forever on cyclic data (CqnCommon.SelfCycleNeverEnds). The model walks at most `fuel` steps and answers None past that.
- BotService.Adopt, BotService.AdoptMessage, BotService.DeliverMessage, ContextService.UpsertContext, ContextService.UpsertContextBatch: these require `MainTaskId(...).Some?`, that is, a walk that ends within the fuel bound. They do not model a walk that never ends.
- BotService.AdoptByContext: its requires `LinkedWalkEnds` is the same fuel bound, for the message's own bot instance.
- BotService.Execute, BotService.AdoptByContext: `execute(context)` and `adopt(context)` read the ID from the request's CQN with `CqnAnalyzer`, which is not modelled. The model takes the bot instance ID, or the message ID, as a parameter.
- ContextService: `getContextNode` and `getContextNodesByPattern` (service/context/ContextServiceImpl.java:156-158 and 177-195) are not modelled. The first is pure delegation to a store lookup. The second is a `LIKE` query, and CQN pattern matching is not part of this model.
- BotService.BotInstanceByTaskAndSequence: when several rows match, CAP's `Result.single` throws. The model gives a `Runtime` failure whose message is not CAP's exact text.
- Reflection and Spring: `Class.forName`, `getBean`, `getConstructors`, `Method.invoke` and the Jackson field scan become maps and sequences of classes, beans and constructors (`BotExecutionFactory.Container`). The class hierarchy is a parameter (`assignable`). `getConstructors` returns constructors in no particular order. BotExecutionFactory.FirstUsable tries them in declaration order, so where several constructors are usable, the program may pick a different one.
- FunctionCalls.ConvertArgument, FunctionCalls.PreparedArguments, FunctionCalls.PrepareMethodArguments, FunctionCalls.CallOnInstance, FunctionCalls.Call: four branches of `convertArgumentToParameterType` are one parameter (`OtherValues.convert`): `convertToList`, the `Double` branch, the assignable pass-through and `objectMapper.convertValue`. Values other than null, String, integral numbers and Boolean (a Double, a List, a Map) are abstract, with their `toString` and `intValue` also given as parameters. The null, String, Integer and Boolean branches and the wrapping of every failure are modelled. Floating point is not modelled, and neither is the `0.7` temperature, which appears only as literal text in the request body.
- TaskDetail.TreeNode.OnTaskSelect: JavaScript's loose `isMain == false` is modelled on `Option<bool>` (true, false, or absent). Other JavaScript values that are loosely equal to false are not modelled.
- UI wiring: dialogs, routing, bindings and chat bubbles in the UI controllers, and `executeHandler`, `adoptHandler`, `TaskServiceImpl`, both `PromptServiceImpl` files, `CodingBot`'s stubs and the CRUD helpers of both `GenericCqnService` files beyond those the core calls, are not modelled.

## Findings

| source | as written | input that shows it | evidently intended | confidence | as-written member | corrected member |
|---|---|---|---|---|---|---|
| srv/src/main/java/com/sap/cap/ai2code/service/ai/SAPGeminiAIServiceImpl.java:147 | `.replace("\"", "\\\"").replace("\n", "\\n")` escapes only quotes and newlines, here and again at line 285 | a message holding a backslash followed by `n`, and one holding a newline, give the same request body | JSON string escaping: backslash, quote and every control character escaped, so the body reads back as the messages sent | not executed | GeminiService.EscapeMisreadsBackslash, GeminiService.RequestBodyConflates | GeminiService.IntendedRequestBody, GeminiService.IntendedRequestBodyRoundTrip |
| app/task-runtime/webapp/controller/TaskDetail.controller.js:402-406 | the duplicate check reads the undeclared `newItem`, here and again at lines 442-446, and throws `ReferenceError` in strict mode once the node has children | a bot node with one child, selected when the fetch returns a task with a new ID | merge every fetched item whose ID is new, whatever the node already holds | not executed | TaskDetail.StrayCheckLosesChildren | TaskDetail.IntendedOutcome, TaskDetail.IntendedOutcomeProperties |
