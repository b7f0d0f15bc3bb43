/** The function-calling bot (model/bot/FunctionCallingBot.java): execute
    hands the bot type's prompts and a BotExecution instance to the AI
    service's function calling and turns the returned object into the
    action's return value; chat is the chat bot's first-call seeding and
    blocking call. */
module FunctionCallingBot {
  import opened Wrappers
  import opened JavaText
  import opened Store
  import Bot
  import ModelResolver
  import GeminiService
  import ChatBot

  datatype FunctionCallingBot = FunctionCallingBot(botInstance: BotInstance, botType: BotType,
                                                   aiModel: ModelResolver.AIModel)

  /** The Java objects function calling can return: a String, a collection
      (a List or another Collection) of objects, or any other object with
      its class name and its toString. */
  datatype Value =
    | Str(s: string)
    | Coll(isList: bool, elems: seq<Value>)
    | Other(className: string, text: string)

  /** BotInstancesExecuteContext.ReturnType: the two fields that may be
      set, null when not. */
  datatype ReturnType = ReturnType(tasks: Option<seq<string>>, result: Option<string>)

  /** Java's toString: a collection prints as "[a, b]". */
  function Text(v: Value): string
    decreases v
  {
    match v
    case Str(s) => s
    case Other(_, t) => t
    case Coll(_, es) => "[" + CommaJoin(seq(|es|, i requires 0 <= i < |es| => Text(es[i]))) + "]"
  }

  // ---------------------------------------------------------------------
  // processExecutionResult

  /** The cast loop over a collection: every element cast to String, or
      the ClassCastException of the first element that is not one.  The
      exception's message (the JVM's wording) is a parameter. */
  function Casts(elems: seq<Value>, castMessage: Value -> string): (r: Result<seq<string>>)
    ensures r.Ok? <==> forall k :: 0 <= k < |elems| ==> elems[k].Str?
    ensures r.Ok? ==> |r.value| == |elems| && forall k :: 0 <= k < |elems| ==> r.value[k] == elems[k].s
    ensures r.Err? ==> exists k :: 0 <= k < |elems| && !elems[k].Str?
                                  && (forall j :: 0 <= j < k ==> elems[j].Str?)
                                  && r.error == ClassCast(castMessage(elems[k]))
  {
    if elems == [] then Ok([])
    else if !elems[0].Str? then Err(ClassCast(castMessage(elems[0])))
    else
      match Casts(elems[1..], castMessage)
      case Ok(rest) => Ok([elems[0].s] + rest)
      case Err(e) =>
        assert exists k :: 0 <= k < |elems| - 1 && !elems[1..][k].Str?
                           && (forall j :: 0 <= j < k ==> elems[1..][j].Str?)
                           && e == ClassCast(castMessage(elems[1..][k]));
        var k :| 0 <= k < |elems| - 1 && !elems[1..][k].Str?
                 && (forall j :: 0 <= j < k ==> elems[1..][j].Str?)
                 && e == ClassCast(castMessage(elems[1..][k]));
        assert !elems[k + 1].Str? && forall j :: 0 <= j < k + 1 ==> elems[j].Str?;
        Err(e)
  }

  const ERROR_PREFIX: string := "Error processing result: "

  /** What processExecutionResult returns for a result object. */
  function Processed(v: Value, castMessage: Value -> string): ReturnType {
    match v
    case Coll(_, es) =>
      if es != [] && es[0].Str? then
        match Casts(es, castMessage)
        case Ok(tasks) => ReturnType(Some(tasks), None)
        case Err(e) => ReturnType(None, Some(ERROR_PREFIX + e.message))
      else ReturnType(None, None)
    case Str(_) => ReturnType(None, Some(Converted(v)))
    case Other(_, _) => ReturnType(None, None)
  }

  /** processExecutionResult: the collection branch casts element by
      element into the tasks field; a String is converted to the result. */
  method ProcessExecutionResult(v: Value, castMessage: Value -> string) returns (r: ReturnType)
    ensures r == Processed(v, castMessage)
  {
    r := ReturnType(None, None);
    if v.Coll? {
      var tasks := v.elems;
      if tasks != [] && tasks[0].Str? {
        var taskList: seq<string> := [];
        var i := 0;
        while i < |tasks|
          invariant 0 <= i <= |tasks|
          invariant forall j :: 0 <= j < i ==> tasks[j].Str?
          invariant |taskList| == i && forall j :: 0 <= j < i ==> taskList[j] == tasks[j].s
        {
          if !tasks[i].Str? {
            ghost var c := Casts(tasks, castMessage);
            assert c.Err?;
            ghost var k :| 0 <= k < |tasks| && !tasks[k].Str?
                           && (forall j :: 0 <= j < k ==> tasks[j].Str?)
                           && c.error == ClassCast(castMessage(tasks[k]));
            assert k == i;
            return ReturnType(None, Some(ERROR_PREFIX + castMessage(tasks[i])));
          }
          taskList := taskList + [tasks[i].s];
          i := i + 1;
        }
        assert Casts(tasks, castMessage).value == taskList;
        r := r.(tasks := Some(taskList));
      }
    }
    if v.Str? {
      var text := ConvertResultToString(v);
      r := r.(result := Some(text));
    }
  }

  /** A collection of Strings becomes the tasks field, in order, and no
      result. */
  lemma ProcessedTasks(es: seq<Value>, castMessage: Value -> string)
    requires es != [] && forall k :: 0 <= k < |es| ==> es[k].Str?
    ensures Processed(Coll(true, es), castMessage) == Processed(Coll(false, es), castMessage)
    ensures var r := Processed(Coll(true, es), castMessage);
      && r.result.None? && r.tasks.Some? && |r.tasks.value| == |es|
      && forall k :: 0 <= k < |es| ==> r.tasks.value[k] == es[k].s
  {
  }

  /** A String first element followed by a non-String one: no task list,
      only the error text naming the first element that failed its cast. */
  lemma ProcessedCastFailure(isList: bool, es: seq<Value>, k: nat, castMessage: Value -> string)
    requires k < |es| && es[0].Str? && !es[k].Str? && forall j :: 0 <= j < k ==> es[j].Str?
    ensures Processed(Coll(isList, es), castMessage) == ReturnType(None, Some(ERROR_PREFIX + castMessage(es[k])))
  {
    var c := Casts(es, castMessage);
    var i :| 0 <= i < |es| && !es[i].Str? && (forall j :: 0 <= j < i ==> es[j].Str?)
             && c.error == ClassCast(castMessage(es[i]));
    assert !(i < k) && !(k < i);
  }

  /** A String is the result, unchanged; an empty collection, one whose
      first element is not a String, or any other object sets nothing. */
  lemma ProcessedOthers(v: Value, castMessage: Value -> string)
    ensures v.Str? ==> Processed(v, castMessage) == ReturnType(None, Some(v.s))
    ensures v.Other? || (v.Coll? && (v.elems == [] || !v.elems[0].Str?))
            ==> Processed(v, castMessage) == ReturnType(None, None)
  {
  }

  // ---------------------------------------------------------------------
  // convertResultToString

  function Header(n: int): string {
    "Function call returned " + IntToString(n) + " items:"
  }

  /** One numbered line of the listing, without its newline. */
  function Item(i: int, v: Value): string {
    IntToString(i) + ". " + Text(v)
  }

  /** The numbered lines of a list, each ended by a newline. */
  function Listing(es: seq<Value>): string {
    if es == [] then []
    else Listing(es[..|es| - 1]) + Item(|es|, es[|es| - 1]) + "\n"
  }

  /** The numbered lines of a list, as a sequence. */
  function Items(es: seq<Value>): (r: seq<string>)
    ensures |r| == |es|
  {
    if es == [] then []
    else Items(es[..|es| - 1]) + [Item(|es|, es[|es| - 1])]
  }

  /** convertResultToString: a String as it is, a List as its header and
      numbered lines, anything else by toString. */
  function Converted(v: Value): string {
    match v
    case Str(s) => s
    case Coll(isList, es) => if isList then Header(|es|) + "\n" + Listing(es) else Text(v)
    case Other(_, t) => t
  }

  method ConvertResultToString(v: Value) returns (text: string)
    ensures text == Converted(v)
  {
    if v.Str? {
      return v.s;
    } else if v.Coll? && v.isList {
      var list := v.elems;
      var sb := Header(|list|) + "\n";
      var i := 0;
      while i < |list|
        invariant 0 <= i <= |list|
        invariant sb == Header(|list|) + "\n" + Listing(list[..i])
      {
        ListingStep(Header(|list|) + "\n", list, i);
        sb := sb + Item(i + 1, list[i]) + "\n";
        i := i + 1;
      }
      assert list[..i] == list;
      return sb;
    } else {
      return Text(v);
    }
  }

  lemma ListingStep(h: string, list: seq<Value>, i: nat)
    requires i < |list|
    ensures h + Listing(list[..i + 1]) == h + Listing(list[..i]) + Item(i + 1, list[i]) + "\n"
  {
    assert list[..i + 1][..i] == list[..i];
    Regroup(h, Listing(list[..i]), Item(i + 1, list[i]) + "\n");
  }

  /** The listing is the header and the numbered lines joined by
      newlines, with a final newline. */
  lemma {:induction false} ListingIsJoin(h: string, es: seq<Value>)
    ensures h + "\n" + Listing(es) == Join([h] + Items(es) + [[]], '\n')
  {
    if es == [] {
      assert [h] + Items(es) + [[]] == [h, []];
    } else {
      var n := |es| - 1;
      var init := [h] + Items(es[..n]);
      var line := Item(|es|, es[n]);
      ListingIsJoin(h, es[..n]);
      JoinSnoc(init, [], '\n');
      JoinSnoc(init, line, '\n');
      JoinSnoc(init + [line], [], '\n');
      assert [h] + Items(es) + [[]] == init + [line] + [[]];
      calc {
        h + "\n" + Listing(es);
        h + "\n" + (Listing(es[..n]) + line + "\n");
        { Regroup(h + "\n", Listing(es[..n]), line + "\n"); }
        (h + "\n" + Listing(es[..n])) + (line + "\n");
        Join(init, '\n') + "\n" + (line + "\n");
        { Regroup(Join(init, '\n') + "\n", line, "\n"); }
        Join(init, '\n') + "\n" + line + "\n";
      }
    }
  }

  lemma Regroup(a: string, b: string, c: string)
    ensures a + (b + c) == a + b + c
  {
  }

  lemma DecimalHasNoNewline(n: nat)
    ensures '\n' !in IntToString(n)
  {
    assert AllDigits(IntToString(n));
  }

  /** Read back line by line, a list's text is its header, then item i's
      line "i. text" for each item from 1, then the empty text after the
      final newline, provided no item prints a newline itself. */
  lemma ListingLines(es: seq<Value>)
    requires forall k :: 0 <= k < |es| ==> '\n' !in Text(es[k])
    ensures var lines := Pieces(Converted(Coll(true, es)), '\n');
      && |lines| == |es| + 2
      && lines[0] == Header(|es|)
      && (forall k :: 0 <= k < |es| ==> lines[k + 1] == IntToString(k + 1) + ". " + Text(es[k]))
      && lines[|es| + 1] == []
  {
    var h := Header(|es|);
    var ps := [h] + Items(es) + [[]];
    ListingIsJoin(h, es);
    ItemsAt(es);
    DecimalHasNoNewline(|es|);
    assert '\n' !in h;
    forall k | 0 <= k < |ps|
      ensures '\n' !in ps[k]
    {
      if 0 < k < |es| + 1 {
        DecimalHasNoNewline(k);
        assert ps[k] == IntToString(k) + ". " + Text(es[k - 1]);
      }
    }
    PiecesJoin(ps, '\n');
  }

  lemma {:induction false} ItemsAt(es: seq<Value>)
    ensures forall k :: 0 <= k < |es| ==> Items(es)[k] == IntToString(k + 1) + ". " + Text(es[k])
  {
    if es != [] {
      var n := |es| - 1;
      ItemsAt(es[..n]);
      assert forall k :: 0 <= k < n ==> es[..n][k] == es[k];
    }
  }

  // ---------------------------------------------------------------------
  // execute

  /** execute: the prompts of the bot type and instance (`prompts`, null
      when getPrompts gives null, whose size() then throws), the
      BotExecution instance the factory creates for the implementation
      class (`created`), then function calling with an always-empty
      message list; its result is processed.  Exceptions propagate. */
  function ExecuteOutcome<E>(prompts: Option<seq<PromptText>>, created: Result<E>,
                             functionCalling: (seq<BotMessage>, seq<PromptText>, E) -> Result<Value>,
                             castMessage: Value -> string): Result<ReturnType>
  {
    if prompts.None? then Err(Runtime("NullPointerException"))
    else if created.Err? then Err(created.error)
    else
      match functionCalling([], prompts.value, created.value)
      case Err(e) => Err(e)
      case Ok(v) => Ok(Processed(v, castMessage))
  }

  method Execute<E>(prompts: Option<seq<PromptText>>, created: Result<E>,
                    functionCalling: (seq<BotMessage>, seq<PromptText>, E) -> Result<Value>,
                    castMessage: Value -> string)
    returns (r: Result<ReturnType>)
    ensures prompts.None? ==> r == Err(Runtime("NullPointerException"))
    ensures prompts.Some? && created.Err? ==> r == Err(created.error)
    ensures prompts.Some? && created.Ok? ==>
      match functionCalling([], prompts.value, created.value)
      case Err(e) => r == Err(e)
      case Ok(v) => r == Ok(Processed(v, castMessage))
    ensures r == ExecuteOutcome(prompts, created, functionCalling, castMessage)
  {
    if prompts.None? {
      return Err(Runtime("NullPointerException"));
    }
    if created.Err? {
      return Err(created.error);
    }
    var messages: seq<BotMessage> := [];
    var result := functionCalling(messages, prompts.value, created.value);
    if result.Err? {
      return Err(result.error);
    }
    var returnResult := ProcessExecutionResult(result.value, castMessage);
    r := Ok(returnResult);
  }

  // ---------------------------------------------------------------------
  // chat

  /** chat: the same steps as the chat bot's chat (history, first-call
      seeding with the bot type's prompts, one blocking call, "Chat
      failed" on any failure). */
  method Chat(bot: FunctionCallingBot, db: Db, content: string, prompts: Option<seq<PromptText>>, ids: seq<string>,
              send: string -> (int, string), readTree: string -> Option<GeminiService.Json>)
    returns (r: Result<string>)
    requires |ids| == |prompts.GetOr([])|
    modifies db
    ensures var id := bot.botInstance.id;
      var h := MessagesOf(old(db.messages), id);
      && db.messages == old(db.messages) + (if h == [] then ChatBot.Seed(prompts, id, ids) else [])
      && var reply := send(GeminiService.RequestBody(ChatBot.ChatContext(h, prompts, id, ids, content), false));
         r == ChatBot.ChatFailed(GeminiService.ChatReply(reply.0, readTree(reply.1)))
    ensures db.tasks == old(db.tasks) && db.botInstances == old(db.botInstances)
    ensures db.botTypes == old(db.botTypes) && db.contextNodes == old(db.contextNodes)
  {
    r := ChatBot.Chat(ChatBot.ChatBot(bot.botInstance, bot.botType, bot.aiModel), db, content, prompts, ids,
                      send, readTree);
  }

  /** The operations this bot leaves as stubs. */
  function Dispatch(op: Bot.Operation): (r: Option<Failure>)
    ensures r.None? <==> op == Bot.Execute || op == Bot.Chat
    ensures r.Some? ==> r.value == Bot.Unimplemented(op)
  {
    match op
    case Execute => None
    case Chat => None
    case _ => Some(Bot.Unimplemented(op))
  }
}
