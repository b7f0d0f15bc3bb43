/** The streaming chat endpoint (StreamingChatController): validates the
    request body, then hands the bot instance ID and the content to the
    bot service's chatInStreaming. */
module ChatController {
  import opened Wrappers
  import opened JavaText
  import BotService

  /** The request body; either field may be null. */
  datatype ChatRequest = ChatRequest(id: Option<string>, content: Option<string>)

  const ID_REQUIRED: string := "Bot instance ID is required"
  const CONTENT_REQUIRED: string := "Content is required"
  const VALIDATION_FAILED: string := "Validation failed:"

  /** null, or nothing left once trimmed. */
  predicate Missing(s: Option<string>) {
    s.None? || TrimEmpty(s.value)
  }

  /** ChatRequest.validate: the ID is checked first, then the content. */
  function Validate(req: ChatRequest): (r: Result<()>)
    ensures r.Ok? <==> !Missing(req.id) && !Missing(req.content)
    ensures r.Err? ==> r.error.IllegalArgument?
  {
    if Missing(req.id) then Err(IllegalArgument(ID_REQUIRED))
    else if Missing(req.content) then Err(IllegalArgument(CONTENT_REQUIRED))
    else Ok(())
  }

  /** A request that passes validation carries an ID and a content that
      are not empty once trimmed; a request missing both is reported for
      its ID. */
  lemma ValidatedRequestHasText(req: ChatRequest)
    ensures Validate(req).Ok? ==> Trim(req.id.value) != [] && Trim(req.content.value) != []
    ensures Missing(req.id) ==> Validate(req) == Err(IllegalArgument(ID_REQUIRED))
    ensures !Missing(req.id) && Missing(req.content) ==> Validate(req) == Err(IllegalArgument(CONTENT_REQUIRED))
  {
    if Validate(req).Ok? {
      TrimEmptyIff(req.id.value);
      TrimEmptyIff(req.content.value);
    }
  }

  /** streamChatSAP: a validation failure becomes a BusinessException
      carrying its message; otherwise the answer is what chatInStreaming
      gives for the request's ID and content, untrimmed. */
  function StreamChat<E>(req: ChatRequest, chatInStreaming: (string, string) -> Result<E>): (r: Result<E>)
    ensures Validate(req).Err? ==> r == Err(BusinessException(VALIDATION_FAILED + Validate(req).error.message))
    ensures Validate(req).Ok? ==> r == chatInStreaming(req.id.value, req.content.value)
  {
    match Validate(req)
    case Err(e) => Err(BusinessException(VALIDATION_FAILED + e.message))
    case Ok(_) => chatInStreaming(req.id.value, req.content.value)
  }

  /** The bot service wired to the endpoint leaves chatInStreaming
      unimplemented. */
  function CurrentChatInStreaming(botInstanceId: string, content: string): Result<()> {
    Err(BotService.Unimplemented(BotService.ChatInStreamingOp))
  }

  /** With that service the endpoint always fails: with the validation
      message for an invalid request, with the unimplemented-method error
      for a valid one. The service is reached only with a valid request. */
  lemma EndpointAlwaysFails(req: ChatRequest)
    ensures var r := StreamChat(req, CurrentChatInStreaming);
      && r.Err?
      && (Missing(req.id) ==> r.error == BusinessException(VALIDATION_FAILED + ID_REQUIRED))
      && (!Missing(req.id) && Missing(req.content) ==> r.error == BusinessException(VALIDATION_FAILED + CONTENT_REQUIRED))
      && (!Missing(req.id) && !Missing(req.content) ==>
            r.error == UnsupportedOperation("Unimplemented method 'chatInStreaming'"))
  {
    var r := StreamChat(req, CurrentChatInStreaming);
    if !Missing(req.id) && !Missing(req.content) {
      assert r.error == BotService.Unimplemented(BotService.ChatInStreamingOp);
    }
  }

  /** An invalid request never reaches the service: the endpoint's answer
      is the same whichever service is wired in. */
  lemma InvalidRequestNeverReachesService<E>(req: ChatRequest, f: (string, string) -> Result<E>,
                                             g: (string, string) -> Result<E>)
    requires Validate(req).Err?
    ensures StreamChat(req, f) == StreamChat(req, g)
  {
  }
}
