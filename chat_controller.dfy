/**
 * The chat transcript controller. It owns the transcript and the input, busy
 * and error state, and turns each call to the model into two steps: a
 * dispatch that returns the arguments handed to the request builder, and a
 * completion that reconciles the outcome of that call into the transcript.
 */
module ChatController {
  import opened ChatTypes
  import opened Text
  import opened ChatText
  import Credentials

  /** The behaviour preset: `null`, `'book'` or `'json'`. */
  datatype Mode = NoMode | Book | Json

  /** The arguments of one call to the request builder. */
  datatype ModelCall = ModelCall(messages: seq<Message>, mode: Mode, temperature: real)

  /** A send awaiting its reply, with the clock reading taken at dispatch. */
  datatype PendingReply = PendingReply(call: ModelCall, startedAt: int)

  /** How a call to the model ended: the reply, or the error's message and HTTP status. */
  datatype Outcome =
    | Success(content: string, usage: Option<Usage>)
    | Failure(errMessage: Option<string>, status: Option<int>)

  /**
   * The assistant entry a completed send leaves at the end of the transcript:
   * the reply, or the apology with no usage, stamped with the elapsed time.
   */
  function ReplyEntry(outcome: Outcome, elapsed: int): (m: Message)
    ensures m.role == Assistant && m.timeOfResponse == Some(elapsed)
    ensures outcome.Success? ==> m.content == outcome.content && m.usage == outcome.usage
    ensures outcome.Failure? ==> m.content == ApologyText && m.usage == None
  {
    match outcome
    case Success(content, usage) => Message(Assistant, content, usage, Some(elapsed))
    case Failure(_, _) => Message(Assistant, ApologyText, None, Some(elapsed))
  }

  const InitialTemperature: real := 0.7
  const SummaryTemperature: real := 0.0

  class Chat {
    const credentialsService: Credentials.CredentialsService
    var messages: seq<Message>
    var userInput: string
    var isLoading: bool
    var mode: Mode
    var error: Option<string>
    var temperature: real
    var model: Credentials.Model

    /**
     * An empty, idle controller on `Gemini_2_0_Flash`. The model effect runs
     * once at start, so the credentials are that model's entry.
     */
    constructor (credentialsService: Credentials.CredentialsService)
      requires Credentials.Gemini_2_0_Flash in credentialsService.modelKeys
      modifies credentialsService
      ensures this.credentialsService == credentialsService
      ensures messages == [] && userInput == "" && !isLoading && error == None
      ensures mode == NoMode && temperature == InitialTemperature && model == Credentials.Gemini_2_0_Flash
      ensures credentialsService.apiUrl == credentialsService.modelKeys[Credentials.Gemini_2_0_Flash].apiUrl
      ensures credentialsService.apiKey == credentialsService.modelKeys[Credentials.Gemini_2_0_Flash].apiKey
    {
      this.credentialsService := credentialsService;
      messages := [];
      userInput := "";
      isLoading := false;
      mode := NoMode;
      error := None;
      temperature := InitialTemperature;
      model := Credentials.Gemini_2_0_Flash;
      new;
      credentialsService.SetCredentials(model);
    }

    /** Selecting a model re-selects the credentials (the model effect). */
    method SetModel(m: Credentials.Model)
      requires m in credentialsService.modelKeys
      modifies this, credentialsService
      ensures model == m
      ensures credentialsService.apiUrl == credentialsService.modelKeys[m].apiUrl
      ensures credentialsService.apiKey == credentialsService.modelKeys[m].apiKey
      ensures messages == old(messages) && userInput == old(userInput) && isLoading == old(isLoading)
      ensures error == old(error) && mode == old(mode) && temperature == old(temperature)
    {
      model := m;
      credentialsService.SetCredentials(model);
    }

    /** Appends one entry with no reply metadata. */
    method AddMessage(role: Role, content: string)
      modifies this
      ensures messages == old(messages) + [Fresh(role, content)]
      ensures userInput == old(userInput) && isLoading == old(isLoading) && error == old(error)
      ensures mode == old(mode) && temperature == old(temperature) && model == old(model)
    {
      var fullMessage := Message(role, content, None, None);
      messages := messages + [fullMessage];
    }

    /**
     * Sends the input as a user turn. Blank input changes nothing and sends
     * nothing; otherwise the trimmed input is appended, the input cleared,
     * and the whole transcript dispatched.
     */
    method SendMessage(now: int) returns (pending: Option<PendingReply>)
      modifies this
      ensures IsBlank(old(userInput)) ==>
        && pending == None && messages == old(messages) && userInput == old(userInput)
        && isLoading == old(isLoading) && error == old(error)
      ensures !IsBlank(old(userInput)) ==>
        && userInput == "" && messages == old(messages) + [Fresh(User, Trim(old(userInput)))]
        && isLoading && error == None
        && pending == Some(PendingReply(ModelCall(messages, mode, temperature), now))
      ensures pending.Some? ==> pending.value.startedAt == now
      ensures mode == old(mode) && temperature == old(temperature) && model == old(model)
    {
      if IsBlank(userInput) {
        return None;
      }
      var content := Trim(userInput);
      userInput := "";
      AddMessage(User, content);
      var p := SendToModel(now);
      pending := Some(p);
    }

    /**
     * Appends the input as a system entry, with the same validation as
     * `SendMessage`, and dispatches nothing.
     */
    method SendSystemPromptMessage()
      modifies this
      ensures IsBlank(old(userInput)) ==> messages == old(messages) && userInput == old(userInput)
      ensures !IsBlank(old(userInput)) ==>
        userInput == "" && messages == old(messages) + [Fresh(System, Trim(old(userInput)))]
      ensures isLoading == old(isLoading) && error == old(error)
      ensures mode == old(mode) && temperature == old(temperature) && model == old(model)
    {
      if IsBlank(userInput) {
        return;
      }
      var content := Trim(userInput);
      userInput := "";
      AddMessage(System, content);
    }

    /** Starts the guided book conversation from an empty transcript. */
    method SendBookFirstMessage(now: int) returns (pending: PendingReply)
      modifies this
      ensures messages == [Fresh(User, BookOpenerText)]
      ensures isLoading && error == None
      ensures pending == PendingReply(ModelCall(messages, mode, temperature), now)
      ensures userInput == old(userInput) && mode == old(mode) && temperature == old(temperature) && model == old(model)
    {
      ClearChat();
      AddMessage(User, BookOpenerText);
      pending := SendToModel(now);
    }

    /**
     * Empties the transcript and clears the error, whatever the state was;
     * the result does not depend on the old transcript or error, so clearing
     * twice is clearing once.
     */
    method ClearChat()
      modifies this
      ensures messages == [] && error == None
      ensures userInput == old(userInput) && isLoading == old(isLoading)
      ensures mode == old(mode) && temperature == old(temperature) && model == old(model)
    {
      messages := [];
      error := None;
    }

    /** Marks the controller busy, clears the error and dispatches the transcript. */
    method SendToModel(now: int) returns (pending: PendingReply)
      modifies this
      ensures isLoading && error == None
      ensures pending == PendingReply(ModelCall(messages, mode, temperature), now)
      ensures messages == old(messages) && userInput == old(userInput)
      ensures mode == old(mode) && temperature == old(temperature) && model == old(model)
    {
      isLoading := true;
      error := None;
      var timestampStart := now;
      pending := PendingReply(ModelCall(messages, mode, temperature), timestampStart);
    }

    /**
     * Reconciles the outcome of a send, `now` being the clock at completion.
     * A failure sets the error text and substitutes the apology for the
     * reply. Either way exactly one assistant entry is appended and then
     * patched with the usage and the elapsed time, earlier entries are kept,
     * and the controller ends idle.
     */
    method CompleteReply(pending: PendingReply, outcome: Outcome, now: int)
      modifies this
      ensures messages == old(messages) + [ReplyEntry(outcome, now - pending.startedAt)]
      ensures outcome.Success? ==> error == old(error)
      ensures outcome.Failure? ==> error == Some(ErrorText(outcome.errMessage, outcome.status))
      ensures !isLoading
      ensures userInput == old(userInput) && mode == old(mode) && temperature == old(temperature) && model == old(model)
    {
      var response: ChatResponse;
      match outcome {
        case Success(content, usage) =>
          response := ChatResponse([Choice(ResponseMessage(content))], usage);
        case Failure(errMessage, status) =>
          error := Some(ErrorText(errMessage, status));
          isLoading := false;
          response := ChatResponse([Choice(ResponseMessage(ApologyText))], None);
      }
      var aiContent := response.choices[0].message.content;
      var timeOfResponse := now - pending.startedAt;
      AddMessage(Assistant, aiContent);
      var last := messages[|messages| - 1];
      messages := messages[..|messages| - 1] + [last.(usage := response.usage, timeOfResponse := Some(timeOfResponse))];
      isLoading := false;
    }

    /**
     * Asks for a summary of the transcript. An empty transcript changes
     * nothing and sends nothing; otherwise the controller goes busy and
     * dispatches one user message quoting the dialogue, with no mode and
     * temperature 0.
     */
    method SummarizeChat() returns (call: Option<ModelCall>)
      modifies this
      ensures old(messages) == [] ==> call == None && isLoading == old(isLoading) && error == old(error)
      ensures old(messages) != [] ==>
        && isLoading && error == None
        && call == Some(ModelCall([Fresh(User, SummaryPrompt(messages))], NoMode, SummaryTemperature))
      ensures messages == old(messages) && userInput == old(userInput)
      ensures mode == old(mode) && temperature == old(temperature) && model == old(model)
    {
      if |messages| == 0 {
        return None;
      }
      isLoading := true;
      error := None;
      var dialogue := Dialogue(messages);
      var summaryPrompt := SummaryInstruction + dialogue;
      call := Some(ModelCall([Message(User, summaryPrompt, None, None)], NoMode, SummaryTemperature));
    }

    /**
     * Reconciles the outcome of a summary request. On success and on failure
     * alike the whole transcript becomes one system entry holding the tagged
     * summary; a failure substitutes the fallback summary and sets the
     * summary error. The controller ends idle.
     */
    method CompleteSummary(outcome: Outcome)
      modifies this
      ensures outcome.Success? ==> messages == [Fresh(System, SummaryTag + outcome.content)] && error == old(error)
      ensures outcome.Failure? ==>
        messages == [Fresh(System, SummaryTag + SummaryUnavailableText)] && error == Some(SummaryFailedErrorText)
      ensures !isLoading
      ensures userInput == old(userInput) && mode == old(mode) && temperature == old(temperature) && model == old(model)
    {
      var response: ChatResponse;
      match outcome {
        case Success(content, usage) =>
          response := ChatResponse([Choice(ResponseMessage(content))], usage);
        case Failure(_, _) =>
          error := Some(SummaryFailedErrorText);
          isLoading := false;
          response := ChatResponse([Choice(ResponseMessage(SummaryUnavailableText))], None);
      }
      var summary := response.choices[0].message.content;
      messages := [Message(System, SummaryTag + summary, None, None)];
      isLoading := false;
    }
  }

  /** Two appends in a row add both entries, in order, after the old contents. */
  lemma AppendTwice(before: seq<Message>, first: Message, middle: seq<Message>, second: Message, after: seq<Message>)
    requires middle == before + [first] && after == middle + [second]
    ensures after == before + [first, second] && |after| == |before| + 2
  {
  }

  /**
   * A send of non-blank input followed by its completion grows the
   * transcript by exactly two entries, a user turn and then an assistant
   * turn, and keeps every earlier entry. The error is cleared by the send and
   * set again only by a failed reply; the other settings are untouched.
   */
  method SendAndReply(chat: Chat, outcome: Outcome, sentAt: int, repliedAt: int)
    requires !IsBlank(chat.userInput)
    modifies chat
    ensures |chat.messages| == |old(chat.messages)| + 2
    ensures chat.messages == old(chat.messages)
      + [Fresh(User, Trim(old(chat.userInput))), ReplyEntry(outcome, repliedAt - sentAt)]
    ensures !chat.isLoading && chat.userInput == ""
    ensures chat.error == if outcome.Success? then None else Some(ErrorText(outcome.errMessage, outcome.status))
    ensures chat.mode == old(chat.mode) && chat.temperature == old(chat.temperature) && chat.model == old(chat.model)
  {
    ghost var before := chat.messages;
    ghost var user := Fresh(User, Trim(chat.userInput));
    var pending := chat.SendMessage(sentAt);
    ghost var middle := chat.messages;
    ghost var reply := ReplyEntry(outcome, repliedAt - sentAt);
    chat.CompleteReply(pending.value, outcome, repliedAt);
    AppendTwice(before, user, middle, reply, chat.messages);
  }
}
