/**
 * The chat component `ChatInterface`: a message log mirrored to local
 * storage, an input buffer, loading and retrieving flags, a retrieval toggle
 * and a mode selector. The HTTP call to the relay is an abstract outcome.
 */
module ChatUi {
  import opened Options
  import opened JsString

  const BasicMode := "basic"
  const AgentMode := "agent"
  const EnterKey := "Enter"
  const CouldNotProcess := "Sorry, I couldn't process your request. Please try again."

  /** An entry of the log: `{role: "user", content}` or `{role: "assistant", content, sources}`. */
  datatype ChatMessage = User(content: string) | Assistant(content: string, sources: seq<string>)

  /** The JSON body of one `POST /chat`. */
  datatype ChatRequest = ChatRequest(message: string, useRag: bool, mode: string)

  /** The parsed response body `{reply, sources?}`. */
  datatype Payload = Payload(reply: string, sources: Option<seq<string>>)

  /** What `fetch` yields: a response with its status and parsed body (`None` if `res.json()` throws), or a thrown error. */
  datatype ApiOutcome = Response(status: int, data: Option<Payload>) | NetworkError

  /** The `{reply, sources}` that `_apiCall` resolves to. */
  datatype ApiAnswer = ApiAnswer(reply: string, sources: seq<string>)

  /** `res.ok`: a status in the range 200 to 299. */
  predicate IsOk(status: int) {
    200 <= status <= 299
  }

  /** The answer `_apiCall` settles on for an outcome of the request. */
  function AnswerFor(outcome: ApiOutcome): ApiAnswer {
    match outcome
    case NetworkError => ApiAnswer(CouldNotProcess, [])
    case Response(status, data) =>
      if !IsOk(status) || data.None? then ApiAnswer(CouldNotProcess, [])
      else ApiAnswer(data.value.reply, data.value.sources.GetOr([]))
  }

  /** A failed call or a non-ok status yields the apology with no sources. */
  lemma FailureYieldsApology(outcome: ApiOutcome)
    requires outcome.NetworkError? || !IsOk(outcome.status) || outcome.data.None?
    ensures AnswerFor(outcome) == ApiAnswer(CouldNotProcess, [])
  {
  }

  /** An ok response passes its reply through, and a missing `sources` becomes `[]`. */
  lemma OkResponsePassesThrough(status: int, reply: string, sources: Option<seq<string>>)
    requires IsOk(status)
    ensures AnswerFor(Response(status, Some(Payload(reply, sources)))).reply == reply
    ensures AnswerFor(Response(status, Some(Payload(reply, sources)))).sources == if sources.Some? then sources.value else []
  {
  }

  class ChatInterface {
    var messages: seq<ChatMessage>
    var inputMessage: string
    var isLoading: bool
    var isRetrieving: bool
    var ragEnabled: bool
    var chatMode: string
    /** The log as kept in local storage by `loadMessages`/`saveMessages`/`clearMessages`. */
    var store: seq<ChatMessage>
    /** The request bodies posted to the relay, oldest first. */
    ghost var requests: seq<ChatRequest>

    /** Local storage holds the displayed log. */
    ghost predicate Synced()
      reads this
    {
      store == messages
    }

    /** `saved` is what local storage holds when the element is created. */
    constructor (saved: seq<ChatMessage>)
      ensures messages == [] && inputMessage == "" && !isLoading && !isRetrieving
      ensures ragEnabled && chatMode == BasicMode
      ensures store == saved && requests == []
    {
      messages := [];
      inputMessage := "";
      isLoading := false;
      isRetrieving := false;
      ragEnabled := true;
      chatMode := BasicMode;
      store := saved;
      requests := [];
    }

    /** `updated`: a change to `messages` writes the whole log to local storage. */
    method Updated(messagesChanged: bool)
      modifies this`store
      ensures store == if messagesChanged then messages else old(store)
    {
      if messagesChanged {
        store := messages;
      }
    }

    /** `connectedCallback`: the log is restored from local storage. */
    method ConnectedCallback()
      modifies this`messages, this`store
      ensures messages == old(store) && Synced()
    {
      messages := store;
      Updated(true);
    }

    /** `_handleModeChange` for a selection of `newMode`. */
    method HandleModeChange(newMode: string)
      modifies this`chatMode, this`ragEnabled, this`messages, this`store
      ensures newMode == old(chatMode) ==>
        chatMode == old(chatMode) && ragEnabled == old(ragEnabled)
        && messages == old(messages) && store == old(store)
      ensures newMode != old(chatMode) ==>
        chatMode == newMode && messages == [] && Synced()
        && ragEnabled == (if newMode == AgentMode then false else old(ragEnabled))
    {
      if newMode != chatMode {
        chatMode := newMode;
        if newMode == AgentMode {
          ragEnabled := false;
        }
        store := [];
        messages := [];
        Updated(true);
      }
    }

    /** `_toggleRag` with the checkbox state `checked`. */
    method ToggleRag(checked: bool)
      modifies this`ragEnabled
      ensures ragEnabled == checked
    {
      ragEnabled := checked;
    }

    /** `_clearCache`: empties the log and local storage. */
    method ClearCache()
      modifies this`messages, this`store
      ensures messages == [] && Synced()
    {
      store := [];
      messages := [];
      Updated(true);
    }

    /** `_handleInput` with the input box's value. */
    method HandleInput(value: string)
      modifies this`inputMessage
      ensures inputMessage == value
    {
      inputMessage := value;
    }

    /** `_apiCall`: posts `message` and settles on the answer for `outcome`. */
    method ApiCall(message: string, outcome: ApiOutcome) returns (answer: ApiAnswer)
      modifies this`isRetrieving, this`requests
      ensures answer == AnswerFor(outcome) && !isRetrieving
      ensures requests == old(requests) + [ChatRequest(message, ragEnabled, chatMode)]
    {
      isRetrieving := ragEnabled;
      requests := requests + [ChatRequest(message, ragEnabled, chatMode)];
      answer := AnswerFor(outcome);
      isRetrieving := false;
    }

    /** `_sendMessage`; `outcome` is how the request to the relay turns out. */
    method SendMessage(outcome: ApiOutcome)
      modifies this`messages, this`store, this`inputMessage, this`isLoading, this`isRetrieving, this`requests
      ensures !HasText(old(inputMessage)) || old(isLoading) ==>
        && messages == old(messages) && store == old(store) && inputMessage == old(inputMessage)
        && isLoading == old(isLoading) && isRetrieving == old(isRetrieving) && requests == old(requests)
      ensures HasText(old(inputMessage)) && !old(isLoading) ==>
        var answer := AnswerFor(outcome);
        && messages == old(messages) + [User(old(inputMessage)), Assistant(answer.reply, answer.sources)]
        && Synced() && inputMessage == "" && !isLoading && !isRetrieving
        && requests == old(requests) + [ChatRequest(old(inputMessage), ragEnabled, chatMode)]
    {
      if !HasText(inputMessage) || isLoading {
        return;
      }
      messages := messages + [User(inputMessage)];
      Updated(true);
      var userQuery := inputMessage;
      inputMessage := "";
      isLoading := true;
      var answer := ApiCall(userQuery, outcome);
      messages := messages + [Assistant(answer.reply, answer.sources)];
      Updated(true);
      isLoading := false;
    }

    /** `_handleKeyUp` for a key `key` released while the box holds `value`. */
    method HandleKeyUp(value: string, key: string, outcome: ApiOutcome)
      modifies this`messages, this`store, this`inputMessage, this`isLoading, this`isRetrieving, this`requests
      ensures !(HasText(value) && key == EnterKey && !old(isLoading) && HasText(old(inputMessage))) ==>
        && messages == old(messages) && store == old(store) && inputMessage == old(inputMessage)
        && isLoading == old(isLoading) && isRetrieving == old(isRetrieving) && requests == old(requests)
      ensures HasText(value) && key == EnterKey && !old(isLoading) && HasText(old(inputMessage)) ==>
        var answer := AnswerFor(outcome);
        && messages == old(messages) + [User(old(inputMessage)), Assistant(answer.reply, answer.sources)]
        && Synced() && inputMessage == "" && !isLoading && !isRetrieving
        && requests == old(requests) + [ChatRequest(old(inputMessage), ragEnabled, chatMode)]
    {
      if HasText(value) && key == EnterKey && !isLoading {
        SendMessage(outcome);
      }
    }
  }
}
