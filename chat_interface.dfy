/**
 * The chat transcript of the client: loading the stored history once, clearing it, and sending a
 * prompt to `/api/chat`, which appends one user message and then one AI message (the reply or an
 * error) and keeps the composer locked while the request is in flight.
 */
module ChatInterface {
  import opened Wire
  import opened JsStrings

  datatype Sender = User | Ai

  /** A transcript entry; the `Date.now()` id is not modelled. */
  datatype Message = Message(sender: Sender, text: string)

  /** What `JSON.parse` makes of the stored history. */
  datatype HistoryParse = ParsedArray(items: seq<Message>) | ParsedOther | ParseFailed

  /** How the send's `fetch` call ends. */
  datatype ChatFetch =
    | ChatFetchFailed(message: string)       // the request was not answered
    | ChatHttp(status: nat, body: ChatJson)  // an answer, whose body `response.json()` decodes or not

  /** A decoded body with its optional `error` and `response` strings, or the decoder's error message. */
  datatype ChatJson = ChatObject(error: Option<string>, response: Option<string>) | ChatNotJson(message: string)

  const ErrorPrefix := "\U{26A0}\U{FE0F} Error: "
  const NoResponseText := "No response text."

  /** The message of the error a non-OK answer throws: the body's `error`, or `HTTP <status>` when the body does not decode. */
  function HttpErrorMessage(status: nat, body: ChatJson): (m: string)
    ensures body.ChatNotJson? ==> m == "HTTP " + Decimal(status)
    ensures body.ChatObject? && body.error.Some? ==> m == body.error.value
    ensures body.ChatObject? && body.error.None? ==> m == ""
  {
    match body
    case ChatNotJson(_) => "HTTP " + Decimal(status)
    case ChatObject(error, _) => if error.Some? then error.value else ""
  }

  /**
   * The text of the one AI message a finished send appends: the reply when it is truthy,
   * `No response text.` for a falsy reply, and the error prefix followed by the thrown message otherwise.
   */
  function ReplyText(f: ChatFetch): (t: string)
    ensures f.ChatHttp? && IsOk(f.status) && f.body.ChatObject? ==>
              t == if Truthy(f.body.response) then f.body.response.value else NoResponseText
    ensures f.ChatFetchFailed? ==> t == ErrorPrefix + f.message
    ensures f.ChatHttp? && !IsOk(f.status) ==> t == ErrorPrefix + HttpErrorMessage(f.status, f.body)
    ensures f.ChatHttp? && IsOk(f.status) && f.body.ChatNotJson? ==> t == ErrorPrefix + f.body.message
    ensures t != ""
  {
    match f
    case ChatFetchFailed(message) => ErrorPrefix + message
    case ChatHttp(status, body) =>
      if !IsOk(status) then ErrorPrefix + HttpErrorMessage(status, body)
      else
        match body
        case ChatNotJson(message) => ErrorPrefix + message
        case ChatObject(_, response) => if Truthy(response) then response.value else NoResponseText
  }

  /** `isLoading || !input.trim()`: the Send button's `disabled`. */
  predicate SendDisabled(input: string, isLoading: bool) {
    isLoading || Trim(input) == ""
  }

  /** The transcript state of the chat page, with the stored history entry. */
  class ChatSession {
    var messages: seq<Message>
    var input: string
    var isLoading: bool
    /** `localStorage["dotminiAiLabChatHistory"]`. */
    var stored: Option<string>

    constructor (stored: Option<string>)
      ensures messages == [] && input == "" && !isLoading && this.stored == stored
    {
      messages := [];
      input := "";
      isLoading := false;
      this.stored := stored;
    }

    /**
     * The mount effect: a non-empty stored entry replaces the messages when it parses to an array,
     * and is removed when it parses to anything else or fails to parse.
     */
    method LoadHistory(parse: string -> HistoryParse)
      modifies this
      ensures input == old(input) && isLoading == old(isLoading)
      ensures !Truthy(old(stored)) ==> messages == old(messages) && stored == old(stored)
      ensures Truthy(old(stored)) && parse(old(stored).value).ParsedArray? ==>
                messages == parse(old(stored).value).items && stored == old(stored)
      ensures Truthy(old(stored)) && !parse(old(stored).value).ParsedArray? ==>
                messages == old(messages) && stored.None?
    {
      if Truthy(stored) {
        var parsed := parse(stored.value);
        if parsed.ParsedArray? {
          messages := parsed.items;
        } else {
          stored := None;
        }
      }
    }

    /** The textarea's change handler. */
    method InputChanged(text: string)
      modifies this
      ensures input == text && messages == old(messages) && isLoading == old(isLoading) && stored == old(stored)
    {
      input := text;
    }

    /** The clear button: after a confirmed prompt the transcript and the stored entry are gone; otherwise nothing changes. */
    method ClearChat(confirmed: bool)
      modifies this
      ensures confirmed ==> messages == [] && stored.None?
      ensures !confirmed ==> messages == old(messages) && stored == old(stored)
      ensures input == old(input) && isLoading == old(isLoading)
    {
      if confirmed {
        messages := [];
        stored := None;
      }
    }

    /**
     * The synchronous start of `handleSend`: a no-op exactly when the Send button is disabled;
     * otherwise the trimmed input is appended as one user message and posted, the input cleared,
     * and loading set.
     */
    method BeginSend() returns (prompt: Option<string>)
      modifies this
      ensures prompt.None? <==> SendDisabled(old(input), old(isLoading))
      ensures prompt.None? ==> unchanged(this)
      ensures prompt.Some? ==>
                prompt.value == Trim(old(input)) && prompt.value != ""
                && messages == old(messages) + [Message(User, prompt.value)]
                && input == "" && isLoading && stored == old(stored)
    {
      var text := Trim(input);
      if text == "" || isLoading {
        return None;
      }
      messages := messages + [Message(User, text)];
      input := "";
      isLoading := true;
      prompt := Some(text);
    }

    /** The rest of `handleSend` once the request settles: one AI message, then loading cleared. */
    method FinishSend(f: ChatFetch)
      modifies this
      ensures messages == old(messages) + [Message(Ai, ReplyText(f))]
      ensures !isLoading && input == old(input) && stored == old(stored)
    {
      var text: string;
      match f {
        case ChatFetchFailed(message) =>
          text := ErrorPrefix + message;
        case ChatHttp(status, body) =>
          if !IsOk(status) {
            var err := HttpErrorMessage(status, body);
            text := ErrorPrefix + err;
          } else {
            match body {
              case ChatNotJson(message) =>
                text := ErrorPrefix + message;
              case ChatObject(_, response) =>
                text := if Truthy(response) then response.value else NoResponseText;
            }
          }
      }
      messages := messages + [Message(Ai, text)];
      isLoading := false;
    }

    /** A whole send, with `respond` standing for the network and the server. */
    method Send(respond: string -> ChatFetch) returns (prompt: Option<string>)
      modifies this
      ensures prompt.None? <==> SendDisabled(old(input), old(isLoading))
      ensures prompt.None? ==> unchanged(this)
      ensures prompt.Some? ==>
                prompt.value == Trim(old(input))
                && messages == old(messages) + [Message(User, prompt.value), Message(Ai, ReplyText(respond(prompt.value)))]
                && input == "" && !isLoading && stored == old(stored)
    {
      prompt := BeginSend();
      if prompt.Some? {
        FinishSend(respond(prompt.value));
      }
    }
  }
}
