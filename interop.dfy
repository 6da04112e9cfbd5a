/**
 * Facts that span the client and the server: what the client does with each reply the server can
 * send, and where the two sides disagree about which languages can run.
 */
module Interop {
  import opened Wire
  import opened JsStrings
  import opened ChatHandler
  import opened ExecuteHandler
  import opened ChatMessage
  import opened ChatInterface

  /** A `/api/execute` reply as the client's `fetch` receives it. */
  function DeliverExec(r: ExecReply): ExecFetch {
    ExecHttp(r.status, ExecObject(r.body))
  }

  /** A `/api/chat` reply as the client's `fetch` receives it. */
  function DeliverChat(r: ChatReply): ChatFetch {
    match r.body
    case ErrorBody(error) => ChatHttp(r.status, ChatObject(Some(error), None))
    case ResponseBody(response) => ChatHttp(r.status, ChatObject(None, Some(response)))
  }

  /** What the server posts back for a run the client starts. */
  function ServerRun(request: ExecRequest): ExecReply {
    ExecuteReply(Text(request.code), Text(request.language)).reply
  }

  /**
   * Every reply of `/api/execute` reaches the output pane intact: a 200 reply is shown as sent,
   * and a 400 reply becomes a frontend error carrying the server's own message.
   */
  lemma ExecRepliesReachPane(request: ExecRequest)
    ensures var r := ServerRun(request);
      ExecResultOf(DeliverExec(r)) == if r.status == 200 then r.body else FrontendError(r.body.error.value)
  {
    var r := ServerRun(request);
    if r.status != 200 {
      assert r.body.error.value != "";
    }
  }

  /**
   * The client lets `py` and any casing of `python` through its guard and forwards the string
   * unchanged, but the server accepts only `python` exactly: such a run always ends in the
   * server's "not supported" error (or the missing-code error for an empty block).
   */
  lemma PythonVariantsRejectedByServer(code: string, language: string)
    requires PassesRunGuard(language) && language != SupportedLanguage
    ensures var shown := ExecResultOf(DeliverExec(ServerRun(ExecRequest(code, language))));
      shown == FrontendError(if code == "" then MissingCodeMessage else UnsupportedMessage(language))
  {
    ExecRepliesReachPane(ExecRequest(code, language));
  }

  /** `py` and `Python` are such languages: their blocks show a run button that the server refuses. */
  lemma PyAndCapitalizedPythonAreRejected()
    ensures ShowsRunButton(Some("py")) && PassesRunGuard(TargetLanguage(Some("py"))) && "py" != SupportedLanguage
    ensures ShowsRunButton(Some("Python")) && PassesRunGuard(TargetLanguage(Some("Python"))) && "Python" != SupportedLanguage
  {
    assert ToLower("py") == "py" by {
      assert ToLower("py")[0] == 'p' && ToLower("py")[1] == 'y';
    }
    assert ToLower("Python") == "python" by {
      var l := ToLower("Python");
      assert l[0] == 'p' && l[1] == 'y' && l[2] == 't' && l[3] == 'h' && l[4] == 'o' && l[5] == 'n';
    }
  }

  /** A block without a fence language runs as `python`, which the server accepts. */
  lemma MissingLanguageRunsOnServer(code: string)
    requires code != "" && |code| <= MaxCodeLength
    ensures ServerRun(ExecRequest(code, TargetLanguage(None))).status == 200
  {
  }

  /** A prompt the client sends is never one the server rejects as empty. */
  lemma ClientPromptPassesServerGuard(input: string)
    requires !SendDisabled(input, false)
    ensures AcceptedPrompt(Text(Trim(input)))
  {
    TrimIdempotent(input);
  }

  /** The error text of a chat outcome that is not a success. */
  function ChatErrorText(o: ChatOutcome): string
    requires !o.Success?
  {
    Reply(o).body.error
  }

  /**
   * Every chat outcome becomes one AI message: the text for a non-empty success,
   * `No response text.` for an empty one, and the server's error message otherwise.
   */
  lemma ChatOutcomeShown(o: ChatOutcome)
    ensures ReplyText(DeliverChat(Reply(o))) ==
      if o.Success? then (if o.text != "" then o.text else NoResponseText)
      else ErrorPrefix + ChatErrorText(o)
  {
  }

  /** An empty reply from the provider is a success on the server and a placeholder on the client. */
  lemma EmptyTextShownAsPlaceholder(prompt: string, g: Generation)
    requires AcceptedPrompt(Text(prompt)) && g.text == Some("")
    requires !Truthy(g.blockReason) && !AbnormalFinish(g.finishReason)
    ensures HandleChat(Text(prompt), _ => Returned(g)) == ChatReply(200, ResponseBody(""))
    ensures ReplyText(DeliverChat(HandleChat(Text(prompt), _ => Returned(g)))) == NoResponseText
  {
    HandleChatReturned(Text(prompt), _ => Returned(g), g);
  }
}
