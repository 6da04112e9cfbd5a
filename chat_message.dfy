/**
 * The code-block logic of one rendered chat message: the fence language taken from the class name,
 * the code text, which blocks offer a run button, the run itself against `/api/execute`, and the
 * text of the output pane. The run state (`executing`, `execResult`, `showOutput`) belongs to the
 * message and is shared by all its code blocks.
 */
module ChatMessage {
  import opened Wire
  import opened JsStrings

  /** The JSON body the run posts: `{code, language}`. */
  datatype ExecRequest = ExecRequest(code: string, language: string)

  /** How the run's `fetch` call ends. */
  datatype ExecFetch =
    | ExecFetchFailed(message: string)         // the request was not answered
    | ExecHttp(status: nat, body: ExecJson)    // an answer, whose body `response.json()` decodes or not

  datatype ExecJson = ExecObject(result: ExecBody) | ExecNotJson(message: string)

  const DefaultLanguage := "python"
  const LanguageTag := "language-"
  const FrontendErrorPrefix := "Frontend Error: "
  const NoOutput := "[No Output]"
  const StdoutHeader := "[stdout]:\n"
  const StderrHeader := "[stderr]:\n"
  const ErrorHeader := "[Execution Error]:\n"
  const RunningText := "Running..."
  /**
   * The idle hint without the play icon. JSX keeps the space on each side of the icon, so the
   * text has two spaces between "Run" and "to", where the page draws the icon.
   */
  const IdleText := "Click Run  to execute (simulated)."

  /** `language || "python"`: the language a run uses. */
  function TargetLanguage(language: Option<string>): (t: string)
    ensures !Truthy(language) ==> t == DefaultLanguage
    ensures Truthy(language) ==> t == language.value
  {
    if Truthy(language) then language.value else DefaultLanguage
  }

  /** The guard of `handleRunCode`: python or py in any ASCII casing. */
  predicate PassesRunGuard(target: string) {
    ToLower(target) == "python" || ToLower(target) == "py"
  }

  /** `isPython`: the condition under which a code block shows its run button and its output pane. */
  predicate ShowsRunButton(language: Option<string>) {
    !Truthy(language) || ToLower(language.value) == "python" || ToLower(language.value) == "py"
  }

  /** Every run button that is shown leads to a run that passes the guard, and no other block's does. */
  lemma RunButtonMatchesGuard(language: Option<string>)
    ensures ShowsRunButton(language) <==> PassesRunGuard(TargetLanguage(language))
  {
    if !Truthy(language) {
      assert ToLower(DefaultLanguage) == "python";
    }
  }

  /** `language-` followed by a word character starts at `i`. */
  predicate TagAt(s: string, i: int) {
    OccursAt(s, LanguageTag, i) && i + |LanguageTag| < |s| && IsWordChar(s[i + |LanguageTag|])
  }

  /** Where the leftmost match of `/language-(\w+)/` at or after `i` starts, if there is one. */
  function FirstTag(s: string, i: nat): (k: Option<nat>)
    requires i <= |s|
    ensures k.None? <==> forall j :: i <= j < |s| ==> !TagAt(s, j)
    ensures k.Some? ==> i <= k.value < |s| && TagAt(s, k.value) && forall j :: i <= j < k.value ==> !TagAt(s, j)
    decreases |s| - i
  {
    if i == |s| then None
    else if TagAt(s, i) then Some(i)
    else FirstTag(s, i + 1)
  }

  /** `w` is the whole `\w+` run that follows the tag at `k`. */
  ghost predicate CaptureAt(s: string, k: int, w: string) {
    TagAt(s, k) && OccursAt(s, w, k + |LanguageTag|) && w != ""
    && (forall j :: 0 <= j < |w| ==> IsWordChar(w[j]))
    && (k + |LanguageTag| + |w| == |s| || !IsWordChar(s[k + |LanguageTag| + |w|]))
  }

  /** The tag at `k` is the leftmost one. */
  ghost predicate LeftmostTag(s: string, k: int) {
    0 <= k < |s| && TagAt(s, k) && forall j :: 0 <= j < k ==> !TagAt(s, j)
  }

  /** `className || ""`. */
  function ClassText(className: Option<string>): string {
    if className.Some? then className.value else ""
  }

  /**
   * `/language-(\w+)/.exec(className || "")?.[1]`: the greedy word run after the leftmost
   * `language-` that a word character follows, or nothing.
   */
  function FenceLanguage(className: Option<string>): (r: Option<string>)
    ensures r.None? <==> forall k :: 0 <= k < |ClassText(className)| ==> !TagAt(ClassText(className), k)
    ensures r.Some? ==> exists k :: LeftmostTag(ClassText(className), k) && CaptureAt(ClassText(className), k, r.value)
  {
    var s := ClassText(className);
    match FirstTag(s, 0)
    case None => None
    case Some(k) =>
      var w := WordRun(s, k + |LanguageTag|);
      assert IsWordChar(s[k + |LanguageTag|]);
      assert LeftmostTag(s, k) && CaptureAt(s, k, w);
      Some(w)
  }

  /** `String(children).replace(/\n$/, "")`: at most one final newline removed. */
  function CodeString(children: string): (r: string)
    ensures children == r + "\n" || (children == r && (r == [] || r[|r| - 1] != '\n'))
  {
    if children != [] && children[|children| - 1] == '\n' then children[..|children| - 1] else children
  }

  /** One stream of the output pane: its header and text, only when the text is truthy. */
  function Section(text: Option<string>, header: string, trailer: string): string {
    if Truthy(text) then header + text.value + trailer else ""
  }

  /** The `<pre>` text of a finished run: stdout, stderr and error in that order, each if truthy. */
  function OutputText(r: ExecBody): (t: string)
    ensures t == NoOutput <==> !Truthy(r.stdout) && !Truthy(r.stderr) && !Truthy(r.error)
    ensures Truthy(r.stdout) ==> StartsWith(t, StdoutHeader + r.stdout.value + "\n")
    ensures !Truthy(r.stdout) && Truthy(r.stderr) ==> StartsWith(t, StderrHeader + r.stderr.value + "\n")
    ensures !Truthy(r.stdout) && !Truthy(r.stderr) && Truthy(r.error) ==> t == ErrorHeader + r.error.value
    ensures Truthy(r.stderr) ==> OccursAt(t, StderrHeader + r.stderr.value + "\n", |Section(r.stdout, StdoutHeader, "\n")|)
    ensures t != NoOutput ==>
              |t| == |Section(r.stdout, StdoutHeader, "\n")| + |Section(r.stderr, StderrHeader, "\n")|
                     + |Section(r.error, ErrorHeader, "")|
  {
    var out := Section(r.stdout, StdoutHeader, "\n");
    var err := Section(r.stderr, StderrHeader, "\n");
    var exc := Section(r.error, ErrorHeader, "");
    var none := if !Truthy(r.stdout) && !Truthy(r.stderr) && !Truthy(r.error) then NoOutput else "";
    var t := out + (err + (exc + none));
    OutputParts(out, err, exc, none);
    if Truthy(r.stdout) then
      assert t[1] == out[1];
      t
    else if Truthy(r.stderr) then
      assert t[1] == err[1];
      t
    else if Truthy(r.error) then
      assert t == exc;
      t
    else
      assert t == NoOutput;
      t
  }

  /** The error section, when there is one, always closes the pane text. */
  lemma OutputEndsWithError(r: ExecBody)
    requires Truthy(r.error)
    ensures EndsWith(OutputText(r), ErrorHeader + r.error.value)
  {
    var out := Section(r.stdout, StdoutHeader, "\n");
    var err := Section(r.stderr, StderrHeader, "\n");
    var exc := ErrorHeader + r.error.value;
    assert exc + "" == exc;
    assert OutputText(r) == out + (err + (exc + ""));
    OutputParts(out, err, exc, "");
  }

  /** The pane text starts with its first part, and ends with the error part when no placeholder follows. */
  lemma OutputParts(out: string, err: string, exc: string, none: string)
    ensures StartsWith(out + (err + (exc + none)), out)
    ensures out == [] ==> StartsWith(out + (err + (exc + none)), err)
    ensures none == [] ==> EndsWith(out + (err + (exc + none)), exc)
    ensures OccursAt(out + (err + (exc + none)), err, |out|)
  {
    assert (out + (err + (exc + none)))[|out|..|out| + |err|] == err;
    ConcatStartsWith(out, err + (exc + none));
    ConcatStartsWith(err, exc + none);
    if out == [] {
      assert out + (err + (exc + none)) == err + (exc + none);
    }
    if none == [] {
      assert out + (err + (exc + none)) == (out + err) + exc;
      ConcatEndsWith(out + err, exc);
    }
  }

  /** What the output area shows: a running run, no run yet, or the composed output. */
  function PaneText(executing: bool, result: Option<ExecBody>): (t: string)
    ensures t == RunningText <==> executing
    ensures !executing && result.None? ==> t == IdleText
    ensures !executing && result.Some? ==> t == OutputText(result.value)
  {
    if executing then RunningText
    else if result.None? then IdleText
    else OutputText(result.value)
  }

  /** A failed run as the client records it. */
  function FrontendError(message: string): ExecBody {
    ExecBody(None, None, Some(FrontendErrorPrefix + message))
  }

  /**
   * The result a finished request leaves: the server's object when the status is OK; otherwise a
   * frontend error holding the server's `error`, or `Exec request failed: <status>` when that is
   * falsy, or the message of the failed fetch or of the undecodable body.
   */
  function ExecResultOf(f: ExecFetch): (r: ExecBody)
    ensures f.ExecHttp? && IsOk(f.status) && f.body.ExecObject? ==> r == f.body.result
    ensures !(f.ExecHttp? && IsOk(f.status) && f.body.ExecObject?) ==>
              r.stdout.None? && r.stderr.None? && r.error.Some? && StartsWith(r.error.value, FrontendErrorPrefix)
    ensures f.ExecHttp? && !IsOk(f.status) && f.body.ExecObject? ==>
              r == FrontendError(if Truthy(f.body.result.error) then f.body.result.error.value
                                 else "Exec request failed: " + Decimal(f.status))
    ensures f.ExecFetchFailed? ==> r == FrontendError(f.message)
    ensures f.ExecHttp? && f.body.ExecNotJson? ==> r == FrontendError(f.body.message)
  {
    match f
    case ExecFetchFailed(message) => FrontendError(message)
    case ExecHttp(status, ExecNotJson(message)) => FrontendError(message)
    case ExecHttp(status, ExecObject(result)) =>
      if IsOk(status) then result
      else FrontendError(if Truthy(result.error) then result.error.value else "Exec request failed: " + Decimal(status))
  }

  /** The run state of one message. */
  class MessageState {
    var executing: bool
    var showOutput: bool
    var execResult: Option<ExecBody>

    constructor ()
      ensures !executing && !showOutput && execResult.None?
      ensures forall l :: Pane(l).None?
    {
      executing := false;
      showOutput := false;
      execResult := None;
    }

    /** The text of the output pane under a code block of this message, if the pane is shown. */
    function Pane(language: Option<string>): (t: Option<string>)
      reads this
      ensures t.Some? <==> ShowsRunButton(language) && showOutput
      ensures t.Some? ==> t.value == PaneText(executing, execResult)
    {
      if ShowsRunButton(language) && showOutput then Some(PaneText(executing, execResult)) else None
    }

    /**
     * The synchronous start of `handleRunCode`: a language that fails the guard changes nothing and
     * sends nothing; otherwise the previous result is cleared, the pane opened, and the code posted
     * with the target language exactly as written.
     */
    method BeginRun(code: string, language: Option<string>) returns (request: Option<ExecRequest>)
      modifies this
      ensures request.None? <==> !PassesRunGuard(TargetLanguage(language))
      ensures request.None? ==> unchanged(this)
      ensures request.Some? ==>
                request.value == ExecRequest(code, TargetLanguage(language))
                && executing && showOutput && execResult.None?
                && forall l :: ShowsRunButton(l) ==> Pane(l) == Some(RunningText)
    {
      var target := TargetLanguage(language);
      if ToLower(target) != "python" && ToLower(target) != "py" {
        return None;
      }
      executing := true;
      execResult := None;
      showOutput := true;
      request := Some(ExecRequest(code, target));
    }

    /** The rest of `handleRunCode` once the request settles, with the `finally` reset. */
    method CompleteRun(f: ExecFetch)
      modifies this
      ensures execResult == Some(ExecResultOf(f))
      ensures !executing
      ensures showOutput == old(showOutput)
      ensures showOutput ==> forall l :: ShowsRunButton(l) ==> Pane(l) == Some(OutputText(ExecResultOf(f)))
    {
      match f {
        case ExecFetchFailed(message) =>
          execResult := Some(FrontendError(message));
        case ExecHttp(status, body) =>
          match body {
            case ExecNotJson(message) =>
              execResult := Some(FrontendError(message));
            case ExecObject(data) =>
              if !IsOk(status) {
                var message := if Truthy(data.error) then data.error.value else "Exec request failed: " + Decimal(status);
                execResult := Some(FrontendError(message));
              } else {
                execResult := Some(data);
              }
          }
      }
      executing := false;
    }

    /** A whole run, with `respond` standing for the network and the server. */
    method RunCode(code: string, language: Option<string>, respond: ExecRequest -> ExecFetch)
      returns (request: Option<ExecRequest>)
      modifies this
      ensures request.None? <==> !PassesRunGuard(TargetLanguage(language))
      ensures request.None? ==> unchanged(this)
      ensures request.Some? ==>
                request.value == ExecRequest(code, TargetLanguage(language))
                && !executing && showOutput && execResult == Some(ExecResultOf(respond(request.value)))
                && forall l :: ShowsRunButton(l) ==> Pane(l) == Some(OutputText(ExecResultOf(respond(request.value))))
    {
      request := BeginRun(code, language);
      if request.Some? {
        CompleteRun(respond(request.value));
      }
    }

    /** The close button of the output pane. */
    method CloseOutput()
      modifies this
      ensures !showOutput && executing == old(executing) && execResult == old(execResult)
      ensures forall l :: Pane(l).None?
    {
      showOutput := false;
    }
  }
}
