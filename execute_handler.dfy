/**
 * The `/api/execute` handler: two input guards, then a simulated Python run that picks a canned
 * `{stdout, stderr, error}` by pattern matching on the code. The specification is an ordered rule
 * list in which the length rule comes first; the handler itself runs the source's cascade over
 * three mutable locals and applies the length check last, overriding what the cascade produced.
 */
module ExecuteHandler {
  import opened Wire
  import opened JsStrings

  datatype ExecReply = ExecReply(status: nat, body: ExecBody)

  /**
   * How one call of the handler ends: the reply it sends, or the TypeError that the request log
   * line throws, outside the `try`, before any reply is sent.
   */
  datatype ExecOutcome = Replied(reply: ExecReply) | ThrewBeforeReply

  const SupportedLanguage := "python"
  const MaxCodeLength := 1000
  const EchoLength := 50

  const MissingCodeMessage := "Missing or invalid 'code' field."
  const TooLongMessage := "Simulated Execution Error: Code too long."
  const ErrorNotice := "Simulated stderr: Code might raise an error."
  const ImportNote := "\n(Simulated import detected)"
  const HelloWorldSource := "print('hello world')"
  const HelloWorldOutput := "hello world"
  const NoCodeOutput := "(No code to execute)"

  /** The not-supported message, quoting the language as `${language}` printed it. */
  function UnsupportedMessage(shown: string): string {
    "Language '" + shown + "' not supported for execution (Simulation only supports Python)."
  }

  /** `code.substring(0, 50)`. */
  function EchoPrefix(code: string): (p: string)
    ensures |p| == if |code| < EchoLength then |code| else EchoLength
    ensures StartsWith(code, p)
  {
    if |code| < EchoLength then code else code[..EchoLength]
  }

  /** The canned stdout that quotes the start of the code. */
  function DefaultStdout(code: string): string {
    "Simulated output for code starting with:\n\"" + EchoPrefix(code) + "...\"\n(Actual execution disabled for security)"
  }

  /** A client error: both output streams null and the message in `error`. */
  function Reject(message: string): ExecReply {
    ExecReply(400, ExecBody(None, None, Some(message)))
  }

  /** The code guard: `!code || typeof code !== "string"` rejects it. */
  predicate AcceptedCode(code: Field) {
    code.Text? && code.s != ""
  }

  /** `code.trim().toLowerCase() === "print('hello world')"`. */
  predicate SaysHelloWorld(code: string) {
    ToLower(Trim(code)) == HelloWorldSource
  }

  /** Which of the simulation's five tests a code passes, each read once from the code. */
  datatype Traits = Traits(tooLong: bool, raises: bool, imports: bool, hello: bool, blank: bool)

  /** The tests of the simulated run: length, error word, import, hello world, blank. */
  function TraitsOf(code: string): (t: Traits)
    ensures t.tooLong <==> |code| > MaxCodeLength
    ensures t.raises <==> exists w, i :: w in ErrorWords && OccursFoldedAt(code, w, i)
    ensures t.imports <==> exists k, m :: ImportMatchAt(code, k, m)
    ensures t.blank <==> IsBlank(code)
  {
    Traits(|code| > MaxCodeLength, MentionsError(code), MatchesImport(code), SaysHelloWorld(code), Trim(code) == "")
  }

  /** The simulation rules; `Echo` is the fallback when no other rule applies. */
  datatype SimRule = TooLong | MayRaise | ImportsModule | HelloWorld | NoCode | Echo

  /** The test that selects each rule. */
  predicate Applies(rule: SimRule, t: Traits) {
    match rule
    case TooLong => t.tooLong
    case MayRaise => t.raises
    case ImportsModule => t.imports
    case HelloWorld => t.hello
    case NoCode => t.blank
    case Echo => true
  }

  /** The rules in order of precedence. */
  const RuleOrder: seq<SimRule> := [TooLong, MayRaise, ImportsModule, HelloWorld, NoCode]

  /** First match wins: the first rule of `rules` that applies, or `Echo` when none does. */
  function FirstApplicable(rules: seq<SimRule>, t: Traits): (r: SimRule)
    requires Echo !in rules
    ensures r == Echo <==> forall k :: 0 <= k < |rules| ==> !Applies(rules[k], t)
    ensures r != Echo ==> exists k :: 0 <= k < |rules| && rules[k] == r && Applies(r, t)
                                   && forall j :: 0 <= j < k ==> !Applies(rules[j], t)
  {
    if rules == [] then Echo
    else if Applies(rules[0], t) then rules[0]
    else
      var r := FirstApplicable(rules[1..], t);
      assert forall k :: 1 <= k < |rules| ==> rules[k] == rules[1..][k - 1];
      if r != Echo then
        ghost var k :| 0 <= k < |rules[1..]| && rules[1..][k] == r && Applies(r, t)
                       && forall j :: 0 <= j < k ==> !Applies(rules[1..][j], t);
        assert rules[k + 1] == r;
        r
      else
        r
  }

  /** What each rule answers. */
  function RuleReply(rule: SimRule, code: string): (r: ExecReply)
    ensures rule == TooLong <==> r.status == 400
    ensures r.status == 400 ==> r == Reject(TooLongMessage)
    ensures r.status == 200 ==> r.body.error.None? && (r.body.stdout.None? || r.body.stderr.None?)
    ensures r.body.stderr.Some? <==> rule == MayRaise
  {
    match rule
    case TooLong => Reject(TooLongMessage)
    case MayRaise => ExecReply(200, ExecBody(None, Some(ErrorNotice), None))
    case ImportsModule => ExecReply(200, ExecBody(Some(DefaultStdout(code) + ImportNote), None, None))
    case HelloWorld => ExecReply(200, ExecBody(Some(HelloWorldOutput), None, None))
    case NoCode => ExecReply(200, ExecBody(Some(NoCodeOutput), None, None))
    case Echo => ExecReply(200, ExecBody(Some(DefaultStdout(code)), None, None))
  }

  /** The reply of the simulated run: the answer of the first rule that applies to the code. */
  function Simulation(code: string): ExecReply {
    RuleReply(FirstApplicable(RuleOrder, TraitsOf(code)), code)
  }

  /**
   * The specification of `POST /api/execute`: the log line's `${language}`, then the guards, then
   * the simulated run.
   */
  function ExecuteReply(code: Field, language: Field): (r: ExecOutcome)
    ensures r.ThrewBeforeReply? <==> language.Unconvertible?
    ensures !language.Unconvertible? && !AcceptedCode(code) ==> r == Replied(Reject(MissingCodeMessage))
    ensures AcceptedCode(code) && !language.Unconvertible? && language != Text(SupportedLanguage) ==>
              r == Replied(Reject(UnsupportedMessage(Shown(language).value)))
    ensures AcceptedCode(code) && language == Text(SupportedLanguage) && |code.s| > MaxCodeLength ==>
              r == Replied(Reject(TooLongMessage))
    ensures r.Replied? && r.reply.status == 200 <==>
              AcceptedCode(code) && language == Text(SupportedLanguage) && |code.s| <= MaxCodeLength
    ensures r.Replied? ==> r.reply.status == 200 || r.reply.status == 400
    ensures r.Replied? && r.reply.status == 400 ==>
              r.reply.body.stdout.None? && r.reply.body.stderr.None? && r.reply.body.error.Some?
    ensures r.Replied? && r.reply.status == 200 ==>
              r.reply.body.error.None? && (r.reply.body.stdout.None? || r.reply.body.stderr.None?)
  {
    match Shown(language)
    case None => ThrewBeforeReply
    case Some(shown) =>
      if !AcceptedCode(code) then Replied(Reject(MissingCodeMessage))
      else if language != Text(SupportedLanguage) then Replied(Reject(UnsupportedMessage(shown)))
      else Replied(Simulation(code.s))
  }

  /** Taking the first applicable rule of a list with a head: the head if it applies, else the rest. */
  lemma FirstApplicableCons(rule: SimRule, rest: seq<SimRule>, t: Traits)
    requires rule != Echo && Echo !in rest
    ensures FirstApplicable([rule] + rest, t)
            == if Applies(rule, t) then rule else FirstApplicable(rest, t)
  {
    assert ([rule] + rest)[1..] == rest;
  }

  /** The rule list read as the source's if/else chain, with the length rule in front. */
  lemma RuleSelection(t: Traits)
    ensures FirstApplicable(RuleOrder, t) ==
      if t.tooLong then TooLong
      else if t.raises then MayRaise
      else if t.imports then ImportsModule
      else if t.hello then HelloWorld
      else if t.blank then NoCode
      else Echo
  {
    FirstApplicableCons(NoCode, [], t);
    FirstApplicableCons(HelloWorld, [NoCode], t);
    FirstApplicableCons(ImportsModule, [HelloWorld, NoCode], t);
    FirstApplicableCons(MayRaise, [ImportsModule, HelloWorld, NoCode], t);
    FirstApplicableCons(TooLong, [MayRaise, ImportsModule, HelloWorld, NoCode], t);
  }

  /** The simulated run of a code of acceptable length: each rule's canned output, in order. */
  lemma SimulationCascade(code: string)
    requires |code| <= MaxCodeLength
    ensures Simulation(code) ==
      if MentionsError(code) then ExecReply(200, ExecBody(None, Some(ErrorNotice), None))
      else if MatchesImport(code) then ExecReply(200, ExecBody(Some(DefaultStdout(code) + ImportNote), None, None))
      else if SaysHelloWorld(code) then ExecReply(200, ExecBody(Some(HelloWorldOutput), None, None))
      else if Trim(code) == "" then ExecReply(200, ExecBody(Some(NoCodeOutput), None, None))
      else ExecReply(200, ExecBody(Some(DefaultStdout(code)), None, None))
  {
    RuleSelection(TraitsOf(code));
  }

  /**
   * The simulated run as the source writes it: the three locals `stdout`, `stderr` and `error` set
   * by the if/else cascade, then the length check overriding them.
   */
  method Simulate(src: string) returns (reply: ExecReply)
    ensures reply == Simulation(src)
  {
    var stdout: Option<string> := Some(DefaultStdout(src));
    var stderr: Option<string> := None;
    var error: Option<string> := None;

    if MentionsError(src) {
      stdout := None;
      stderr := Some(ErrorNotice);
    } else if MatchesImport(src) {
      stdout := Some(stdout.value + ImportNote);
    } else if SaysHelloWorld(src) {
      stdout := Some(HelloWorldOutput);
    } else if Trim(src) == "" {
      stdout := Some(NoCodeOutput);
    }

    RuleSelection(TraitsOf(src));
    if |src| > MaxCodeLength {
      stdout := None;
      stderr := None;
      error := Some(TooLongMessage);
      return ExecReply(400, ExecBody(None, stderr, error));
    }
    reply := ExecReply(200, ExecBody(stdout, stderr, error));
  }

  /** The handler as the source writes it: the log line converting `language`, the guards, the run. */
  method Execute(code: Field, language: Field) returns (outcome: ExecOutcome)
    ensures outcome == ExecuteReply(code, language)
  {
    var shown := Shown(language);
    if shown.None? {
      return ThrewBeforeReply;
    }
    if !(code.Text? && code.s != "") {
      return Replied(Reject(MissingCodeMessage));
    }
    if language != Text(SupportedLanguage) {
      return Replied(Reject(UnsupportedMessage(shown.value)));
    }
    var reply := Simulate(code.s);
    outcome := Replied(reply);
  }
}
