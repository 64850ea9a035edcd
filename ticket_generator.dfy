/** The two language-model stages: generating a scope for a task title and
    having the scope judged.  The chat-completion service and the JSON
    parser are parameters; what this module decides itself is the title
    check and the envelopes the answers are wrapped in. */
module TicketGenerator {
  import opened Values

  /** The relevance error.  It is written as two literals because the
      verifier sees the characters of a short literal only, and the proof
      that the two error kinds differ needs its first character. */
  const InvalidTitleError := "The provided task title " + "does not seem to be relevant to engineering tasks."
  /** The prefix of every failure reported by either stage. */
  const FailurePrefix := "Failed to generate task details due to: "
  /** The title the module's own demonstration runs on. */
  const DemoTitle := "Write evaluation module for MNIST classifier"

  /** What is asked of the chat-completion service.  The prompt texts are
      fixed templates; the model keeps only what is interpolated into them. */
  datatype Request =
    | Generation(title: string)
    | Evaluation(title: string, generatedScope: string)

  /** The chat-completion service: the message content it answers with, or
      the text of what the call raised. */
  type Client = Request -> Outcome

  /** `json.loads` on an answer: the object, or the decoding error's text. */
  type JsonParser = string -> Result<TaskObject, string>

  /** `is_valid_task_title`: a length heuristic, not a judgement of meaning. */
  predicate IsValidTaskTitle(title: string)
  {
    |title| > 8
  }

  /** A generation result holds exactly one of the keys "details" and "error". */
  predicate IsEnvelope(response: map<string, string>)
  {
    response.Keys == {"details"} || response.Keys == {"error"}
  }

  /** `generate_task_details`: re-checks the title, then asks for a scope. */
  function GenerateTaskDetails(client: Client, title: string): (r: map<string, string>)
    ensures IsEnvelope(r)
    ensures "details" in r <==> IsValidTaskTitle(title) && client(Generation(title)).Ok?
    ensures "details" in r ==> client(Generation(title)) == Ok(r["details"])
  {
    if !IsValidTaskTitle(title) then
      map["error" := InvalidTitleError]
    else
      match client(Generation(title))
      case Ok(content) => map["details" := content]
      case Err(message) => map["error" := FailurePrefix + message]
  }

  /** A title that fails the check is answered without asking the service:
      every client gets the same error. */
  lemma InvalidTitleMakesNoCall(c1: Client, c2: Client, title: string)
    requires !IsValidTaskTitle(title)
    ensures GenerateTaskDetails(c1, title) == GenerateTaskDetails(c2, title)
    ensures GenerateTaskDetails(c1, title) == map["error" := InvalidTitleError]
  {
  }

  /** The two kinds of generation error can be told apart by their text,
      and a failed call's upstream message is carried verbatim after the
      failure prefix. */
  lemma GenerationErrorKinds(client: Client, title: string)
    ensures var r := GenerateTaskDetails(client, title);
      "error" in r ==>
        && (r["error"] == InvalidTitleError <==> !IsValidTaskTitle(title))
        && (IsValidTaskTitle(title) ==>
              StartsWith(r["error"], FailurePrefix)
              && r["error"][|FailurePrefix|..] == client(Generation(title)).error)
  {
    var r := GenerateTaskDetails(client, title);
    if "error" in r && IsValidTaskTitle(title) {
      var message := client(Generation(title)).error;
      assert r["error"] == FailurePrefix + message;
      assert (FailurePrefix + message)[0] == 'F';
      assert InvalidTitleError[0] == 'T';
    }
  }

  /** The title check reads nothing but the length: titles of equal length
      are judged alike, whatever their words. */
  lemma TitleCheckIsLengthOnly(a: string, b: string)
    requires |a| == |b|
    ensures IsValidTaskTitle(a) == IsValidTaskTitle(b)
  {
  }

  /** The error envelope both stages return on a failure. */
  function ErrorEnvelope(message: string): (r: TaskObject)
    ensures r.Keys == {"error"}
    ensures r["error"].Text? && StartsWith(r["error"].text, FailurePrefix) && r["error"].text[|FailurePrefix|..] == message
  {
    map["error" := Text(FailurePrefix + message)]
  }

  /** `evaluate_task_scope`: asks for a verdict on a generated scope and
      parses the answer; the title is not checked here. */
  function EvaluateTaskScope(client: Client, parse: JsonParser, title: string, generatedScope: string): (r: TaskObject)
    ensures client(Evaluation(title, generatedScope)).Err? ==>
      r == ErrorEnvelope(client(Evaluation(title, generatedScope)).error)
    ensures client(Evaluation(title, generatedScope)).Ok? ==>
      var parsed := parse(client(Evaluation(title, generatedScope)).value);
      r == (if parsed.Ok? then parsed.value else ErrorEnvelope(parsed.error))
  {
    match client(Evaluation(title, generatedScope))
    case Err(message) => ErrorEnvelope(message)
    case Ok(content) =>
      match parse(content)
      case Err(message) => ErrorEnvelope(message)
      case Ok(task) => task
  }

  /** The result carries an "error" key exactly when the call failed, the
      answer did not parse, or the parsed object itself has one. */
  lemma EvaluationErrorIff(client: Client, parse: JsonParser, title: string, generatedScope: string)
    ensures var answer := client(Evaluation(title, generatedScope));
      "error" in EvaluateTaskScope(client, parse, title, generatedScope)
      <==> answer.Err? || parse(answer.value).Err? || "error" in parse(answer.value).value
  {
  }

  /** The outcome of the module's demonstration run: the generation result
      and, when there was one to judge, the evaluation result. */
  datatype DemoRun = DemoRun(generated: map<string, string>, evaluated: Option<TaskObject>)

  /** `main`: generates a scope for the fixed title and evaluates it only
      when the generation produced details. */
  function DemoMain(client: Client, parse: JsonParser): (run: DemoRun)
    ensures run.generated == GenerateTaskDetails(client, DemoTitle)
    ensures run.evaluated.Some? <==> "details" in run.generated
    ensures run.evaluated.Some? ==>
      run.evaluated.value == EvaluateTaskScope(client, parse, DemoTitle, run.generated["details"])
  {
    var response := GenerateTaskDetails(client, DemoTitle);
    if "details" in response then
      DemoRun(response, Some(EvaluateTaskScope(client, parse, DemoTitle, response["details"])))
    else
      DemoRun(response, None)
  }

  /** The demonstration title passes the check, so the run reaches the
      evaluator exactly when the generation call succeeds. */
  lemma DemoEvaluatesIffGenerated(client: Client, parse: JsonParser)
    ensures DemoMain(client, parse).evaluated.Some? <==> client(Generation(DemoTitle)).Ok?
  {
    assert IsValidTaskTitle(DemoTitle);
  }
}
