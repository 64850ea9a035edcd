/** The web form: a session that keeps the Jira settings and the last
    accepted task across the form's reruns, and the two button handlers
    that generate a task and file it.  Widgets and rendering are left out;
    a click is a method call and what the page shows is a `Message`. */
module App {
  import opened Values
  import J = JiraIntegration
  import G = TicketGenerator

  const DefaultJiraUrl := "https://your-domain.atlassian.net"
  const DefaultJiraUser := "your-email@example.com"
  const DefaultJiraProjectKey := "PROJ-123"
  const InvalidTitleNotice := "Please enter a valid task title."
  const PoorlyScopedNotice := "The generated task details are not well-scoped. Please try again."
  const GenerateFirstNotice := "Please generate task details before creating a Jira ticket."
  const PoorlyScoped := "Poorly-scoped"

  /** What one run of the form shows. */
  datatype Message =
    | ErrorShown(value: Field)            // `st.error`
    | SuccessShown(text: string)          // `st.success`
    | DetailsShown(description: string)   // the generated description
    | Raised(exception: PyException)      // an exception that escapes the run

  /** The value a setting has once its default is in place. */
  function Setting(current: Option<string>, fallback: string): string
  {
    if current.Some? then current.value else fallback
  }

  /** Which button, if any, was clicked in this run. */
  datatype Button = NoButton | GenerateButton | CreateButton

  /** What a text box returns: the user's edit, or the value it shows. */
  function TextInput(shown: string, edit: Option<string>): string
  {
    if edit.Some? then edit.value else shown
  }

  /** A task the session may keep: it is not an error envelope and its
      verdict is present and is not "Poorly-scoped". */
  predicate Acceptable(task: TaskObject)
  {
    "error" !in task && "Scope Quality" in task && task["Scope Quality"] != Text(PoorlyScoped)
  }

  /** How a "Generate Ticket" click ends: it stops showing a message, or it
      stores the evaluated task. */
  datatype GenerateStep = Halt(shown: Message) | Store(task: TaskObject)

  /** The decisions of the "Generate Ticket" handler. */
  function GenerateClick(title: string, client: G.Client, parse: G.JsonParser): (step: GenerateStep)
    ensures step.Store? ==> Acceptable(step.task) && |step.task| > 0
  {
    if !(title != "" && G.IsValidTaskTitle(title)) then
      Halt(ErrorShown(Text(InvalidTitleNotice)))
    else
      var response := G.GenerateTaskDetails(client, title);
      if "error" in response then
        Halt(ErrorShown(Text(response["error"])))
      else
        var withQuality := G.EvaluateTaskScope(client, parse, title, response["details"]);
        if "error" in withQuality then
          Halt(ErrorShown(withQuality["error"]))
        else if "Scope Quality" !in withQuality then
          Halt(Raised(KeyError("Scope Quality")))
        else if withQuality["Scope Quality"] == Text(PoorlyScoped) then
          Halt(ErrorShown(Text(PoorlyScopedNotice)))
        else
          assert "Scope Quality" in withQuality.Keys;
          Store(withQuality)
  }

  /** An empty or invalid title is refused before either service is asked:
      the outcome is the same whatever the client and parser. */
  lemma InvalidTitleHalts(title: string, c1: G.Client, p1: G.JsonParser, c2: G.Client, p2: G.JsonParser)
    requires title == "" || !G.IsValidTaskTitle(title)
    ensures GenerateClick(title, c1, p1) == GenerateClick(title, c2, p2)
    ensures GenerateClick(title, c1, p1) == Halt(ErrorShown(Text(InvalidTitleNotice)))
  {
  }

  /** A failed generation call stops the click with the upstream error:
      the evaluation answer and the parser play no part. */
  lemma GenerationErrorSkipsEvaluation(title: string, c1: G.Client, p1: G.JsonParser, c2: G.Client, p2: G.JsonParser)
    requires G.IsValidTaskTitle(title)
    requires c1(G.Generation(title)) == c2(G.Generation(title)) && c1(G.Generation(title)).Err?
    ensures GenerateClick(title, c1, p1) == GenerateClick(title, c2, p2)
    ensures GenerateClick(title, c1, p1)
         == Halt(ErrorShown(Text(G.FailurePrefix + c1(G.Generation(title)).error)))
  {
  }

  /** An evaluation that reports an error stops the click with that error. */
  lemma EvaluationErrorHalts(title: string, client: G.Client, parse: G.JsonParser)
    requires G.IsValidTaskTitle(title) && client(G.Generation(title)).Ok?
    requires var task := G.EvaluateTaskScope(client, parse, title, client(G.Generation(title)).value);
      "error" in task
    ensures var task := G.EvaluateTaskScope(client, parse, title, client(G.Generation(title)).value);
      GenerateClick(title, client, parse) == Halt(ErrorShown(task["error"]))
  {
  }

  /** A click stores a task exactly when the title passes, the generation
      succeeds, and the evaluation yields an acceptable object; the stored
      task is that object. */
  lemma StoreIff(title: string, client: G.Client, parse: G.JsonParser)
    ensures var step := GenerateClick(title, client, parse);
      var generated := client(G.Generation(title));
      step.Store?
      <==> G.IsValidTaskTitle(title) && generated.Ok?
           && Acceptable(G.EvaluateTaskScope(client, parse, title, generated.value))
    ensures var step := GenerateClick(title, client, parse);
      step.Store? ==>
        step.task == G.EvaluateTaskScope(client, parse, title, client(G.Generation(title)).value)
  {
  }

  /** A "Poorly-scoped" verdict is refused with the rejection notice. */
  lemma PoorlyScopedRejected(title: string, client: G.Client, parse: G.JsonParser)
    requires G.IsValidTaskTitle(title) && client(G.Generation(title)).Ok?
    requires var task := G.EvaluateTaskScope(client, parse, title, client(G.Generation(title)).value);
      "error" !in task && "Scope Quality" in task && task["Scope Quality"] == Text(PoorlyScoped)
    ensures GenerateClick(title, client, parse) == Halt(ErrorShown(Text(PoorlyScopedNotice)))
  {
  }

  /** The session after a "Generate Ticket" click, from the session before
      it: a halt changes nothing; a store replaces the task and, when the
      task can be formatted, its description (formatting comes after the
      task is stored, so a formatting error leaves the old description). */
  predicate GenerateEffect(
    step: GenerateStep, shown: Message,
    structuredBefore: Option<TaskObject>, formattedBefore: Option<string>,
    structuredAfter: Option<TaskObject>, formattedAfter: Option<string>)
  {
    match step
    case Halt(message) =>
      shown == message && structuredAfter == structuredBefore && formattedAfter == formattedBefore
    case Store(task) =>
      structuredAfter == Some(task) &&
      match J.FormatDescriptionOf(task)
      case Ok(description) => shown == DetailsShown(description) && formattedAfter == Some(description)
      case Err(e) => shown == Raised(e) && formattedAfter == formattedBefore
  }

  /** `st.session_state`, with the keys the form uses; `None` is a key
      that is not set. */
  class Session {
    var jiraUrl: Option<string>
    var jiraUser: Option<string>
    var jiraProjectKey: Option<string>
    var taskDetailsStructured: Option<TaskObject>
    var taskDetailsFormatted: Option<string>

    /** A stored task is acceptable; a stored description is the stored
        task's, whenever that task can be formatted; a description is only
        ever stored with a task. */
    ghost predicate Valid()
      reads this
    {
      && (taskDetailsStructured.Some? ==> Acceptable(taskDetailsStructured.value))
      && (taskDetailsStructured.Some? && J.FormatDescriptionOf(taskDetailsStructured.value).Ok? ==>
            taskDetailsFormatted == Some(J.FormatDescriptionOf(taskDetailsStructured.value).value))
      && (taskDetailsFormatted.Some? ==> taskDetailsStructured.Some?)
    }

    /** A new session holds no keys. */
    constructor ()
      ensures Valid()
      ensures jiraUrl == None && jiraUser == None && jiraProjectKey == None
      ensures taskDetailsStructured == None && taskDetailsFormatted == None
    {
      jiraUrl, jiraUser, jiraProjectKey := None, None, None;
      taskDetailsStructured, taskDetailsFormatted := None, None;
    }

    /** Lines 12-17: a Jira setting gets its placeholder only when it is not
        set; a value already there is never overwritten. */
    method InitDefaults()
      requires Valid()
      modifies this
      ensures Valid()
      ensures jiraUrl == if old(jiraUrl).Some? then old(jiraUrl) else Some(DefaultJiraUrl)
      ensures jiraUser == if old(jiraUser).Some? then old(jiraUser) else Some(DefaultJiraUser)
      ensures jiraProjectKey == if old(jiraProjectKey).Some? then old(jiraProjectKey) else Some(DefaultJiraProjectKey)
      ensures taskDetailsStructured == old(taskDetailsStructured)
      ensures taskDetailsFormatted == old(taskDetailsFormatted)
    {
      if jiraUrl.None? {
        jiraUrl := Some(DefaultJiraUrl);
      }
      if jiraUser.None? {
        jiraUser := Some(DefaultJiraUser);
      }
      if jiraProjectKey.None? {
        jiraProjectKey := Some(DefaultJiraProjectKey);
      }
    }

    /** Lines 19-26: the three text boxes show the stored settings, and what
        they return is stored back and used for the rest of the run. */
    method SyncConfig(urlEdit: Option<string>, userEdit: Option<string>, keyEdit: Option<string>)
      returns (url: string, user: string, projectKey: string)
      requires Valid()
      requires jiraUrl.Some? && jiraUser.Some? && jiraProjectKey.Some?
      modifies this
      ensures Valid()
      ensures url == TextInput(old(jiraUrl).value, urlEdit)
      ensures user == TextInput(old(jiraUser).value, userEdit)
      ensures projectKey == TextInput(old(jiraProjectKey).value, keyEdit)
      ensures jiraUrl == Some(url) && jiraUser == Some(user) && jiraProjectKey == Some(projectKey)
      ensures taskDetailsStructured == old(taskDetailsStructured)
      ensures taskDetailsFormatted == old(taskDetailsFormatted)
    {
      url := TextInput(jiraUrl.value, urlEdit);
      user := TextInput(jiraUser.value, userEdit);
      projectKey := TextInput(jiraProjectKey.value, keyEdit);
      jiraUrl, jiraUser, jiraProjectKey := Some(url), Some(user), Some(projectKey);
    }

    /** Lines 36-59, the "Generate Ticket" handler: validate, generate,
        evaluate, refuse a poorly-scoped verdict, then store the task and
        its description. */
    method GenerateTicket(title: string, client: G.Client, parse: G.JsonParser) returns (shown: Message)
      requires Valid()
      modifies this
      ensures Valid()
      ensures GenerateEffect(GenerateClick(title, client, parse), shown,
        old(taskDetailsStructured), old(taskDetailsFormatted), taskDetailsStructured, taskDetailsFormatted)
      ensures jiraUrl == old(jiraUrl) && jiraUser == old(jiraUser) && jiraProjectKey == old(jiraProjectKey)
    {
      if title != "" && G.IsValidTaskTitle(title) {
        var response := G.GenerateTaskDetails(client, title);
        if "error" in response {
          return ErrorShown(Text(response["error"]));
        }
        var withQuality := G.EvaluateTaskScope(client, parse, title, response["details"]);
        if "error" in withQuality {
          return ErrorShown(withQuality["error"]);
        }
        if "Scope Quality" !in withQuality {
          return Raised(KeyError("Scope Quality"));
        }
        if withQuality["Scope Quality"] == Text(PoorlyScoped) {
          return ErrorShown(Text(PoorlyScopedNotice));
        }
        taskDetailsStructured := Some(withQuality);
        var formatted := J.FormatDescription(withQuality);
        match formatted {
          case Err(e) =>
            return Raised(e);
          case Ok(description) =>
            taskDetailsFormatted := Some(description);
            return DetailsShown(description);
        }
      } else {
        return ErrorShown(Text(InvalidTitleNotice));
      }
    }

    /** Lines 61-71, the "Create Jira Ticket" handler: file the stored task
        if there is one; the handler never changes the session. */
    method CreateJiraTicket(tracker: J.Tracker, user: string, projectKey: string) returns (shown: Message)
      ensures taskDetailsStructured.Some? && |taskDetailsStructured.value| > 0 ==>
        shown == SuccessShown(J.CreateJiraIssue(tracker, taskDetailsStructured.value, user, projectKey))
      ensures !(taskDetailsStructured.Some? && |taskDetailsStructured.value| > 0) ==>
        shown == ErrorShown(Text(GenerateFirstNotice))
      ensures Valid() ==> (shown.SuccessShown? <==> taskDetailsStructured.Some?)
      ensures Valid() && shown.SuccessShown? ==> Acceptable(taskDetailsStructured.value)
    {
      if taskDetailsStructured.Some? && |taskDetailsStructured.value| > 0 {
        var message := J.CreateJiraIssue(tracker, taskDetailsStructured.value, user, projectKey);
        shown := SuccessShown(message);
      } else {
        if taskDetailsStructured.Some? {
          assert "Scope Quality" !in taskDetailsStructured.value;
        }
        shown := ErrorShown(Text(GenerateFirstNotice));
      }
    }

    /** Lines 12-26: the settings part of a run, defaults first, then the
        text boxes. */
    method Configure(urlEdit: Option<string>, userEdit: Option<string>, keyEdit: Option<string>)
      returns (url: string, user: string, projectKey: string)
      requires Valid()
      modifies this
      ensures Valid()
      ensures url == TextInput(Setting(old(jiraUrl), DefaultJiraUrl), urlEdit)
      ensures user == TextInput(Setting(old(jiraUser), DefaultJiraUser), userEdit)
      ensures projectKey == TextInput(Setting(old(jiraProjectKey), DefaultJiraProjectKey), keyEdit)
      ensures jiraUrl == Some(url) && jiraUser == Some(user) && jiraProjectKey == Some(projectKey)
      ensures taskDetailsStructured == old(taskDetailsStructured)
      ensures taskDetailsFormatted == old(taskDetailsFormatted)
    {
      InitDefaults();
      url, user, projectKey := SyncConfig(urlEdit, userEdit, keyEdit);
    }

    /** One run of the form script: settings, then the clicked button's
        handler.  `connect` stands for building the tracker client from the
        URL and user of this run. */
    method Rerun(
      urlEdit: Option<string>, userEdit: Option<string>, keyEdit: Option<string>,
      title: string, button: Button,
      client: G.Client, parse: G.JsonParser, connect: (string, string) -> J.Tracker)
      returns (shown: Option<Message>)
      requires Valid()
      modifies this
      ensures Valid()
      ensures jiraUrl == Some(TextInput(Setting(old(jiraUrl), DefaultJiraUrl), urlEdit))
      ensures jiraUser == Some(TextInput(Setting(old(jiraUser), DefaultJiraUser), userEdit))
      ensures jiraProjectKey == Some(TextInput(Setting(old(jiraProjectKey), DefaultJiraProjectKey), keyEdit))
      ensures button == NoButton ==>
        shown == None
        && taskDetailsStructured == old(taskDetailsStructured) && taskDetailsFormatted == old(taskDetailsFormatted)
      ensures button == GenerateButton ==>
        shown.Some? && GenerateEffect(GenerateClick(title, client, parse), shown.value,
          old(taskDetailsStructured), old(taskDetailsFormatted), taskDetailsStructured, taskDetailsFormatted)
      ensures button == CreateButton ==>
        taskDetailsStructured == old(taskDetailsStructured) && taskDetailsFormatted == old(taskDetailsFormatted)
        && shown == Some(
          if taskDetailsStructured.Some?
          then SuccessShown(J.CreateJiraIssue(connect(jiraUrl.value, jiraUser.value), taskDetailsStructured.value,
                                              jiraUser.value, jiraProjectKey.value))
          else ErrorShown(Text(GenerateFirstNotice)))
    {
      var url, user, projectKey := Configure(urlEdit, userEdit, keyEdit);
      match button {
        case NoButton =>
          shown := None;
        case GenerateButton =>
          var message := GenerateTicket(title, client, parse);
          shown := Some(message);
        case CreateButton =>
          var message := CreateJiraTicket(connect(url, user), user, projectKey);
          shown := Some(message);
      }
    }
  }
}
