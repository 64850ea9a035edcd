# T3PO ticket pipeline, modelled in Dafny

T3PO turns a short engineering task title into a Jira ticket. A chat model
first generates a detailed scope for the title. A second call has the scope
judged "Well-scoped" or "Poorly-scoped". An acceptable task is kept in the
Streamlit session, and it is filed as a Jira issue on request.

The model covers the logic T3PO runs locally. The remote calls are
parameters. The chat service and the tracker's `create_issue` are
functions from a request to an `Outcome`: the answer text, or the message
of what was raised. The JSON decoder is a function from the answer text
to the decoded task object or the decoding error's text. "No call is
made" is stated as "the result is the same for every such function".

- `values.dfy` (`Values`) holds the Python values the pipeline passes
  around:
  - a parsed task object is a map from keys to a string or a nested
    mapping;
  - the "Detailed Scope" mapping is a sequence of (key, value) pairs in
    insertion order, each value a string or a list of strings;
  - the exceptions the code raises itself (`KeyError`, `AttributeError`)
    are a datatype, together with their `str(e)` text.
- `jira_integration.dfy` (`JiraIntegration`):
  - the description text is specified as the join of one entry per
    field;
  - `format_description` is an imperative method with its loops, proved
    equal to that specification;
  - the issue payload and `create_jira_issue`'s result text.
- `ticket_generator.dfy` (`TicketGenerator`):
  - the title check, which looks at the length only (a title that passes
    is never empty, so the emptiness test at app.py:37 adds nothing to it);
  - the `{"details": …}` / `{"error": …}` envelopes of the generation and
    evaluation stages;
  - the module's demonstration `main`.
- `app.dfy` (`App`):
  - the form's session (`st.session_state`) is a class whose fields are
    the session keys;
  - the two buttons are methods: "Generate Ticket" changes the session,
    "Create Jira Ticket" only reads it;
  - `GenerateClick` is the decision function the "Generate Ticket" handler
    is proved against;
  - the invariant `Valid` says a stored task is never poorly scoped, and
    its description is the stored one.
- `utils.dfy` (`Utils`): the mock generator and the mock tracker, related
  to the real generator.

## Model

| member | source | states |
|---|---|---|
| JiraIntegration.FormatDescriptionOf | jira_integration.py:39-64 | the description is the scope's `Describe` text. A missing "Detailed Scope" raises `KeyError`, and a string under that key raises `AttributeError` |
| JiraIntegration.FormatDescription | jira_integration.py:49-64 | the accumulating loop over the fields returns exactly `FormatDescriptionOf(task)`, errors included |
| JiraIntegration.AppendField | jira_integration.py:51-63 | one pass of the outer loop appends exactly that field's entry to the description |
| JiraIntegration.AppendItems | jira_integration.py:52-60 | the inner loops append one line per list element, in order: verbatim under "Sub-Tasks", after "- " otherwise |
| JiraIntegration.DescribeEmptyIff | jira_integration.py:49-64 | an empty scope formats to "", and only an empty scope does |
| JiraIntegration.DescribeAppend | jira_integration.py:50-63 | formatting is compositional: the text of `a + b` is the text of `a` followed by the text of `b` |
| JiraIntegration.FieldAt | jira_integration.py:50-63 | fields appear in mapping order: field i's entry sits between the text of the fields before it and the text of those after it |
| JiraIntegration.DescribeSnoc | jira_integration.py:50-63 | adding a last field appends that field's entry |
| JiraIntegration.ItemAt | jira_integration.py:55-60 | each list element has its own line, in list order |
| JiraIntegration.ItemLinesSnoc | jira_integration.py:55-60 | adding a last element appends that element's line |
| JiraIntegration.ScalarEntry | jira_integration.py:61-63 | a scalar field (k, v) contributes exactly `"*k*: " + v + "\n\n"` |
| JiraIntegration.SubTasksEntry | jira_integration.py:51-63 | a "Sub-Tasks" list contributes `"*Sub-Tasks*: \n"`, each element verbatim plus "\n", then "\n"; no bullet is added |
| JiraIntegration.BulletedEntry | jira_integration.py:51-63 | a list under any other key contributes `"*k*: \n"`, then `"- " + item + "\n"` per element, then "\n" |
| JiraIntegration.ItemLinesEndInNewline | jira_integration.py:54-60 | after the label's line break, the list lines always end in a line break |
| JiraIntegration.ScalarFieldShown | jira_integration.py:61-62 | every scalar field (k, v) appears in the description as `"*k*: v"` followed by a line break, and it starts a line: after a leading line break, `"\n*k*: v\n"` occurs in the text |
| JiraIntegration.DescribeEndsLine | jira_integration.py:61-63 | a non-empty description always ends in a line break, since every field's entry does |
| JiraIntegration.ItemShown | jira_integration.py:52-60 | every list element x appears on a line of its own: as "x" under "Sub-Tasks", as "- x" otherwise |
| JiraIntegration.ItemLineInEntry | jira_integration.py:51-60 | the line of list element j lies inside its field's entry |
| JiraIntegration.BuildPayload | jira_integration.py:27-33 | the payload has the project key, `task["Task Title"]` as summary, the formatted description, issue type "Task" and the user as assignee. A missing title raises `KeyError` before formatting starts, and a formatting error is passed on |
| JiraIntegration.CreateJiraIssue | jira_integration.py:16-37 | never raises: the text always starts with exactly one of the success prefix and the failure prefix |
| JiraIntegration.CreateJiraIssueReports | jira_integration.py:26-37 | the result is a success exactly when the payload builds and the tracker accepts it. A success carries the new key after the prefix; a failure carries the upstream or local error text after the prefix |
| JiraIntegration.MissingTitleNeverSent | jira_integration.py:26-37 | a task without "Task Title" never reaches the tracker: the result is the same for every tracker and reports the `KeyError` |
| TicketGenerator.GenerateTaskDetails | ticket_generator.py:10-98 | the result has exactly one of the keys "details" and "error". "details" is present exactly when the title passes and the call succeeds, and it then holds the answer verbatim |
| TicketGenerator.InvalidTitleMakesNoCall | ticket_generator.py:14-17 | an invalid title gets the fixed relevance error, whatever the client |
| TicketGenerator.GenerationErrorKinds | ticket_generator.py:95-98 | the relevance error is returned exactly when the title is invalid. A failed call's message follows the failure prefix verbatim |
| TicketGenerator.IsValidTaskTitle | ticket_generator.py:101-104 | a title passes exactly when it has more than 8 characters |
| TicketGenerator.TitleCheckIsLengthOnly | ticket_generator.py:101-104 | titles of equal length are judged alike, whatever their words |
| TicketGenerator.ErrorEnvelope | ticket_generator.py:167-168 | the failure envelope has the single key "error", holding the failure prefix followed by the message |
| TicketGenerator.EvaluateTaskScope | ticket_generator.py:152-168 | there is no title check. A failed call gives the error envelope, and so does an answer that does not decode. Otherwise the decoded object is returned unchanged |
| TicketGenerator.EvaluationErrorIff | ticket_generator.py:152-168 | "error" is in the result exactly when the call failed, decoding failed, or the decoded object has "error" |
| TicketGenerator.DemoMain | ticket_generator.py:170-179 | the demonstration evaluates only when generation produced "details", and it evaluates that scope |
| TicketGenerator.DemoEvaluatesIffGenerated | ticket_generator.py:170-179 | the demonstration reaches the evaluator exactly when the generation call succeeds |
| Utils.Lower | utils.py:4 | lower-casing keeps the length, turns each capital A-Z into its small letter and leaves every other character as it is, so no capital remains |
| Utils.GenerateMockTaskDetails | utils.py:2-8 | exactly one of "error" and "details" is present. "error" is present exactly when the title lower-cased is "error", and it then holds the mocked error text. Otherwise the details are exactly `"Mocked details for task '" + title + "'. This includes descriptions, acceptance criteria, etc."`, and so contain the title |
| Utils.MockErrorIgnoresCase | utils.py:4 | titles equal up to letter case get the same kind of answer |
| Utils.MockErrorAnyCase | utils.py:4-5 | every five-letter title that is "error" up to the case of each letter gets the mocked error |
| Utils.MockErrorExamples | utils.py:4-8 | "ERROR" and "Error" are refused, and "errors" is not |
| Utils.MockErrorTitleIsInvalid | utils.py:4-5 | the titles the mock refuses have five letters and never pass the real title check |
| Utils.MockAgreesWithGenerator | utils.py:2-8 | for a valid title, any client answering as the mock does makes the real generator return exactly the mock's envelope |
| Utils.CreateMockJiraIssue | utils.py:11-13 | the mocked confirmation ends in "MOCK-123" |
| Utils.MockIssueIgnoresTask | utils.py:11-13 | the mocked confirmation does not depend on the task |
| App.GenerateClick | app.py:36-59 | a click that stores a task stores a non-empty, acceptable one: no "error" key, and a verdict present and not "Poorly-scoped" |
| App.InvalidTitleHalts | app.py:37-59 | an empty or invalid title shows "Please enter a valid task title.", whatever the client and decoder |
| App.GenerationErrorSkipsEvaluation | app.py:38-41 | a failed generation shows its error, and the evaluation answer and decoder play no part |
| App.EvaluationErrorHalts | app.py:43-46 | an evaluation error is shown and the click stops |
| App.PoorlyScopedRejected | app.py:48-50 | a "Poorly-scoped" verdict shows the rejection notice and stores nothing |
| App.StoreIff | app.py:36-54 | a task is stored exactly when the title passes, generation succeeds and the evaluated object is acceptable, and that object is the one stored |
| App.Session.constructor | app.py:12-17 | a fresh session has no keys and satisfies the invariant |
| App.Session.InitDefaults | app.py:12-17 | each Jira setting receives its placeholder only when absent; a present value is never overwritten |
| App.Session.SyncConfig | app.py:19-26 | each text box shows the stored setting, and what it returns is stored back; the task keys do not change |
| App.Session.Configure | app.py:12-26 | after defaults and text boxes, each setting is the edit or the stored-or-default value |
| App.Session.GenerateTicket | app.py:36-59 | the new session follows `GenerateClick`: a halt shows its message and leaves the session unchanged; a store keeps the task and its description. The settings are untouched, and the invariant (stored task acceptable, description up to date) is preserved |
| App.Session.CreateJiraTicket | app.py:61-71 | with a truthy stored task, shows as success whatever `create_jira_issue` returns. Otherwise shows "Please generate task details before creating a Jira ticket." without using the tracker. Under the invariant, a success means a stored, acceptable task |
| App.Session.Rerun | app.py:7-71 | one run of the form: the settings are updated, then the clicked button's handler runs; with no click the task keys are unchanged |

## Left out

- The chat-completion client and its construction (ticket_generator.py:6-8, 80-93, 153-165) are left out. They are the `Client` parameter. Only the title and the generated scope are kept from the prompts (ticket_generator.py:20-77, 107-151); the prompt texts have meaning only to the remote model.
- `json.loads` (ticket_generator.py:166) is left out. It is the `JsonParser` parameter, which returns a task object or the error text. A decoded JSON value that is not an object is not modelled.
- `JIRA(...)` construction, the `vault` credentials and `create_issue` (jira_integration.py:1-14, 34) are left out. `create_issue` is the `Tracker` parameter. `set_up_jira_client` is the `connect` parameter of `Rerun`.
- Streamlit rendering is left out (titles, sidebar, `subheader`, `write`, the widget layout). A click is a method call, and what a run shows is a `Message`.
- The `except` branch at app.py:66-69 is not modelled. `CreateJiraIssue` is a total function that folds every failure into its result, so nothing can reach that branch.
- The `__main__` blocks (jira_integration.py:66-110, ticket_generator.py:181-182) are demonstration scripts and are left out. The call at jira_integration.py:109 passes three arguments to a four-parameter function, so it would raise `TypeError`.
- Scope values other than strings and lists of strings are left out: `str()` of other Python values is not modelled. List elements are taken to be strings.
- JSON values other than strings and objects are left out at the top level of a decoded task: numbers, booleans, `null` and arrays. So is a list or `null` under "Detailed Scope". For those, jira_integration.py:50 raises `AttributeError` with the text `'list' object has no attribute 'items'` or `'NoneType' object has no attribute 'items'`. `DetailedScope` can produce only the `'str'` form of that message.
- Duplicate keys are left out. A Python dict has none, but a `Scope` sequence may repeat a key. Every lemma holds either way.
- `Utils.Lower`: lower-casing is modelled on ASCII letters only. Python's Unicode case mapping is not modelled.
- That `format_description` is deterministic and leaves its argument unchanged holds by construction: it is a Dafny function of an immutable value. No lemma states it.
- `App.Session.Valid`: the stored description is stated to match the stored task only when that task can be formatted. app.py:52-54 stores the task before formatting it. If formatting raises, the new task is kept next to the previous description; the model shows that exception as `Raised`.
- The "Scope Quality" test follows the code (app.py:48): only a verdict equal to "Poorly-scoped" is rejected, and any other present verdict is accepted. A missing "Scope Quality" key raises `KeyError`; the model shows it as `Raised` and leaves the session unchanged.
- `App.Session.CreateJiraTicket` does not model the tracker client built at app.py:33. The client is passed in, and `Rerun` builds it with `connect` from the run's URL and user.
