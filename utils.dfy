/** Stand-ins for the generator and the tracker, used in place of the
    remote services. */
module Utils {
  import opened Values
  import TicketGenerator

  const MockErrorMessage := "Mocked error: Task title cannot be 'error'."
  const MockIssueMessage := "Mocked success: Jira issue created successfully! Issue key: MOCK-123"

  /** `c.lower()` on an ASCII character. */
  function LowerChar(c: char): char
  {
    if 'A' <= c <= 'Z' then (c as int + 32) as char else c
  }

  /** `s.lower()` on ASCII text: each capital A-Z becomes its small letter,
      every other character stays as it is. */
  function Lower(s: string): (r: string)
    ensures |r| == |s|
    ensures forall i :: 0 <= i < |s| ==>
      && ('A' <= s[i] <= 'Z' ==> r[i] as int == s[i] as int + 32)
      && (!('A' <= s[i] <= 'Z') ==> r[i] == s[i])
    ensures forall i :: 0 <= i < |r| ==> !('A' <= r[i] <= 'Z')
  {
    seq(|s|, i requires 0 <= i < |s| => LowerChar(s[i]))
  }

  /** The text of the mocked scope for a title. */
  function MockDetails(title: string): string
  {
    "Mocked details for task '" + title + "'. This includes descriptions, acceptance criteria, etc."
  }

  /** `generate_mock_task_details`: the error envelope for the title "error"
      in any letter case, the mocked details for every other title. */
  function GenerateMockTaskDetails(title: string): (r: map<string, string>)
    ensures TicketGenerator.IsEnvelope(r)
    ensures "error" in r <==> Lower(title) == "error"
    ensures "error" in r ==> r["error"] == MockErrorMessage
    ensures "details" in r ==>
      r["details"] == "Mocked details for task '" + title + "'. This includes descriptions, acceptance criteria, etc."
    ensures "details" in r ==> Contains(r["details"], title)
  {
    if Lower(title) == "error" then
      map["error" := MockErrorMessage]
    else
      ContainsMiddle("Mocked details for task '", title, "'. This includes descriptions, acceptance criteria, etc.");
      map["details" := MockDetails(title)]
  }

  /** The mock's error case ignores letter case: titles equal up to case get
      the same kind of answer. */
  lemma MockErrorIgnoresCase(a: string, b: string)
    requires Lower(a) == Lower(b)
    ensures GenerateMockTaskDetails(a).Keys == GenerateMockTaskDetails(b).Keys
  {
  }

  /** Every spelling of "error" in any mix of letter case is refused. */
  lemma MockErrorAnyCase(title: string)
    requires |title| == 5
    requires forall i :: 0 <= i < 5 ==> title[i] == "error"[i] || title[i] as int == "error"[i] as int - 32
    ensures "error" in GenerateMockTaskDetails(title)
    ensures GenerateMockTaskDetails(title)["error"] == MockErrorMessage
  {
    var lowered := Lower(title);
    forall i | 0 <= i < 5
      ensures lowered[i] == "error"[i]
    {
      assert 'a' <= "error"[i] <= 'z';
    }
    assert lowered == "error";
  }

  /** "ERROR" and "Error" are refused like "error"; "errors" is not. */
  lemma MockErrorExamples()
    ensures "error" in GenerateMockTaskDetails("ERROR")
    ensures "error" in GenerateMockTaskDetails("Error")
    ensures "details" in GenerateMockTaskDetails("errors")
  {
    assert Lower("ERROR") == "error";
    assert Lower("Error") == "error";
    assert Lower("errors") != "error";
  }

  /** Only five-letter titles reach the mock's error case, and those never
      pass the generator's title check. */
  lemma MockErrorTitleIsInvalid(title: string)
    requires "error" in GenerateMockTaskDetails(title)
    ensures |title| == 5 && !TicketGenerator.IsValidTaskTitle(title)
  {
    assert |Lower(title)| == |"error"|;
  }

  /** The answer a chat service would give that makes the real generator
      behave like the mock. */
  function MockGenerationOutcome(title: string): Outcome
  {
    if Lower(title) == "error" then Err(MockErrorMessage) else Ok(MockDetails(title))
  }

  /** Behind the title check the mock and the real generator agree: any
      client that answers a generation request as the mock does yields
      exactly the mock's envelope. */
  lemma MockAgreesWithGenerator(client: TicketGenerator.Client, title: string)
    requires TicketGenerator.IsValidTaskTitle(title)
    requires client(TicketGenerator.Generation(title)) == MockGenerationOutcome(title)
    ensures TicketGenerator.GenerateTaskDetails(client, title) == GenerateMockTaskDetails(title)
  {
    if Lower(title) == "error" {
      MockErrorTitleIsInvalid(title);
    }
  }

  /** `create_mock_jira_issue`: the same confirmation whatever the task. */
  function CreateMockJiraIssue(task: TaskObject): (r: string)
    ensures EndsWith(r, "MOCK-123")
  {
    MockIssueMessage
  }

  /** The mocked tracker's answer does not depend on the task. */
  lemma MockIssueIgnoresTask(a: TaskObject, b: TaskObject)
    ensures CreateMockJiraIssue(a) == CreateMockJiraIssue(b)
  {
  }
}
