/** The Jira side of the pipeline: rendering a task's "Detailed Scope" as a
    Jira description, and building and filing the issue through a tracker
    client whose answer is a parameter. */
module JiraIntegration {
  import opened Values

  const SubTasksKey := "Sub-Tasks"
  const SuccessPrefix := "Successfully created Jira issue: "
  const FailurePrefix := "Failed to create Jira issue due to: "
  /** `str(e)` of the AttributeError raised by `.items()` on a string. */
  const NoItemsMessage := "'str' object has no attribute 'items'"

  // ---------------------------------------------------------------------
  // The description text, as a specification

  /** The bold label that opens every field. */
  function Label(key: string): string
  {
    "*" + key + "*: "
  }

  /** What precedes each list element on its line: nothing under
      "Sub-Tasks" (the subtasks carry their own numbering), a "- " bullet
      under any other key. */
  function Marker(key: string): string
  {
    if key == SubTasksKey then "" else "- "
  }

  /** The list elements, one per line, each after the marker. */
  function ItemLines(marker: string, items: seq<string>): string
  {
    Join(seq(|items|, j requires 0 <= j < |items| => marker + items[j] + "\n"))
  }

  /** What one field of the scope contributes to the description. */
  function Entry(key: string, value: Value): string
  {
    match value
    case Scalar(text) => Label(key) + text + "\n" + "\n"
    case Items(items) => Label(key) + "\n" + ItemLines(Marker(key), items) + "\n"
  }

  /** The entries of the fields, in mapping order. */
  function Entries(scope: Scope): (r: seq<string>)
    ensures |r| == |scope|
  {
    seq(|scope|, i requires 0 <= i < |scope| => Entry(scope[i].0, scope[i].1))
  }

  /** The description of a whole scope: its fields' entries in order. */
  function Describe(scope: Scope): string
  {
    Join(Entries(scope))
  }

  /** The "Detailed Scope" of a task object, or what looking it up raises. */
  function DetailedScope(task: TaskObject): Result<Scope, PyException>
  {
    if "Detailed Scope" !in task then Err(KeyError("Detailed Scope"))
    else match task["Detailed Scope"]
      case Text(_) => Err(AttributeError(NoItemsMessage))
      case Mapping(scope) => Ok(scope)
  }

  /** What `format_description(task)` returns or raises. */
  function FormatDescriptionOf(task: TaskObject): (r: Result<string, PyException>)
    ensures r.Ok? <==> DetailedScope(task).Ok?
    ensures r.Ok? ==> r.value == Describe(DetailedScope(task).value)
    ensures r.Err? ==> r.error == DetailedScope(task).error
  {
    match DetailedScope(task)
    case Ok(scope) => Ok(Describe(scope))
    case Err(e) => Err(e)
  }

  // ---------------------------------------------------------------------
  // Properties of the description

  /** Formatting is compositional: the description of a concatenation is
      the concatenation of the descriptions. */
  lemma DescribeAppend(a: Scope, b: Scope)
    ensures Describe(a + b) == Describe(a) + Describe(b)
  {
    assert Entries(a + b) == Entries(a) + Entries(b);
    JoinAppend(Entries(a), Entries(b));
  }

  /** An empty scope describes as the empty string, and only an empty one. */
  lemma DescribeEmptyIff(scope: Scope)
    ensures Describe(scope) == "" <==> scope == []
  {
    if scope != [] {
      var n := |scope| - 1;
      JoinAt(Entries(scope), n);
      assert Entry(scope[n].0, scope[n].1)[0] == '*';
    }
  }

  /** Fields appear in mapping order: the i-th field's entry sits between
      the description of the fields before it and of those after it. */
  lemma FieldAt(scope: Scope, i: nat)
    requires i < |scope|
    ensures Describe(scope)
         == Describe(scope[..i]) + Entry(scope[i].0, scope[i].1) + Describe(scope[i + 1..])
  {
    JoinAt(Entries(scope), i);
    assert Entries(scope)[..i] == Entries(scope[..i]);
    assert Entries(scope)[i + 1..] == Entries(scope[i + 1..]);
  }

  /** Each list element has a line of its own, in list order. */
  lemma ItemAt(marker: string, items: seq<string>, j: nat)
    requires j < |items|
    ensures ItemLines(marker, items)
         == ItemLines(marker, items[..j]) + (marker + items[j] + "\n") + ItemLines(marker, items[j + 1..])
  {
    var lines := seq(|items|, k requires 0 <= k < |items| => marker + items[k] + "\n");
    JoinAt(lines, j);
    assert lines[..j] == seq(j, k requires 0 <= k < j => marker + items[..j][k] + "\n");
    assert lines[j + 1..]
        == seq(|items| - j - 1, k requires 0 <= k < |items| - j - 1 => marker + items[j + 1..][k] + "\n");
  }

  /** Appending a field appends its entry. */
  lemma DescribeSnoc(scope: Scope, i: nat)
    requires i < |scope|
    ensures Describe(scope[..i + 1]) == Describe(scope[..i]) + Entry(scope[i].0, scope[i].1)
  {
    FieldAt(scope[..i + 1], i);
    assert scope[..i + 1][..i] == scope[..i];
    assert scope[..i + 1][i + 1..] == [];
  }

  /** Appending an element appends its line. */
  lemma ItemLinesSnoc(marker: string, items: seq<string>, j: nat)
    requires j < |items|
    ensures ItemLines(marker, items[..j + 1]) == ItemLines(marker, items[..j]) + (marker + items[j] + "\n")
  {
    ItemAt(marker, items[..j + 1], j);
    assert items[..j + 1][..j] == items[..j];
    assert items[..j + 1][j + 1..] == [];
  }

  /** A scalar field (k, v) is shown as "*k*: v" followed by a blank line. */
  lemma ScalarEntry(key: string, text: string)
    ensures Entry(key, Scalar(text)) == "*" + key + "*: " + text + "\n\n"
  {
  }

  /** A list field under "Sub-Tasks" is the label, a line break, each
      element verbatim on its own line, and a blank line. */
  lemma SubTasksEntry(items: seq<string>)
    ensures Entry(SubTasksKey, Items(items)) == "*Sub-Tasks*: \n" + ItemLines("", items) + "\n"
  {
  }

  /** A list field under any other key is the label, a line break, each
      element after a "- " bullet on its own line, and a blank line. */
  lemma BulletedEntry(key: string, items: seq<string>)
    requires key != SubTasksKey
    ensures Entry(key, Items(items)) == "*" + key + "*: \n" + ItemLines("- ", items) + "\n"
  {
  }

  /** The list elements, after a line break, always end in a line break. */
  lemma ItemLinesEndInNewline(marker: string, items: seq<string>)
    ensures var s := "\n" + ItemLines(marker, items); s[|s| - 1] == '\n'
  {
    if items != [] {
      ItemAt(marker, items, |items| - 1);
    }
  }

  /** Every scalar field (k, v) of the scope shows up as the whole line
      "*k*: v" of the description: the text before it is empty or ends a
      line. */
  lemma ScalarFieldShown(scope: Scope, i: nat)
    requires i < |scope| && scope[i].1.Scalar?
    ensures Contains(Describe(scope), "*" + scope[i].0 + "*: " + scope[i].1.text + "\n")
    ensures Contains("\n" + Describe(scope), "\n" + ("*" + scope[i].0 + "*: " + scope[i].1.text + "\n"))
  {
    var part := "*" + scope[i].0 + "*: " + scope[i].1.text + "\n";
    var d1, d2 := Describe(scope[..i]), Describe(scope[i + 1..]);
    FieldAt(scope, i);
    assert Describe(scope) == d1 + part + ("\n" + d2);
    ContainsMiddle(d1, part, "\n" + d2);
    DescribeEndsLine(scope[..i]);
    StartsLine(d1, part, d2);
  }

  /** A piece placed after text that is empty or ends a line, and followed by
      a line break, starts a line of its own. */
  lemma StartsLine(before: string, part: string, after: string)
    requires var lead := "\n" + before; lead[|lead| - 1] == '\n'
    ensures Contains("\n" + (before + part + ("\n" + after)), "\n" + part)
  {
    var lead := "\n" + before;
    var head := lead[..|lead| - 1];
    assert lead == head + "\n";
    calc {
      "\n" + (before + part + ("\n" + after));
      lead + part + ("\n" + after);
      (head + "\n") + part + ("\n" + after);
      head + ("\n" + part) + ("\n" + after);
    }
    ContainsMiddle(head, "\n" + part, "\n" + after);
  }

  /** A description, after a line break, always ends in a line break: every
      entry ends one. */
  lemma DescribeEndsLine(scope: Scope)
    ensures var d := "\n" + Describe(scope); d[|d| - 1] == '\n'
  {
    if scope != [] {
      var n := |scope| - 1;
      DescribeSnoc(scope, n);
      assert scope[..n + 1] == scope;
      var (key, value) := scope[n];
      assert Entry(key, value)[|Entry(key, value)| - 1] == '\n';
    }
  }

  /** Every element x of a list field shows up on a line of its own: as
      "x" under "Sub-Tasks", as "- x" under any other key. */
  lemma ItemShown(scope: Scope, i: nat, j: nat)
    requires i < |scope| && scope[i].1.Items? && j < |scope[i].1.items|
    ensures Contains(Describe(scope), "\n" + Marker(scope[i].0) + scope[i].1.items[j] + "\n")
    ensures Marker(scope[i].0) == if scope[i].0 == SubTasksKey then "" else "- "
  {
    var part := "\n" + Marker(scope[i].0) + scope[i].1.items[j] + "\n";
    var before, after := ItemLineInEntry(scope[i].0, scope[i].1.items, j);
    FieldAt(scope, i);
    var d1, d2 := Describe(scope[..i]), Describe(scope[i + 1..]);
    assert Describe(scope) == (d1 + before) + part + (after + d2);
    ContainsMiddle(d1 + before, part, after + d2);
  }

  /** Where the line of the j-th element sits in its field's entry. */
  lemma ItemLineInEntry(key: string, items: seq<string>, j: nat) returns (before: string, after: string)
    requires j < |items|
    ensures Entry(key, Items(items)) == before + ("\n" + Marker(key) + items[j] + "\n") + after
  {
    var marker := Marker(key);
    var front, back := ItemLines(marker, items[..j]), ItemLines(marker, items[j + 1..]);
    var line := marker + items[j] + "\n";
    ItemAt(marker, items, j);
    ItemLinesEndInNewline(marker, items[..j]);
    var lead := "\n" + front;
    var head := lead[..|lead| - 1];
    assert lead == head + "\n";
    Regroup(Label(key), front, line, back, head);
    before, after := Label(key) + head, back + "\n";
    assert "\n" + line == "\n" + marker + items[j] + "\n";
  }

  /** Moving the line break that ends the lines before an element onto that
      element's own line. */
  lemma Regroup(opening: string, front: string, line: string, back: string, head: string)
    requires "\n" + front == head + "\n"
    ensures opening + "\n" + (front + line + back) + "\n" == (opening + head) + ("\n" + line) + (back + "\n")
  {
    calc {
      opening + "\n" + (front + line + back) + "\n";
      opening + ("\n" + front) + line + (back + "\n");
      opening + (head + "\n") + line + (back + "\n");
      (opening + head) + ("\n" + line) + (back + "\n");
    }
  }

  // ---------------------------------------------------------------------
  // format_description

  /** `format_description(task_details)`: looks up the "Detailed Scope"
      and grows the description one field at a time. */
  method FormatDescription(task: TaskObject) returns (r: Result<string, PyException>)
    ensures r == FormatDescriptionOf(task)
  {
    if "Detailed Scope" !in task {
      return Err(KeyError("Detailed Scope"));
    }
    match task["Detailed Scope"]
    case Text(_) =>
      return Err(AttributeError(NoItemsMessage));
    case Mapping(scope) =>
      var description := "";
      for i := 0 to |scope|
        invariant description == Describe(scope[..i])
      {
        description := AppendField(description, scope[i].0, scope[i].1);
        DescribeSnoc(scope, i);
      }
      assert scope[..|scope|] == scope;
      return Ok(description);
  }

  /** The body of the loop over the fields: the label, then the value,
      then the closing blank line. */
  method AppendField(description: string, key: string, value: Value) returns (extended: string)
    ensures extended == description + Entry(key, value)
  {
    extended := description + "*" + key + "*: ";
    match value {
      case Items(items) =>
        extended := extended + "\n";
        extended := AppendItems(extended, key, items);
        extended := extended + "\n";
        assert extended == description + (Label(key) + "\n" + ItemLines(Marker(key), items) + "\n");
      case Scalar(text) =>
        extended := extended + text + "\n";
        extended := extended + "\n";
        assert extended == description + (Label(key) + text + "\n" + "\n");
    }
  }

  /** The inner loops: a list value element by element, verbatim under
      "Sub-Tasks" and bulleted under any other key. */
  method AppendItems(description: string, key: string, items: seq<string>) returns (extended: string)
    ensures extended == description + ItemLines(Marker(key), items)
  {
    extended := description;
    if key == SubTasksKey {
      for j := 0 to |items|
        invariant extended == description + ItemLines("", items[..j])
      {
        ItemLinesSnoc("", items, j);
        extended := extended + items[j] + "\n";
      }
    } else {
      for j := 0 to |items|
        invariant extended == description + ItemLines("- ", items[..j])
      {
        ItemLinesSnoc("- ", items, j);
        extended := extended + "- " + items[j] + "\n";
      }
    }
    assert items[..|items|] == items;
  }

  // ---------------------------------------------------------------------
  // create_jira_issue

  /** The `fields` of the issue: the project and assignee are plain strings
      here; the summary is whatever the task holds under "Task Title". */
  datatype Payload = Payload(
    projectKey: string,
    summary: Field,
    description: string,
    issueType: string,
    assignee: string)

  /** The tracker client's `create_issue`: the new issue's key, or the
      message of what it raised. */
  type Tracker = Payload -> Outcome

  /** The issue dictionary built inside the `try`, or what building it raised
      (the summary is looked up before the description is formatted). */
  function BuildPayload(task: TaskObject, user: string, projectKey: string): (r: Result<Payload, PyException>)
    ensures r.Ok? <==> "Task Title" in task && FormatDescriptionOf(task).Ok?
    ensures r.Ok? ==> r.value == Payload(projectKey, task["Task Title"], FormatDescriptionOf(task).value, "Task", user)
    ensures "Task Title" !in task ==> r == Err(KeyError("Task Title"))
    ensures "Task Title" in task && FormatDescriptionOf(task).Err? ==> r == Err(FormatDescriptionOf(task).error)
  {
    if "Task Title" !in task then Err(KeyError("Task Title"))
    else match FormatDescriptionOf(task)
      case Err(e) => Err(e)
      case Ok(description) => Ok(Payload(projectKey, task["Task Title"], description, "Task", user))
  }

  /** `create_jira_issue`: files the issue and reports the result as text;
      every failure, local or remote, is folded into the returned string. */
  function CreateJiraIssue(tracker: Tracker, task: TaskObject, user: string, projectKey: string): (r: string)
    ensures StartsWith(r, SuccessPrefix) != StartsWith(r, FailurePrefix)
  {
    match BuildPayload(task, user, projectKey)
    case Err(e) => assert (FailurePrefix + ExceptionText(e))[0] == 'F'; FailurePrefix + ExceptionText(e)
    case Ok(payload) =>
      match tracker(payload)
      case Ok(key) => assert (SuccessPrefix + key)[0] == 'S'; SuccessPrefix + key
      case Err(message) => assert (FailurePrefix + message)[0] == 'F'; FailurePrefix + message
  }

  /** Filing succeeds exactly when the payload can be built and the tracker
      accepts it, and the report then names the new issue's key; otherwise
      the report carries the upstream message after the failure prefix. */
  lemma CreateJiraIssueReports(tracker: Tracker, task: TaskObject, user: string, projectKey: string)
    ensures var r := CreateJiraIssue(tracker, task, user, projectKey);
      var built := BuildPayload(task, user, projectKey);
      && (StartsWith(r, SuccessPrefix) <==> built.Ok? && tracker(built.value).Ok?)
      && (built.Ok? && tracker(built.value).Ok? ==> r[|SuccessPrefix|..] == tracker(built.value).value)
      && (built.Ok? && tracker(built.value).Err? ==> r[|FailurePrefix|..] == tracker(built.value).error)
      && (built.Err? ==> r[|FailurePrefix|..] == ExceptionText(built.error))
  {
    var r := CreateJiraIssue(tracker, task, user, projectKey);
    var built := BuildPayload(task, user, projectKey);
    if built.Err? || tracker(built.value).Err? {
      assert r[0] == 'F' != SuccessPrefix[0];
    }
  }

  /** A task without a title is never sent: the result does not depend on
      the tracker, and reports the KeyError. */
  lemma MissingTitleNeverSent(t1: Tracker, t2: Tracker, task: TaskObject, user: string, projectKey: string)
    requires "Task Title" !in task
    ensures CreateJiraIssue(t1, task, user, projectKey) == CreateJiraIssue(t2, task, user, projectKey)
    ensures CreateJiraIssue(t1, task, user, projectKey) == FailurePrefix + "'Task Title'"
  {
  }
}

