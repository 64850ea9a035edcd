/** The Python values the ticket pipeline passes around: a parsed JSON task
    object, the outcome of a call into a remote service, and the exceptions
    that can be raised locally.  Strings are sequences of Unicode characters,
    as Python's `str` is. */
module Values {

  datatype Option<+T> = None | Some(value: T)

  /** What a call that may raise returns: its value, or the exception. */
  datatype Result<+T, +E> = Ok(value: T) | Err(error: E)

  /** The outcome of a remote call: the text it returned, or `str(e)` of
      the exception it raised. */
  type Outcome = Result<string, string>

  /** One entry of a task's "Detailed Scope": a string, or a list of strings. */
  datatype Value = Scalar(text: string) | Items(items: seq<string>)

  /** A "Detailed Scope" mapping, in insertion order (a Python dict keeps it). */
  type Scope = seq<(string, Value)>

  /** A top-level value of the task object: a string or a nested mapping. */
  datatype Field = Text(text: string) | Mapping(scope: Scope)

  /** A parsed JSON object, such as
      {"Task Title": …, "Detailed Scope": {…}, "Scope Quality": …}
      or an error envelope {"error": …}. */
  type TaskObject = map<string, Field>

  /** The exceptions that code in this model raises itself. */
  datatype PyException =
    | KeyError(key: string)             // d[key] with key absent
    | AttributeError(message: string)   // a method called on the wrong type

  /** `str(e)`: a KeyError prints its key in quotes. */
  function ExceptionText(e: PyException): string
  {
    match e
    case KeyError(key) => "'" + key + "'"
    case AttributeError(message) => message
  }

  predicate StartsWith(s: string, prefix: string)
  {
    prefix <= s
  }

  predicate EndsWith(s: string, suffix: string)
  {
    |suffix| <= |s| && s[|s| - |suffix|..] == suffix
  }

  /** `part in whole`, Python's substring test. */
  predicate Contains(whole: string, part: string)
  {
    exists i :: 0 <= i <= |whole| && part <= whole[i..]
  }

  lemma ContainsMiddle(before: string, part: string, after: string)
    ensures Contains(before + part + after, part)
  {
    var whole := before + part + after;
    assert whole[|before|..] == part + after;
  }

  /** The concatenation of the pieces, in order (`"".join(pieces)`). */
  function Join(pieces: seq<string>): string
  {
    if pieces == [] then "" else Join(pieces[..|pieces| - 1]) + pieces[|pieces| - 1]
  }

  lemma JoinSnoc(a: seq<string>, x: string)
    ensures Join(a + [x]) == Join(a) + x
  {
    assert (a + [x])[..|a|] == a;
  }

  lemma {:induction false} JoinAppend(a: seq<string>, b: seq<string>)
    ensures Join(a + b) == Join(a) + Join(b)
    decreases |b|
  {
    if b == [] {
      assert a + b == a;
    } else {
      var b', y := b[..|b| - 1], b[|b| - 1];
      assert b == b' + [y];
      assert a + b == (a + b') + [y];
      JoinSnoc(a + b', y);
      JoinSnoc(b', y);
      JoinAppend(a, b');
    }
  }

  lemma SplitAt<T>(s: seq<T>, i: nat)
    requires i < |s|
    ensures s == (s[..i] + [s[i]]) + s[i + 1..]
  {
  }

  /** The i-th piece sits between the pieces before it and those after it. */
  lemma JoinAt(pieces: seq<string>, i: nat)
    requires i < |pieces|
    ensures Join(pieces) == Join(pieces[..i]) + pieces[i] + Join(pieces[i + 1..])
  {
    var front, x, rest := pieces[..i], pieces[i], pieces[i + 1..];
    SplitAt(pieces, i);
    JoinAppend(front + [x], rest);
    JoinSnoc(front, x);
  }
}
