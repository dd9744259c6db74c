/** The errors the client returns and the text each renders to. Go wraps
    one error in another with `fmt.Errorf("...: %w", cause)`; here each
    wrapper is a constructor holding its cause, and `Text` renders the chain. */
module Errors {
  import opened Wrappers

  /** The four stages of an operation, each with its own wrapper message. */
  datatype Stage = Build | Execute | Read | Decode

  datatype Error =
    | Foreign(text: string)                              // returned by a library call
    | NewRequestFailed(cause: Error)                     // the HTTP request could not be created
    | SendFailed(cause: Error)                           // the transport failed
    | ServerError(status: string)                        // status >= 400, body unreadable
    | ServerErrorWithBody(status: string, body: string)  // status >= 400, body read
    | Wrapped(stage: Stage, cause: Error)                // an operation's stage wrapper

  /** The message an operation puts in front of the error of a failed stage
      (the misspelling "reqeust" is the client's own). */
  function Prefix(stage: Stage): string {
    match stage
    case Build => "Failed to create http reqeust: "
    case Execute => "DocBase API error: "
    case Read => "Failed to read body: "
    case Decode => "Failed to unmarshal body to json: "
  }

  const SERVER_ERROR_PREFIX: string := "Got error from docbase server: "

  function Text(e: Error): string {
    match e
    case Foreign(text) => text
    case NewRequestFailed(cause) => "Failed to create request: " + Text(cause)
    case SendFailed(cause) => "Failed to send http reqeust: " + Text(cause)
    case ServerError(status) => SERVER_ERROR_PREFIX + status
    case ServerErrorWithBody(status, body) => SERVER_ERROR_PREFIX + status + ", body: " + body
    case Wrapped(stage, cause) => Prefix(stage) + Text(cause)
  }

  predicate StartsWith(s: string, p: string) {
    |p| <= |s| && s[..|p|] == p
  }

  /** Which stage's wrapper an error text starts with, if any. */
  function StageOfText(s: string): Option<Stage> {
    if StartsWith(s, Prefix(Build)) then Some(Build)
    else if StartsWith(s, Prefix(Execute)) then Some(Execute)
    else if StartsWith(s, Prefix(Read)) then Some(Read)
    else if StartsWith(s, Prefix(Decode)) then Some(Decode)
    else None
  }

  /** The wrapper text names its stage and no other: the four messages map
      one-to-one onto the stages. */
  lemma StageOfWrappedText(stage: Stage, cause: Error)
    ensures StageOfText(Text(Wrapped(stage, cause))) == Some(stage)
    ensures forall other :: other != stage ==> !StartsWith(Text(Wrapped(stage, cause)), Prefix(other))
  {
    var s := Text(Wrapped(stage, cause));
    var p := Prefix(stage);
    assert s[..|p|] == p;
    assert s[0] == p[0] && s[10] == p[10];
    assert Prefix(Build)[0] == 'F' && Prefix(Build)[10] == 'c';
    assert Prefix(Execute)[0] == 'D';
    assert Prefix(Read)[0] == 'F' && Prefix(Read)[10] == 'r';
    assert Prefix(Decode)[0] == 'F' && Prefix(Decode)[10] == 'u';
  }

  /** `t` occurs in `s` starting at index `i`. */
  predicate OccursAt(s: string, t: string, i: int) {
    0 <= i <= |s| - |t| && s[i..i + |t|] == t
  }

  /** `t` occurs somewhere in `s`. */
  ghost predicate Contains(s: string, t: string) {
    exists i :: OccursAt(s, t, i)
  }

  lemma ContainsAt(s: string, t: string, i: nat)
    requires OccursAt(s, t, i)
    ensures Contains(s, t)
  {
  }

  lemma ContainsTransitive(s: string, t: string, u: string)
    requires Contains(s, t) && Contains(t, u)
    ensures Contains(s, u)
  {
    var i :| OccursAt(s, t, i);
    var j :| OccursAt(t, u, j);
    assert t == s[i..i + |t|];
    var w := s[i + j..i + j + |u|];
    forall k | 0 <= k < |u|
      ensures w[k] == u[k]
    {
      assert w[k] == s[i + j + k] == t[j + k];
      assert u[k] == t[j..j + |u|][k];
    }
    assert w == u;
    ContainsAt(s, u, i + j);
  }

  /** A server error's text carries the status line, and the body when it was read. */
  lemma ServerErrorMentions(status: string, body: string)
    ensures Contains(Text(ServerError(status)), status)
    ensures Contains(Text(ServerErrorWithBody(status, body)), status)
    ensures Contains(Text(ServerErrorWithBody(status, body)), body)
  {
    var n := |SERVER_ERROR_PREFIX|;
    var s := Text(ServerError(status));
    ContainsAt(s, status, n);
    var t := Text(ServerErrorWithBody(status, body));
    assert t[n..n + |status|] == status;
    ContainsAt(t, status, n);
    assert t[|t| - |body|..|t|] == body;
    ContainsAt(t, body, |t| - |body|);
  }

  /** A wrapper keeps its cause's whole text (`%w` formats the cause in full). */
  lemma WrappedMentionsCause(stage: Stage, cause: Error)
    ensures Contains(Text(Wrapped(stage, cause)), Text(cause))
  {
    var s := Text(Wrapped(stage, cause));
    assert s[|Prefix(stage)|..|s|] == Text(cause);
    ContainsAt(s, Text(cause), |Prefix(stage)|);
  }
}
