/** What the completion backend hands back for one request, and how the session turns it into
    the assistant's text without ever raising: the first choice's text on success, a diagnostic
    string carrying a fixed marker and the failure's cause otherwise. */
module Completion {

  import opened Wrappers

  /** The outcome of one call to the backend: the returned choices, or an exception with its text. */
  datatype Reply = Completed(choices: seq<string>) | Raised(cause: string)

  /** Marker that opens every diagnostic string ("an error occurred: "). */
  const ErrorPrefix: string := "エラーが発生しました: "

  /** Text of the IndexError Python raises when the choices list is empty. */
  const IndexErrorCause: string := "list index out of range"

  /** A reply the session can read an answer from: a completed call with at least one choice. */
  predicate Succeeded(reply: Reply)
  {
    reply.Completed? && |reply.choices| > 0
  }

  /** The text of the exception the session catches for a reply it cannot read an answer from. */
  function FailureCause(reply: Reply): string
    requires !Succeeded(reply)
  {
    if reply.Raised? then reply.cause else IndexErrorCause
  }

  /** The diagnostic string shown in place of an answer. */
  function Diagnostic(cause: string): string
  {
    ErrorPrefix + cause
  }

  /** Reads the cause back out of a diagnostic string; None for text without the marker. */
  function DiagnosticCause(text: string): (r: Option<string>)
    ensures r.Some? <==> |ErrorPrefix| <= |text| && text[..|ErrorPrefix|] == ErrorPrefix
    ensures r.Some? ==> text == ErrorPrefix + r.value
  {
    if |ErrorPrefix| <= |text| && text[..|ErrorPrefix|] == ErrorPrefix then
      assert text == text[..|ErrorPrefix|] + text[|ErrorPrefix|..];
      Some(text[|ErrorPrefix|..])
    else None
  }

  /** The cause of a diagnostic is recovered exactly from it. */
  lemma DiagnosticRoundTrip(cause: string)
    ensures DiagnosticCause(Diagnostic(cause)) == Some(cause)
  {
  }

  /** The assistant text for a reply. Success yields the first choice's text; every failure,
      including an empty choices list, yields a non-empty diagnostic from which its cause is
      recovered. The function is total: no reply makes it fail. */
  function ResponseText(reply: Reply): (text: string)
    ensures Succeeded(reply) ==> text == reply.choices[0]
    ensures !Succeeded(reply) ==> DiagnosticCause(text) == Some(FailureCause(reply))
    ensures !Succeeded(reply) ==> |text| > |FailureCause(reply)|
  {
    match reply
    case Raised(e) =>
      DiagnosticRoundTrip(e);
      Diagnostic(e)
    case Completed(choices) =>
      if |choices| == 0 then
        DiagnosticRoundTrip(IndexErrorCause);
        Diagnostic(IndexErrorCause)
      else choices[0]
  }

  /** Failures with different causes produce different diagnostics, so no cause is lost. */
  lemma FailuresDistinguished(r1: Reply, r2: Reply)
    requires !Succeeded(r1) && !Succeeded(r2)
    ensures ResponseText(r1) == ResponseText(r2) <==> FailureCause(r1) == FailureCause(r2)
  {
  }

  /** A diagnostic is told apart from a successful answer whenever that answer does not itself
      begin with the marker. */
  lemma DiagnosticMarksFailure(reply: Reply)
    requires Succeeded(reply) ==> DiagnosticCause(reply.choices[0]).None?
    ensures DiagnosticCause(ResponseText(reply)).Some? <==> !Succeeded(reply)
  {
  }
}
