/** The browser-side analysis client, `analyzeAdCopy`
    (services/geminiService.ts.ts). The hosted model and `JSON.parse` of its
    reply are an oracle: the reply is a parameter, and the client reports
    the requests it issued. */
module GeminiService {
  import opened Wrappers
  import opened Types
  import opened PromptBuilder

  /** The client's template literal: body lines indented by four spaces,
      closing line by two. */
  const ClientTemplate: Template := MakeTemplate("    ", "  ", PromptWording)

  const InvalidFormat := "Invalid diagnostic format received from AI."

  /** What one `generateContent` call came to: it threw (with its message),
      or it answered and `JSON.parse` of the answer produced a value or threw
      (with the parser's message). */
  datatype ModelReply = Threw(message: string) | Replied(parsed: Result<DiagnosticResult, string>)

  /** The requests issued (each a `parts` list) and what the call settled to. */
  datatype ClientRun = ClientRun(calls: seq<seq<Part>>, outcome: Result<DiagnosticResult, string>)

  /** The client for template `t`: one model call with the built parts, no
      retry. A failing call rejects with its own error (it is outside the
      `try`); an unparsable answer rejects with the fixed format message; a
      parsed answer is returned as it is, without any range or shape check. */
  function Analyze(t: Template, input: AdInput, reply: ModelReply): (r: ClientRun)
    ensures |r.calls| == 1 && r.calls[0] == BuildParts(t, input)
    ensures r.outcome.Success? <==> reply.Replied? && reply.parsed.Success?
    ensures r.outcome.Success? ==> r.outcome.value == reply.parsed.value
    ensures reply.Threw? ==> r.outcome == Failure(reply.message)
    ensures reply.Replied? && reply.parsed.Failure? ==> r.outcome == Failure(InvalidFormat)
  {
    var request := BuildParts(t, input);
    var outcome :=
      match reply
      case Threw(msg) => Failure(msg)
      case Replied(Failure(_)) => Failure(InvalidFormat)
      case Replied(Success(result)) => Success(result);
    ClientRun([request], outcome)
  }

  /** `analyzeAdCopy` itself: `Analyze` on the client's template. */
  function AnalyzeAdCopy(input: AdInput, reply: ModelReply): (r: ClientRun)
    ensures r.calls == [BuildParts(ClientTemplate, input)]
    ensures r.outcome.Success? <==> reply.Replied? && reply.parsed.Success?
    ensures r.outcome.Success? ==> r.outcome.value == reply.parsed.value
    ensures reply.Threw? ==> r.outcome == Failure(reply.message)
    ensures reply.Replied? && reply.parsed.Failure? ==> r.outcome == Failure(InvalidFormat)
  {
    Analyze(ClientTemplate, input, reply)
  }

  /** No score validation: a parsed result whose focus score is 11 comes
      back unchanged. */
  lemma OutOfRangeScorePassesThrough(t: Template, input: AdInput, result: DiagnosticResult)
    requires result.focus.score == 11
    ensures Analyze(t, input, Replied(Success(result))).outcome == Success(result)
    ensures Analyze(t, input, Replied(Success(result))).outcome.value.focus.score > 10
  {
  }
}
