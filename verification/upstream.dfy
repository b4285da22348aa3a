/**
  The reply of the text-generation service and the checks the handler applies
  to it before reading the generated text. The call itself is not modelled:
  the reply is an input. Optional fields are `None` when absent from the JSON.
 */
module Upstream {

  import opened Optional

  datatype Part = Part(text: Option<string>)

  datatype CandidateContent = CandidateContent(parts: Option<seq<Part>>)

  datatype Candidate = Candidate(content: Option<CandidateContent>)

  /** The parsed JSON body of a successful reply. */
  datatype Payload = Payload(candidates: Option<seq<Candidate>>)

  /** What awaiting the service produces. */
  datatype Reply =
    | FetchFailed(message: string)     // the request itself threw (network, DNS, ...)
    | NotOk(errorText: string)         // a non-2xx status; the body text is only logged
    | OkUnparsable(message: string)    // a 2xx status whose body is not JSON: response.json() threw
    | Ok(data: Payload)                // a 2xx status with a JSON body

  /** How the handler judges a reply. */
  datatype Verdict =
    | UpstreamFailure                  // answered with 'Failed to generate post'
    | InvalidResponse                  // answered with 'Invalid response from AI'
    | Thrown(message: string)          // an exception reaches the catch block
    | Generated(text: Option<string>)  // the first candidate's first part's text, if it has one

  /** Messages of the TypeErrors raised when reading through a missing value. */
  const ReadIndexOfUndefined: string := "Cannot read properties of undefined (reading '0')"
  const ReadTextOfUndefined: string := "Cannot read properties of undefined (reading 'text')"

  /** The payload has a first candidate and that candidate has content. */
  predicate HasFirstContent(p: Payload) {
    p.candidates.Some? && |p.candidates.value| > 0 && p.candidates.value[0].content.Some?
  }

  /** The first candidate's content also has a first part. */
  predicate HasFirstPart(p: Payload) {
    HasFirstContent(p)
    && var c := p.candidates.value[0].content.value;
    c.parts.Some? && |c.parts.value| > 0
  }

  function FirstPart(p: Payload): Part
    requires HasFirstPart(p)
  {
    p.candidates.value[0].content.value.parts.value[0]
  }

  /** `content.parts[0].text`, reading through JavaScript property access. */
  function ReadText(c: CandidateContent): Verdict {
    match c.parts
    case None => Thrown(ReadIndexOfUndefined)
    case Some(ps) => if |ps| == 0 then Thrown(ReadTextOfUndefined) else Generated(ps[0].text)
  }

  /**
    Judges a reply the way the handler does: a non-ok status first, then the
    candidate/content guard, then the unguarded read of the first part's text.
   */
  function Assess(reply: Reply): (v: Verdict)
    ensures v == UpstreamFailure <==> reply.NotOk?
    ensures v == InvalidResponse <==> reply.Ok? && !HasFirstContent(reply.data)
    ensures v.Generated? <==> reply.Ok? && HasFirstPart(reply.data)
    ensures v.Generated? ==> v.text == FirstPart(reply.data).text
    ensures v.Thrown? <==>
      || reply.FetchFailed?
      || reply.OkUnparsable?
      || (reply.Ok? && HasFirstContent(reply.data) && !HasFirstPart(reply.data))
    ensures reply.FetchFailed? ==> v == Thrown(reply.message)
    ensures reply.OkUnparsable? ==> v == Thrown(reply.message)
  {
    match reply
    case FetchFailed(m) => Thrown(m)
    case NotOk(_) => UpstreamFailure
    case OkUnparsable(m) => Thrown(m)
    case Ok(data) =>
      if data.candidates.None? || |data.candidates.value| == 0 || data.candidates.value[0].content.None? then
        InvalidResponse
      else
        ReadText(data.candidates.value[0].content.value)
  }
}
