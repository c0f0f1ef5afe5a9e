/** `generateMockup`: builds one request from the uploaded image and a fixed
    Portuguese instruction, sends it, and returns the data of the first
    inline-image part of the first candidate. The SDK call itself is not
    modelled: its settlement arrives as a `RemoteReply` value, and the
    response keeps only the optional fields the code reads. */
module GeminiService {
  import opened Wrappers

  const ModelName: string := "gemini-2.5-flash-image"

  /** The opening of the instruction, up to where the category is inserted. */
  const PromptLead: string := "Crie um mockup fotorrealista. A imagem enviada pelo usuário deve ser aplicada em um(a) "

  /** Text placed between the category and the style hint. */
  const PromptJoint: string := ". "

  /** The only message a caller ever sees from a failed generation. */
  const FailureMessage: string := "Falha ao gerar a imagem do mockup."

  /** Raised internally when the reply holds no image; always replaced by
      `FailureMessage` before it leaves the client. */
  const NoImageMessage: string := "Nenhum dado de imagem encontrado na resposta da API."

  datatype Modality = Image

  /** Inline binary content. Both fields are optional in the SDK's types;
      `data` is `None` where JavaScript would pass or return `undefined`. */
  datatype InlineData = InlineData(data: Option<string>, mimeType: Option<string>)

  datatype Part = Part(inlineData: Option<InlineData>, text: Option<string>)

  datatype Content = Content(parts: Option<seq<Part>>)

  datatype Candidate = Candidate(content: Option<Content>)

  datatype Response = Response(candidates: Option<seq<Candidate>>)

  /** How the remote call settled: a response, or a thrown error (network,
      authentication, quota, malformed request, ...). */
  datatype RemoteReply = Replied(response: Response) | RemoteError(message: string)

  /** The argument of `generateContent`. */
  datatype Request = Request(model: string, parts: seq<Part>, responseModalities: seq<Modality>)

  /** One invocation of the client: the requests it sent and how it settled. */
  datatype Invocation = Invocation(issued: seq<Request>, result: Result<Option<string>, string>)

  /** The instruction text: the category and the hint are inserted verbatim
      into the fixed template. */
  function Prompt(category: string, hint: string): (p: string)
    ensures |p| == |PromptLead| + |category| + |PromptJoint| + |hint|
    ensures p[..|PromptLead|] == PromptLead
    ensures p[|PromptLead|..|PromptLead| + |category|] == category
    ensures p[|PromptLead| + |category|..|PromptLead| + |category| + |PromptJoint|] == PromptJoint
    ensures p[|p| - |hint|..] == hint
  {
    PromptLead + category + PromptJoint + hint
  }

  /** Given the category, the prompt determines the hint, and given the hint
      it determines the category. */
  lemma PromptDeterminesHint(category: string, hint1: string, hint2: string)
    requires Prompt(category, hint1) == Prompt(category, hint2)
    ensures hint1 == hint2
  {
  }

  lemma PromptDeterminesCategory(category1: string, category2: string, hint: string)
    requires Prompt(category1, hint) == Prompt(category2, hint)
    ensures category1 == category2
  {
  }

  /** An empty hint is accepted and leaves the instruction ending right
      after the category's full stop and space. */
  lemma EmptyHintPrompt(category: string)
    ensures Prompt(category, "") == PromptLead + category + PromptJoint
  {
  }

  /** The single request `generateMockup` sends: the image part first, the
      instruction second, asking for an image back. */
  function BuildRequest(base64: Option<string>, mimeType: string, category: string, hint: string): (q: Request)
    ensures q.model == ModelName
    ensures |q.parts| == 2
    ensures q.parts[0].inlineData == Some(InlineData(base64, Some(mimeType))) && q.parts[0].text.None?
    ensures q.parts[1].inlineData.None? && q.parts[1].text == Some(Prompt(category, hint))
    ensures q.responseModalities == [Image]
  {
    Request(ModelName,
            [Part(Some(InlineData(base64, Some(mimeType))), None), Part(None, Some(Prompt(category, hint)))],
            [Image])
  }

  /** `response.candidates?.[0]?.content?.parts || []`: the parts of the first
      candidate, with every missing level read as no parts at all. */
  function CandidateParts(response: Response): (ps: seq<Part>)
    ensures response.candidates.None? ==> ps == []
    ensures response.candidates.Some? && |response.candidates.value| == 0 ==> ps == []
    ensures response.candidates.Some? && |response.candidates.value| > 0 ==>
      var first := response.candidates.value[0];
      ps == (if first.content.Some? && first.content.value.parts.Some? then first.content.value.parts.value else [])
  {
    match response.candidates
    case None => []
    case Some(cs) =>
      if |cs| == 0 then []
      else match cs[0].content
        case None => []
        case Some(c) => c.parts.GetOr([])
  }

  /** The reply holds an image part in its first candidate. */
  predicate CarriesImage(reply: RemoteReply)
  {
    reply.Replied? &&
    exists i :: 0 <= i < |CandidateParts(reply.response)| && CandidateParts(reply.response)[i].inlineData.Some?
  }

  /** The first part that carries inline data, scanning in order. */
  function FirstInlineData(parts: seq<Part>): (r: Option<InlineData>)
    ensures r.None? <==> forall i :: 0 <= i < |parts| ==> parts[i].inlineData.None?
    ensures r.Some? ==> exists i :: 0 <= i < |parts| && parts[i].inlineData == r
                                    && forall j :: 0 <= j < i ==> parts[j].inlineData.None?
  {
    if |parts| == 0 then None
    else if parts[0].inlineData.Some? then parts[0].inlineData
    else
      var r := FirstInlineData(parts[1..]);
      assert forall i :: 1 <= i < |parts| ==> parts[i] == parts[1..][i - 1];
      if r.Some? then
        var k :| 0 <= k < |parts[1..]| && parts[1..][k].inlineData == r
                 && forall j :: 0 <= j < k ==> parts[1..][j].inlineData.None?;
        assert parts[k + 1].inlineData == r;
        r
      else r
  }

  /** Parts after the first image-bearing one are never looked at. */
  lemma {:induction false} LaterPartsIgnored(parts: seq<Part>, later: seq<Part>)
    requires FirstInlineData(parts).Some?
    ensures FirstInlineData(parts + later) == FirstInlineData(parts)
  {
    if parts[0].inlineData.None? {
      assert (parts + later)[1..] == parts[1..] + later;
      LaterPartsIgnored(parts[1..], later);
    }
  }

  /** The body of the `try` block once the reply is in: the first image
      part's data, or the error raised for a reply without one. */
  function Attempt(reply: RemoteReply): (r: Result<Option<string>, string>)
    ensures reply.RemoteError? ==> r == Failure(reply.message)
    ensures reply.Replied? && FirstInlineData(CandidateParts(reply.response)).None? ==> r == Failure(NoImageMessage)
    ensures reply.Replied? && FirstInlineData(CandidateParts(reply.response)).Some? ==>
      r == Success(FirstInlineData(CandidateParts(reply.response)).value.data)
  {
    match reply
    case RemoteError(message) => Failure(message)
    case Replied(response) =>
      match FirstInlineData(CandidateParts(response))
      case Some(inline) => Success(inline.data)
      case None => Failure(NoImageMessage)
  }

  /** The `catch` block: whatever was thrown is replaced by one message. */
  function Normalize(r: Result<Option<string>, string>): (n: Result<Option<string>, string>)
    ensures n.Success? <==> r.Success?
    ensures n.Success? ==> n.value == r.value
    ensures n.Failure? ==> n.error == FailureMessage
  {
    match r
    case Success(v) => Success(v)
    case Failure(_) => Failure(FailureMessage)
  }

  /** `generateMockup`: exactly one request, no retry, no cache. Every
      failure, from the remote call or from a reply without an image part,
      leaves as the same message. */
  function Generate(base64: Option<string>, mimeType: string, category: string, hint: string,
                    reply: RemoteReply): (inv: Invocation)
    ensures inv.issued == [BuildRequest(base64, mimeType, category, hint)]
    ensures inv.result.Failure? ==> inv.result.error == FailureMessage
    ensures inv.result.Success? <==> CarriesImage(reply)
  {
    Invocation([BuildRequest(base64, mimeType, category, hint)], Normalize(Attempt(reply)))
  }

  /** A remote error and a reply without an image are indistinguishable to
      the caller. */
  lemma FailuresLookAlike(base64: Option<string>, mimeType: string, category: string, hint: string,
                          message: string, response: Response)
    requires FirstInlineData(CandidateParts(response)).None?
    ensures Generate(base64, mimeType, category, hint, RemoteError(message))
            == Generate(base64, mimeType, category, hint, Replied(response))
  {
  }

  /** A successful invocation returns the data of the earliest image part of
      the first candidate. */
  lemma GenerateReturnsFirstImage(base64: Option<string>, mimeType: string, category: string, hint: string,
                                  response: Response, i: nat)
    requires i < |CandidateParts(response)|
    requires CandidateParts(response)[i].inlineData.Some?
    requires forall j :: 0 <= j < i ==> CandidateParts(response)[j].inlineData.None?
    ensures Generate(base64, mimeType, category, hint, Replied(response)).result
            == Success(CandidateParts(response)[i].inlineData.value.data)
  {
  }

  /** A response missing its candidates, their content or the parts list
      has no parts, and so fails with the common message. */
  lemma MissingStructureFails(base64: Option<string>, mimeType: string, category: string, hint: string,
                              response: Response)
    requires || response.candidates.None?
             || |response.candidates.value| == 0
             || response.candidates.value[0].content.None?
             || response.candidates.value[0].content.value.parts.None?
    ensures Generate(base64, mimeType, category, hint, Replied(response)).result == Failure(FailureMessage)
  {
  }
}
