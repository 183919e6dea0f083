/** The document-summarizer edge function: the length instruction of the prompt, and what
    it stores after a successful summary (the title fallback, the truncated content, the
    condition for writing a row at all). The model call and the insert are opaque. */
module SummarizerFunction {
  import opened Common
  import opened Text
  import DocumentSummarizer

  const ShortInstruction: string := "in 2-3 sentences"
  const MediumInstruction: string := "in 1-2 paragraphs (100-200 words)"
  const LongInstruction: string := "in 3-4 paragraphs (300-500 words)"
  const DefaultInstruction: string := "in 1-2 paragraphs"

  /** The `switch` on the requested summary length. */
  function LengthInstruction(summaryLength: string): (r: string)
    ensures summaryLength == "short" ==> r == ShortInstruction
    ensures summaryLength == "medium" ==> r == MediumInstruction
    ensures summaryLength == "long" ==> r == LongInstruction
    ensures summaryLength !in {"short", "medium", "long"} ==> r == DefaultInstruction
  {
    match summaryLength
    case "short" => ShortInstruction
    case "medium" => MediumInstruction
    case "long" => LongInstruction
    case _ => DefaultInstruction
  }

  /** The four instructions differ, so the one in the prompt tells which case was taken:
      two lengths share an instruction only when both fall to the default. */
  lemma InstructionDeterminesLength(a: string, b: string)
    requires LengthInstruction(a) == LengthInstruction(b)
    ensures a == b || (a !in {"short", "medium", "long"} && b !in {"short", "medium", "long"})
  {
    assert ShortInstruction[3] != MediumInstruction[3] && ShortInstruction[3] != LongInstruction[3];
    assert MediumInstruction[3] != LongInstruction[3];
    assert |DefaultInstruction| != |ShortInstruction| && |DefaultInstruction| != |MediumInstruction|;
    assert |DefaultInstruction| != |LongInstruction|;
  }

  /** `fileName || 'Untitled Document'`. */
  function OriginalTitle(fileName: string): (r: string)
    ensures r != ""
    ensures fileName != "" ==> r == fileName
    ensures fileName == "" ==> r == "Untitled Document"
  {
    if fileName == "" then "Untitled Document" else fileName
  }

  const StoredLimit: nat := 10000

  /** `content.substring(0, 10000)`: the first 10000 characters, or all of a shorter text. */
  function StoredContent(content: string): (r: string)
    ensures r <= content
    ensures |r| == if |content| < StoredLimit then |content| else StoredLimit
  {
    if |content| <= StoredLimit then content else content[..StoredLimit]
  }

  /** Truncating twice stores the same text as truncating once. */
  lemma StoredContentIdempotent(content: string)
    ensures StoredContent(StoredContent(content)) == StoredContent(content)
  {
  }

  datatype SummaryRequest = SummaryRequest(content: string, summaryLength: string, fileName: string, userId: Option<string>)

  /** The row inserted into `summaries`. */
  datatype SummaryRow = SummaryRow(
    userId: string, originalTitle: string, fileName: string, content: string,
    summary: string, keyInsights: seq<string>, summaryLength: string)

  /** A row is written only for a present, non-empty user id and a configured service key. */
  predicate Saves(req: SummaryRequest, serviceKey: Option<string>)
  {
    req.userId.Some? && req.userId.value != "" && serviceKey.Some? && serviceKey.value != ""
  }

  /** What is sent to the model, with the fixed prompt wording left out. */
  datatype PromptRequest = PromptRequest(instruction: string, content: string)

  datatype SummaryResponse = Summary(data: DocumentSummarizer.SummaryData) | ServerError(status: nat)

  /** The handler: without an API key it answers 500 before calling the model; a failed call
      (or a reply that does not parse) answers 500 and stores nothing; a successful one is
      returned as it is, after a row is stored when a user id and the service key are set. */
  method HandleRequest(req: SummaryRequest, apiKey: Option<string>, reply: Outcome<DocumentSummarizer.SummaryData>,
                       serviceKey: Option<string>)
    returns (sent: Option<PromptRequest>, saved: Option<SummaryRow>, resp: SummaryResponse)
    ensures sent.None? <==> (apiKey.None? || apiKey.value == "")
    ensures sent.Some? ==> sent.value == PromptRequest(LengthInstruction(req.summaryLength), req.content)
    ensures resp.Summary? <==> sent.Some? && reply.Succeeded?
    ensures resp.Summary? ==> resp.data == reply.data
    ensures resp.ServerError? ==> resp.status == 500
    ensures saved.Some? <==> resp.Summary? && Saves(req, serviceKey)
    ensures saved.Some? ==>
      saved.value.userId == req.userId.value
      && saved.value.originalTitle == OriginalTitle(req.fileName)
      && saved.value.fileName == req.fileName
      && saved.value.content == StoredContent(req.content)
      && saved.value.summary == reply.data.summary
      && saved.value.keyInsights == reply.data.keyInsights
      && saved.value.summaryLength == req.summaryLength
  {
    if apiKey.None? || apiKey.value == "" {
      return None, None, ServerError(500);
    }
    sent := Some(PromptRequest(LengthInstruction(req.summaryLength), req.content));
    if reply.Failed? {
      return sent, None, ServerError(500);
    }
    saved := None;
    if Saves(req, serviceKey) {
      saved := Some(SummaryRow(req.userId.value, OriginalTitle(req.fileName), req.fileName,
                               StoredContent(req.content), reply.data.summary, reply.data.keyInsights,
                               req.summaryLength));
    }
    resp := Summary(reply.data);
  }
}
