/** Ollama-compatible response records (`create_chat_response` and friends). The
    `created_at` clock reading is not modelled. */
module Responses {
  import opened Wrappers
  import opened PyText

  /** The fixed timing fields and the two token counts of a finished reply. */
  datatype Stats = Stats(
    totalDuration: nat,
    loadDuration: nat,
    promptEvalCount: nat,
    promptEvalDuration: nat,
    evalCount: nat,
    evalDuration: nat)

  datatype ChatMessage = ChatMessage(role: string, content: string)

  /** A `/api/chat` reply or stream unit. */
  datatype ChatResponse = ChatResponse(model: string, message: ChatMessage, done: bool, stats: Option<Stats>)

  /** A `/api/generate` reply or stream unit; `context` is present only on final replies. */
  datatype GenerateResponse = GenerateResponse(
    model: string, response: string, done: bool, context: Option<seq<int>>, stats: Option<Stats>)

  const Assistant := "assistant"
  const ErrorPrefix := "Error: "

  /** The reported statistics: constant durations, the given prompt count and the
      number of whitespace-separated words of the reply. */
  function ReplyStats(promptEvalCount: nat, content: string): (s: Stats)
    ensures s.promptEvalCount == promptEvalCount && s.evalCount == |Split(content)|
    ensures s.totalDuration == 1000000000 && s.loadDuration == 100000000
    ensures s.promptEvalDuration == 200000000 && s.evalDuration == 500000000
  {
    Stats(1000000000, 100000000, promptEvalCount, 200000000, |Split(content)|, 500000000)
  }

  /** `create_chat_response(model, content, done)`; the prompt count is always 10. */
  function CreateChatResponse(model: string, content: string, done: bool): (r: ChatResponse)
    ensures r.model == model && r.message == ChatMessage(Assistant, content) && r.done == done
    ensures r.stats == Some(ReplyStats(10, content))
  {
    ChatResponse(model, ChatMessage(Assistant, content), done, Some(ReplyStats(10, content)))
  }

  /** `create_generate_response(model, content, done)`. */
  function CreateGenerateResponse(model: string, content: string, done: bool): (r: GenerateResponse)
    ensures r.model == model && r.response == content && r.done == done
    ensures r.context == Some([]) && r.stats == Some(ReplyStats(10, content))
  {
    GenerateResponse(model, content, done, Some([]), Some(ReplyStats(10, content)))
  }

  /** `create_chat_error_response(model, error)`. */
  function CreateChatErrorResponse(model: string, error: string): (r: ChatResponse)
    ensures r.model == model && r.done && r.stats.None? && r.message.role == Assistant
    ensures StartsWith(r.message.content, ErrorPrefix)
    ensures r.message.content == ErrorPrefix + error
  {
    ChatResponse(model, ChatMessage(Assistant, ErrorPrefix + error), true, None)
  }

  /** `create_generate_error_response(model, error)`. */
  function CreateGenerateErrorResponse(model: string, error: string): (r: GenerateResponse)
    ensures r.model == model && r.done && r.stats.None? && r.context.None?
    ensures StartsWith(r.response, ErrorPrefix)
    ensures r.response == ErrorPrefix + error
  {
    GenerateResponse(model, ErrorPrefix + error, true, None, None)
  }

  /** The error message after "Error: ". */
  function ErrorText(content: string): string
    requires StartsWith(content, ErrorPrefix)
  {
    content[|ErrorPrefix|..]
  }

  /** Both error builders carry the error text verbatim: it can be read back. */
  lemma ErrorResponsesRoundTrip(model: string, error: string)
    ensures ErrorText(CreateChatErrorResponse(model, error).message.content) == error
    ensures ErrorText(CreateGenerateErrorResponse(model, error).response) == error
    ensures CreateChatErrorResponse(model, error).message.content
      == CreateGenerateErrorResponse(model, error).response
  {
    assert (ErrorPrefix + error)[|ErrorPrefix|..] == error;
  }

  /** The word count ignores how the words are spaced: normalising the content's
      whitespace does not change `eval_count`. */
  lemma EvalCountIgnoresSpacing(model: string, content: string)
    ensures CreateChatResponse(model, Join(Split(content), " "), true).stats.value.evalCount
      == CreateChatResponse(model, content, true).stats.value.evalCount
    ensures CreateGenerateResponse(model, content, true).stats
      == CreateChatResponse(model, content, true).stats
  {
    NormaliseIdempotent(content);
  }
}
